# DepositDuck decision and validation rules in Dafny

DepositDuck helps tenants recover their rental deposit. This project models the rules its
web application applies to every request and every form, and proves properties of them.

- **Access control** (`Middleware`): the two dependables that guard pages and operations.
  They cut the request path out of the URL. Then, from the login state, the onboarding
  state and exact-match allowlists, they let the request through, redirect it with a
  307 (to `/login/`, `/` or `/welcome/`), or refuse it with a 401.
- **Business rules**:
  - `Auth`: who may sign up (deposit held by TDS, any letter case; the tenancy ended
    fewer than 90 days ago).
  - `AuthDependables`: the minimum password length and the session lifetime.
  - `Deposit`: a tenancy's deposit in pence, the whole pounds in it, and the days left
    in the dispute window.
- **Server-side forms**:
  - `FormErrors` and `Forms`: the current framework. Validators record errors in a
    nested map (field → exception class → input). The form derives Bootstrap's
    `is-valid`/`is-invalid` classes and the `can_submit` rule from it, and exports a
    template context that hides errors on fields without input.
  - `LegacyForms`: the earlier framework, which keeps pydantic's error records instead.
  - `Validators`, `UnsuitableProspectFunnel` and `DashboardForms`: the field validators.
    They cover the email check, the provider-name check on the "unsuitable prospect"
    form, and the name and deposit-amount checks of the onboarding form.
- **Client-side onboarding form** (`Welcome`, `LegacyWelcome`): the two generations of
  the browser object that holds the onboarding form's fields. Its `validate*` methods
  rewrite the fields, set boolean error flags and decide `canSubmitForm`.
  - `Js` models the ECMAScript semantics these methods rely on: truthiness, ToNumber,
    `new Date`, and whole-day differences.
  - `JsNames` models the name clean-up (`replace(/\s+/g, ' ').trim()`) and the
    `/^[\p{L}\s'-]+$/u` test.
  - `JsWords` describes the same clean-up independently, as the name's words joined by
    single spaces.

Objects that the source updates in place are classes:
- the form's fields object, which validators add errors to;
- both form classes;
- both onboarding form states.

Each method's `ensures` gives the new state, either directly or as a function of the old
state (`Snapshot() == AfterValidateName(old(Snapshot()), isLetter)`). The properties are
proved about those functions. Loops become `while` loops with invariants:
- `get_classes_for_fields`;
- `get_errors_for_frontend`;
- `formHasErrors`.

Everything the source reads from outside is a parameter:
- the clock: today as a day number, or `now` in milliseconds;
- the email syntax check: `validateEmail`;
- the Unicode letter class `\p{L}`: `isLetter`;
- `Date.parse`: `parseDate`;
- the pydantic model construction of the legacy forms: `validate`.

## Model

| member | source | states |
|---|---|---|
| `Middleware.RStripSlashes` | depositduck/middleware.py:32 | `rstrip("/")`: the result is a prefix, everything cut is a slash, and the result does not end in one |
| `Middleware.PathFromRequest` | depositduck/middleware.py:31-35 | the path is the URL minus as many leading characters as the slash-stripped base URL has; base plus path rebuilds the URL when the base is its prefix |
| `Middleware.FrontendAuth` | depositduck/middleware.py:38-64 | passes exactly a logged-out user on `/login/` or `/signup/`, or a logged-in user elsewhere who has onboarded or is on `/welcome/`; every refusal is a 307 to `/login/` (logged out), `/` (logged in on a logged-out page) or `/welcome/` (otherwise) |
| `Middleware.OperationsAuth` | depositduck/middleware.py:67-85 | refuses exactly logged-in users on the five logged-out operations, always with a 401 and no redirect; the 307 branch is dead |
| `Middleware.QueryStringDefeatsAllowlist` | depositduck/middleware.py:47-54 | the allowlist is matched on the raw path, so `/login/?…` sends a logged-out user to `/login/` again |
| `Middleware.RedirectsSettle` | depositduck/middleware.py:49-64 | following the frontend redirects reaches a page that lets the user through in at most two hops |
| `Middleware.AllowlistedPages` | depositduck/middleware.py:49-59 | on `/login/` and `/signup/` only the login state matters: logged out passes, logged in goes to `/` |
| `Auth.AsciiLower` | depositduck/auth/__init__.py:42 | lower-cases A-Z and leaves every other character alone |
| `Auth.Lower` | depositduck/auth/__init__.py:42 | lower-cases character by character, keeping the length |
| `Auth.TdsInAnyCase` | depositduck/auth/__init__.py:42 | the provider test accepts exactly the three letters t, d, s in any mix of cases |
| `Auth.IsProspectAcceptable` | depositduck/auth/__init__.py:36-53 | never returns False; succeeds exactly for a TDS provider and fewer than 90 days since the end date; otherwise raises for the provider first, then for the end date |
| `Auth.TimeLimitBoundary` | depositduck/auth/__init__.py:46-51 | 89 days is in time, 90 is not, a future end date always is |
| `Auth.ProviderCheckedFirst` | depositduck/auth/__init__.py:42-44 | a refused provider gets the same answer whatever the date |
| `AuthDependables.ValidatePassword` | depositduck/auth/dependables.py:36-45 | raises `PASSWORD_TOO_SHORT` exactly for passwords under 8 characters |
| `AuthDependables.PasswordIgnoresUser` | depositduck/auth/dependables.py:36-45 | the verdict does not depend on the user |
| `AuthDependables.GetDatabaseStrategy` | depositduck/auth/dependables.py:106-113 | tokens live 3600 seconds, the same as the auth cookie |
| `Deposit.NewTenancy` | depositduck/models/deposit.py:16-21 | a tenancy is refused exactly when the deposit is negative, otherwise it keeps its fields |
| `Deposit.DepositInGbp` | depositduck/models/deposit.py:23-25 | floor division: `100*gbp <= pence < 100*gbp + 100`, and `0 <= gbp <= pence` for a valid deposit |
| `Deposit.DaysUntilDisputeWindowEnd` | depositduck/models/deposit.py:27-29 | today plus the result is the window's end; negative exactly once the window has closed |
| `Deposit.WorkedValues` | depositduck/models/deposit.py:23-29 | 12345 pence is 123 pounds; a window closed nine days ago gives -9 |
| `FormErrors.WithError` | depositduck/forms/__init__.py:20-21 | `errors[field][exc] = value` on a defaultdict: sets that entry, creating the field, and keeps all others |
| `FormErrors.FieldClasses` | depositduck/forms/__init__.py:34-45 | a class exactly for fields with input; `is-invalid` iff the field has recorded errors, `is-valid` iff not |
| `Forms.FormFields.constructor` | depositduck/forms/__init__.py:16-18 | a new fields object holds its values and no errors |
| `Forms.FormFields.AddError` | depositduck/forms/__init__.py:20-21 | records the one error and changes nothing else |
| `Forms.ErrorsWithInput` | depositduck/forms/__init__.py:55-56 | keeps exactly the errors of fields whose input is not None, unchanged |
| `Forms.Form.constructor` | depositduck/forms/__init__.py:25-28 | the form holds the input and the fields built from it |
| `Forms.Form.CanSubmit` | depositduck/forms/__init__.py:47-50 | true iff no input is None and no error was recorded |
| `Forms.Form.GetClassesForFields` | depositduck/forms/__init__.py:34-45 | the loop builds exactly `FieldClasses` of the input and the recorded errors |
| `Forms.Form.ForTemplate` | depositduck/forms/__init__.py:52-64 | the five template keys: submittable flag, values, errors of fields with input, input, classes |
| `Forms.SubmittableMeansAllValid` | depositduck/forms/__init__.py:34-50 | a submittable form marks every field `is-valid` |
| `LegacyForms.FrontendErrorsFields` | depositduck/forms.py:31-39 | a field is reported iff it has a value and some error record is about it |
| `LegacyForms.FrontendErrorsProvenance` | depositduck/forms.py:31-39 | every reported entry is the input of a record about that field and class |
| `LegacyForms.FrontendErrorsClasses` | depositduck/forms.py:31-39 | a class is reported under a field iff the field has a value and some record is about that field and that class |
| `LegacyForms.FrontendErrorsLastWins` | depositduck/forms.py:31-39 | the reported entry for a field and class is the input of the last record about that pair |
| `LegacyForms.LegacyForm.constructor` | depositduck/forms.py:13-17 | not submittable; the values become the model dump on success, and the error records are kept on failure |
| `LegacyForms.LegacyForm.InitializeFields` | depositduck/forms.py:23-29 | success replaces the values with the dump; failure keeps the values and stores the records |
| `LegacyForms.LegacyForm.GetErrorsForFrontend` | depositduck/forms.py:31-39 | the loop over the records builds `FrontendErrors`, later records overwriting earlier ones |
| `LegacyForms.LegacyForm.GetClassesForFields` | depositduck/forms.py:41-52 | the loop builds `FieldClasses` of the values and the frontend errors |
| `LegacyForms.LegacyForm.ForTemplate` | depositduck/forms.py:54-60 | the four template keys; `can_submit` is always false |
| `LegacyForms.InvalidIffRecorded` | depositduck/forms.py:41-52 | a field with a value is `is-invalid` iff some error record is about it |
| `Validators.EmailCheck` | depositduck/forms/validators.py:16-24 | EmptyValueError iff the value is None, empty or all whitespace; otherwise InvalidEmail iff the syntax check refuses it; otherwise no error |
| `Validators.IsEmailValid` | depositduck/forms/validators.py:16-25 | records that error (if any) under `email` with the raw value, touches no other field, and returns the same object |
| `UnsuitableProspectFunnel.ProviderNameCheck` | depositduck/auth/forms/unsuitable_prospect_funnel.py:20-29 | EmptyValueError iff the provider name is None, empty or all whitespace |
| `UnsuitableProspectFunnel.ProviderNameIsValid` | depositduck/auth/forms/unsuitable_prospect_funnel.py:20-29 | records that error under `provider_name` and returns the same object |
| `UnsuitableProspectFunnel.FunnelErrors` | depositduck/auth/forms/unsuitable_prospect_funnel.py:14-29 | errors only under `email` and `provider_name`, each depending on its own field, at most one per field, holding the input |
| `UnsuitableProspectFunnel.NewUnsuitableProspectFormFields` | depositduck/auth/forms/unsuitable_prospect_funnel.py:14-29 | building the fields runs both validators: the values as given, the errors `FunnelErrors` |
| `UnsuitableProspectFunnel.NewUnsuitableProspectForm` | depositduck/auth/forms/unsuitable_prospect_funnel.py:14-34 | fails (pydantic's `ValidationError`) iff `email` or `provider_name` is missing or not `str \| None`, naming exactly those fields; otherwise the form keeps the whole input, its fields hold the two values and carry `FunnelErrors` |
| `UnsuitableProspectFunnel.FunnelErrorFree` | depositduck/auth/forms/unsuitable_prospect_funnel.py:14-29 | no error iff the email is non-blank and well formed and the provider name is non-blank |
| `Text.Strip` | depositduck/dashboard/forms.py:41 | `str.strip()`/`trim()`: a middle slice with no whitespace at either end; empty iff the input is blank |
| `DashboardForms.CheckName` | depositduck/dashboard/forms.py:32-41 | None or "" gives EmptyStringError; a character outside the class gives InvalidCharError; otherwise the stripped name |
| `DashboardForms.NameIsValidAsWritten` | depositduck/dashboard/forms.py:38 | accepts exactly the non-empty names made of the class as written |
| `DashboardForms.NameIsValid` | depositduck/dashboard/forms.py:32-41 | accepts exactly the non-empty names made of the corrected class |
| `DashboardForms.SorenRefusedAsWritten` | depositduck/dashboard/forms.py:38-40 | "Søren" is refused as written and accepted once corrected |
| `DashboardForms.LatinLettersAccepted` | depositduck/dashboard/forms.py:37-38 | the corrected class takes every Latin-1 and Latin Extended-A letter (all of U+00C0-U+017E except × and ÷) |
| `DashboardForms.CorrectionAddsOnlyOSlash` | depositduck/dashboard/forms.py:38 | the correction adds Ø and ø and nothing else |
| `DashboardForms.BlankNameBecomesEmpty` | depositduck/dashboard/forms.py:35-41 | a non-empty all-whitespace name passes and comes back as "" |
| `DashboardForms.DepositAmountIsValid` | depositduck/dashboard/forms.py:43-50 | None or 0 gives EmptyStringError, any other amount under 100 gives DepositTooSmall, 100 or more is returned unchanged |
| `Js.ToNumber` | depositduck/web/static/src/js/dashboard/welcome.js:77 | null is 0, undefined is NaN, a number is itself |
| `Js.StringToNumber` | depositduck/web/static/src/js/dashboard/welcome.js:81 | a blank string is 0 |
| `Js.NewDate` | depositduck/web/static/src/js/dashboard/welcome.js:93 | a string is parsed, null is the epoch, undefined is NaN |
| `Js.DaysBetweenDates` | depositduck/web/static/src/js/dashboard/welcome.js:79-85 | NaN iff either date is NaN; otherwise the floor of the difference in days |
| `Js.NegativeDaysIffEarlier` | depositduck/web/static/src/js/dashboard/welcome.js:105-109 | the day count is negative iff the second date is earlier |
| `Js.DateStringIsNaN` | depositduck/web/static/src/js/dashboard/welcome.js:105-107 | `Number("2024-06-30")` is NaN |
| `JsNames.NormaliseNameShape` | depositduck/web/static/src/js/dashboard/welcome.js:67 | the stored name has single spaces only, no whitespace at either end, and every other character of the input in order |
| `JsWords.NormaliseAsWords` | depositduck/web/static/src/js/dashboard/welcome.js:67 | the clean-up yields the input's whitespace-separated words joined by single spaces |
| `JsWords.WordsAreWords` | depositduck/web/static/src/js/dashboard/welcome.js:67 | each of those words is non-empty and holds no whitespace |
| `JsNames.NormaliseIdempotent` | depositduck/web/static/src/js/dashboard/welcome.js:67 | normalising twice is normalising once |
| `JsNames.NormalisedNameValid` | depositduck/web/static/src/js/dashboard/welcome.js:66-70 | the pattern passes iff the input is not blank and every character is a letter, whitespace, `'` or `-` |
| `Welcome.AfterValidateName` | depositduck/web/static/src/js/dashboard/welcome.js:61-71 | a falsy name changes nothing; otherwise the name is normalised and `isInvalid` is the failed test; nothing else changes |
| `Welcome.AfterValidateDepositAmount` | depositduck/web/static/src/js/dashboard/welcome.js:72-78 | a falsy amount changes nothing; otherwise `tooSmall` is "below 100"; nothing else changes |
| `Welcome.WithEndDateChecks` | depositduck/web/static/src/js/dashboard/welcome.js:92-99 | `overSixMonthsAway` iff more than 180 days remain, `outsideDisputeWindow` iff fewer than -90, never both; other flags kept |
| `Welcome.WithOrderChecks` | depositduck/web/static/src/js/dashboard/welcome.js:109-114 | both date fields get wrong-order iff the length is negative and too-short iff it is 1-29 days; never both |
| `Welcome.AfterValidateTenancyDates` | depositduck/web/static/src/js/dashboard/welcome.js:90-115 | as written: only the date flags change, with the length measured to the factory's argument |
| `Welcome.IntendedAfterValidateTenancyDates` | depositduck/web/static/src/js/dashboard/welcome.js:105-114 | the length measured to the entered end date; only the date flags change |
| `Welcome.AfterValidateFields` | depositduck/web/static/src/js/dashboard/welcome.js:116-120 | the three validations in order keep the state well formed |
| `Welcome.OnboardingFormState.constructor` | depositduck/web/static/src/js/dashboard/welcome.js:6-30 | the four values as given (any name but a non-zero number), every flag false, not submittable |
| `Welcome.OnboardingFormState.FieldHasErrors` | depositduck/web/static/src/js/dashboard/welcome.js:31-35 | true iff some flag of the field is true |
| `Welcome.OnboardingFormState.FormHasErrors` | depositduck/web/static/src/js/dashboard/welcome.js:36-45 | the loop returns true iff some field has a flag set |
| `Welcome.OnboardingFormState.ValidationClassForField` | depositduck/web/static/src/js/dashboard/welcome.js:46-52 | "" for a falsy value, otherwise `is-invalid` iff a flag is set and `is-valid` iff none is |
| `Welcome.OnboardingFormState.AllRequiredFieldsHaveValues` | depositduck/web/static/src/js/dashboard/welcome.js:53-60 | true iff no value is `''` or null |
| `Welcome.OnboardingFormState.ValidateName` | depositduck/web/static/src/js/dashboard/welcome.js:61-71 | the new state is `AfterValidateName` of the old |
| `Welcome.OnboardingFormState.ValidateDepositAmount` | depositduck/web/static/src/js/dashboard/welcome.js:72-78 | the new state is `AfterValidateDepositAmount` of the old |
| `Welcome.OnboardingFormState.EndDateIsInPast` | depositduck/web/static/src/js/dashboard/welcome.js:86-89 | true iff the end date parses and is before now |
| `Welcome.OnboardingFormState.ValidateTenancyDates` | depositduck/web/static/src/js/dashboard/welcome.js:90-115 | the new state is `AfterValidateTenancyDates` of the old |
| `Welcome.OnboardingFormState.ValidateForm` | depositduck/web/static/src/js/dashboard/welcome.js:116-123 | runs the three validations; submittable iff no value is empty and no flag is set |
| `Welcome.SubmittableNameIsValid` | depositduck/web/static/src/js/dashboard/welcome.js:116-122 | a submittable form's name, as typed, is not blank and has only letters, whitespace, `'` and `-` |
| `Welcome.SubmittableDepositIsLargeEnough` | depositduck/web/static/src/js/dashboard/welcome.js:72-78 | a submittable form's numeric amount is at least 100 or exactly 0 |
| `Welcome.OverSixMonthsAwayBoundary` | depositduck/web/static/src/js/dashboard/welcome.js:90-97 | `overSixMonthsAway` iff the end is at least 181 days of milliseconds ahead; `outsideDisputeWindow` iff it is more than 90 days of milliseconds past |
| `Welcome.IntendedOrderCheck` | depositduck/web/static/src/js/dashboard/welcome.js:105-111 | corrected: wrong order iff both dates parse and the end is before the start, on both fields alike |
| `Welcome.DateStringArgumentDisablesOrderCheck` | depositduck/web/static/src/js/dashboard/welcome.js:105-114 | as written, with a date string as the factory argument, the order and length flags are never set |
| `Welcome.WrongOrderMissedAsWritten` | depositduck/web/static/src/js/dashboard/welcome.js:105-111 | start 2024-06-01 and end 2024-05-01: missed as written, flagged when corrected |
| `LegacyWelcome.TooShortAsWritten` | depositduck/web/static/js/auth/welcome.js:67 | `(0 > gap && gap < 30)` is just `gap < 0` |
| `LegacyWelcome.LegacyOnboardingFormState.constructor` | depositduck/web/static/js/auth/welcome.js:6-20 | empty fields except the end date (the argument, or `''` when falsy), all flags false, not submittable |
| `LegacyWelcome.LegacyOnboardingFormState.HasErrors` | depositduck/web/static/js/auth/welcome.js:21-24 | the result is falsy whatever the flags |
| `LegacyWelcome.LegacyOnboardingFormState.AllRequiredFieldsHaveValues` | depositduck/web/static/js/auth/welcome.js:25-29 | always false: it tests property names, none of which is `''` |
| `LegacyWelcome.AfterValidateName` | depositduck/web/static/js/auth/welcome.js:30-41 | an empty name changes nothing; otherwise the name is normalised and `nameIsInvalid` is the failed test; nothing else changes |
| `LegacyWelcome.AfterValidateDepositAmount` | depositduck/web/static/js/auth/welcome.js:42-48 | a falsy amount changes nothing; otherwise `depositAmountTooSmall` is "below 100"; nothing else changes |
| `LegacyWelcome.AfterValidateTenancyDates` | depositduck/web/static/js/auth/welcome.js:56-68 | no start date changes nothing; otherwise wrong-order is "gap < 0" and too-short always equals it; the name and deposit flags are kept |
| `LegacyWelcome.AfterValidateFields` | depositduck/web/static/js/auth/welcome.js:69-74 | the three validations in order keep the state well formed and keep too-short equal to wrong-order |
| `LegacyWelcome.LegacyOnboardingFormState.ValidateName` | depositduck/web/static/js/auth/welcome.js:30-41 | the new state is `AfterValidateName` of the old |
| `LegacyWelcome.LegacyOnboardingFormState.ValidateDepositAmount` | depositduck/web/static/js/auth/welcome.js:42-48 | the new state is `AfterValidateDepositAmount` of the old |
| `LegacyWelcome.LegacyOnboardingFormState.ValidateTenancyDates` | depositduck/web/static/js/auth/welcome.js:56-68 | the new state is `AfterValidateTenancyDates` of the old |
| `LegacyWelcome.LegacyOnboardingFormState.ValidateForm` | depositduck/web/static/js/auth/welcome.js:69-77 | the new state is `AfterValidateFields` of the old, and `canSubmitForm` is false after every call |
| `LegacyWelcome.TooShortMisreported` | depositduck/web/static/js/auth/welcome.js:66-67 | a reversed tenancy is also "too short", and a 1-29 day one is not; the newer flags tell them apart |

## Left out

- Routing, the database, sessions, email sending and the LLM and embedding calls are not
  part of this model. The request is reduced to its base URL and URL strings, and the
  logged-in user to an optional record.
- The embedding pipeline the application is built for has no code beyond a network
  wrapper, so there is nothing in it to model.
- `HTTPException`s are values of `Outcome`; FastAPI's handling of them is not modelled.
- `Auth.Lower`: lowers A-Z only. Python lowers every cased character, but no other
  character lowers to t, d or s, so the comparison with "tds" is unaffected.
- `Auth.IsProspectAcceptable`: takes the days since the end date as a parameter instead of
  reading the clock. The end-date message's text (`str(date)`) is not modelled; the
  rejection keeps the date itself.
- `Deposit.NewTenancy`: pydantic's strict-int and date parsing and the UUID type are not
  modelled. Dates are day numbers and the user id is a string.
- `send_verification_email` and the `UserManager` hooks only log or send mail, so they are
  left out.
- `LegacyForms.LegacyForm.GetErrorsForFrontend`: each pydantic error record is reduced to
  its field, error class and input. A record with an empty `loc` or without
  `ctx["error"]` would raise in the source; such records are not modelled.
- `Validators.EmailCheck`: `validate_email` is a parameter. Its normalisation of the
  address and its specific exceptions are not modelled.
- `DashboardForms.DepositAmountIsValid`: pydantic's `PositiveInt` check, which runs first,
  is not modelled. The validator sees whatever value reaches it.
- `Js.StringToNumber`: exact for blank strings and signed runs of decimal digits. Strings
  holding fractions, exponents, hexadecimal, octal or binary literals, or `Infinity`,
  become NaN here, whereas JavaScript gives a number. Numbers in general are integers or
  NaN.
- `Js.NewDate`: `Date.parse` is a parameter, and so is the current time.
- `console.log` calls in both `welcome.js` files are left out.
- The Alpine.js bindings that write the fields between method calls are left out.
- `Welcome.OnboardingFormState.constructor`: a non-zero number is not accepted as the
  name. `validateName` would call `.replace` on it and throw a `TypeError`, and exceptions
  are not modelled.
- `UnsuitableProspectFunnel.NewUnsuitableProspectForm`: an input key named `errors`
  would be validated as the fields' own `errors` attribute; the model ignores it like
  any other extra key.
- `Welcome.OnboardingFormState.ValidationClassForField`: field names are a datatype, so a
  name that is not one of the four fields cannot be passed. The source returns `''` for
  such a name.
- The order in which `for ... in` visits the error map is not modelled. `formHasErrors`'s
  answer does not depend on it.

## Findings

| source | as written | input that shows it | evidently intended | confidence | as-written member | corrected member |
|---|---|---|---|---|---|---|
| depositduck/dashboard/forms.py:38 | the name class has the ranges `Ù-ö` and `ù-ÿ`, which skip Ø (U+00D8) and ø (U+00F8) | the name "Søren" raises InvalidCharError | `Ø-ö` and `ø-ÿ`: every Latin-1 letter accepted | not executed | `DashboardForms.SorenRefusedAsWritten` | `DashboardForms.NameIsValid` |
| depositduck/web/static/src/js/dashboard/welcome.js:105-107 | the tenancy length is measured to `tenancyEndDate`, which outside the block of line 93 is the factory's parameter, not the entered end date | created with "2024-06-30"; start 2024-06-01 and end 2024-05-01 entered; no flag is set | measure the length to `new Date(this.fields.tenancyEndDate)` | not executed | `Welcome.WrongOrderMissedAsWritten` | `Welcome.IntendedOrderCheck` |
| depositduck/web/static/js/auth/welcome.js:21-29 | `hasErrors` returns nothing; `allRequiredFieldsHaveValues` tests the property names instead of the values, and returns true when one is empty rather than when none is; so `canSubmitForm` is always false | any filled-in form with no flags set | submittable when every value is present and no flag is set | not executed | `LegacyWelcome.LegacyOnboardingFormState.ValidateForm` | `Welcome.OnboardingFormState.ValidateForm` |
| depositduck/web/static/js/auth/welcome.js:67 | `tenancyIsTooShort = (0 > gap && gap < 30)` | a gap of 7 days is not flagged; a gap of -3 days is flagged as too short | `0 < gap && gap < 30` | not executed | `LegacyWelcome.TooShortMisreported` | `Welcome.WithOrderChecks` |
