/**
 * The older onboarding form state (`onboardingFormState` in the auth
 * `welcome.js`): the same four fields, one flat map of error flags, and a
 * `canSubmitForm` that its two helper methods keep false.
 */
module LegacyWelcome {
  import opened Text
  import opened Js
  import opened JsNames
  import Welcome

  datatype ErrorFlag = NameIsInvalid | DepositAmountTooSmall | DatesInWrongOrder | TenancyIsTooShort

  const INITIAL_ERRORS: map<ErrorFlag, bool> := map[
    NameIsInvalid := false, DepositAmountTooSmall := false,
    DatesInWrongOrder := false, TenancyIsTooShort := false]

  /** The property name JavaScript sees for each field. */
  function PropertyName(f: Welcome.Field): (name: string)
    ensures |name| > 0
  {
    match f
    case Name => "name"
    case DepositAmount => "depositAmount"
    case TenancyStartDate => "tenancyStartDate"
    case TenancyEndDate => "tenancyEndDate"
  }

  predicate HasEveryFlag(errors: map<ErrorFlag, bool>) {
    forall k: ErrorFlag :: k in errors
  }

  /** `(0 > gap && gap < 30)`: since `0 > gap` already implies `gap < 30`,
      this is just `gap < 0`. */
  function TooShortAsWritten(gap: Num): (b: bool)
    ensures b <==> Less(gap, 0)
  {
    Less(gap, 0) && Less(gap, 30)
  }

  /** The fields and flags at one moment. */
  datatype State = State(fields: map<Welcome.Field, Value>, errors: map<ErrorFlag, bool>)

  /** All four fields and flags are present and the name is a string. */
  predicate WellFormed(st: State) {
    Welcome.HasEveryField(st.fields) && st.fields[Welcome.Name].Str? && HasEveryFlag(st.errors)
  }

  /** The state after `validateName`: an empty name is left alone; otherwise
      the name is normalised and `nameIsInvalid` records whether the result
      fails the pattern. Nothing else changes. */
  function AfterValidateName(st: State, isLetter: char -> bool): (r: State)
    requires WellFormed(st)
    ensures WellFormed(r)
    ensures st.fields[Welcome.Name] == Str("") ==> r == st
    ensures st.fields[Welcome.Name] != Str("") ==>
              r.fields[Welcome.Name] == Str(NormaliseName(st.fields[Welcome.Name].s)) &&
              r.errors[NameIsInvalid] == !NamePatternTest(NormaliseName(st.fields[Welcome.Name].s), isLetter)
    ensures r.fields == st.fields[Welcome.Name := r.fields[Welcome.Name]]
    ensures r.errors == st.errors[NameIsInvalid := r.errors[NameIsInvalid]]
  {
    var name := st.fields[Welcome.Name];
    if !Truthy(name) then st
    else
      var normalised := NormaliseName(name.s);
      State(st.fields[Welcome.Name := Str(normalised)], st.errors[NameIsInvalid := !NamePatternTest(normalised, isLetter)])
  }

  /** The state after `validateDepositAmount`: a falsy amount is left alone;
      otherwise `depositAmountTooSmall` records whether it is below 100.
      Nothing else changes. */
  function AfterValidateDepositAmount(st: State): (r: State)
    requires WellFormed(st)
    ensures WellFormed(r) && r.fields == st.fields
    ensures !Truthy(st.fields[Welcome.DepositAmount]) ==> r == st
    ensures Truthy(st.fields[Welcome.DepositAmount]) ==>
              r.errors[DepositAmountTooSmall] == Less(ToNumber(st.fields[Welcome.DepositAmount]), Welcome.MINIMUM_DEPOSIT_AMOUNT)
    ensures r.errors == st.errors[DepositAmountTooSmall := r.errors[DepositAmountTooSmall]]
  {
    var amount := st.fields[Welcome.DepositAmount];
    if !Truthy(amount) then st
    else State(st.fields, st.errors[DepositAmountTooSmall := Less(ToNumber(amount), Welcome.MINIMUM_DEPOSIT_AMOUNT)])
  }

  /** The whole-day gap from the entered start date to the end date. */
  function Gap(st: State, parseDate: string -> Num): Num
    requires WellFormed(st)
  {
    DaysBetweenDates(NewDate(st.fields[Welcome.TenancyStartDate], parseDate), NewDate(st.fields[Welcome.TenancyEndDate], parseDate))
  }

  /** The state after `validateTenancyDates`: without a start date nothing
      changes; otherwise "wrong order" records a negative gap and "too short"
      always ends up equal to it. The name and deposit flags are kept. */
  function AfterValidateTenancyDates(st: State, parseDate: string -> Num): (r: State)
    requires WellFormed(st)
    ensures WellFormed(r) && r.fields == st.fields
    ensures !Truthy(st.fields[Welcome.TenancyStartDate]) ==> r == st
    ensures Truthy(st.fields[Welcome.TenancyStartDate]) ==>
              r.errors[DatesInWrongOrder] == Less(Gap(st, parseDate), 0) &&
              r.errors[TenancyIsTooShort] == r.errors[DatesInWrongOrder]
    ensures r.errors[NameIsInvalid] == st.errors[NameIsInvalid]
    ensures r.errors[DepositAmountTooSmall] == st.errors[DepositAmountTooSmall]
  {
    if !Truthy(st.fields[Welcome.TenancyStartDate]) then st
    else
      var gap := Gap(st, parseDate);
      State(st.fields, st.errors[DatesInWrongOrder := Less(gap, 0)][TenancyIsTooShort := TooShortAsWritten(gap)])
  }

  /** The three validation steps of `validateForm`, in order. They keep
      "too short" equal to "wrong order". */
  function AfterValidateFields(st: State, parseDate: string -> Num, isLetter: char -> bool): (r: State)
    requires WellFormed(st)
    ensures WellFormed(r)
    ensures st.errors[TenancyIsTooShort] == st.errors[DatesInWrongOrder] ==>
              r.errors[TenancyIsTooShort] == r.errors[DatesInWrongOrder]
  {
    AfterValidateTenancyDates(AfterValidateDepositAmount(AfterValidateName(st, isLetter)), parseDate)
  }

  class LegacyOnboardingFormState {
    var fields: map<Welcome.Field, Value>
    var errors: map<ErrorFlag, bool>
    var canSubmitForm: bool

    /** All four fields and flags are present, the name is a string, and the
        "too short" flag always equals the "wrong order" flag. */
    ghost predicate Valid()
      reads this
    {
      WellFormed(Snapshot()) && errors[TenancyIsTooShort] == errors[DatesInWrongOrder]
    }

    function Snapshot(): State
      reads this
    {
      State(fields, errors)
    }

    /** `onboardingFormState(tenancyEndDate)`: every field starts empty
        except the end date, which is the argument unless that is falsy. */
    constructor(tenancyEndDate: Value)
      ensures Valid()
      ensures fields == map[Welcome.Name := Str(""), Welcome.DepositAmount := Null, Welcome.TenancyStartDate := Str(""),
                            Welcome.TenancyEndDate := if Truthy(tenancyEndDate) then tenancyEndDate else Str("")]
      ensures errors == INITIAL_ERRORS && !canSubmitForm
    {
      fields := map[Welcome.Name := Str(""), Welcome.DepositAmount := Null, Welcome.TenancyStartDate := Str(""),
                    Welcome.TenancyEndDate := if Truthy(tenancyEndDate) then tenancyEndDate else Str("")];
      errors := INITIAL_ERRORS;
      canSubmitForm := false;
      new;
      Welcome.FourFields(fields);
      forall k: ErrorFlag ensures k in errors {
        match k
        case NameIsInvalid =>
        case DepositAmountTooSmall =>
        case DatesInWrongOrder =>
        case TenancyIsTooShort =>
      }
    }

    /** `hasErrors()`: the flags are inspected but nothing is returned, so
        the result is undefined, which is falsy, whatever the flags say. */
    function HasErrors(): (r: Value)
      ensures !Truthy(r)
    {
      Undefined
    }

    /** `allRequiredFieldsHaveValues()`: tests the property names, not the
        values; no name is `''` (nor null), so the answer is always false. */
    function AllRequiredFieldsHaveValues(): (b: bool)
      reads this
      ensures !b
    {
      exists f :: f in fields && PropertyName(f) == ""
    }

    method ValidateName(isLetter: char -> bool)
      requires Valid()
      modifies this
      ensures Valid() && canSubmitForm == old(canSubmitForm)
      ensures Snapshot() == AfterValidateName(old(Snapshot()), isLetter)
    {
      var name := fields[Welcome.Name];
      if !Truthy(name) {
        return;
      }
      var normalised := NormaliseName(name.s);
      ghost var after := AfterValidateName(Snapshot(), isLetter);
      fields := fields[Welcome.Name := Str(normalised)];
      errors := errors[NameIsInvalid := !NamePatternTest(normalised, isLetter)];
      assert Snapshot() == after;
    }

    method ValidateDepositAmount()
      requires Valid()
      modifies this
      ensures Valid() && canSubmitForm == old(canSubmitForm)
      ensures Snapshot() == AfterValidateDepositAmount(old(Snapshot()))
    {
      if !Truthy(fields[Welcome.DepositAmount]) {
        return;
      }
      errors := errors[DepositAmountTooSmall := Less(ToNumber(fields[Welcome.DepositAmount]), Welcome.MINIMUM_DEPOSIT_AMOUNT)];
    }

    /** `validateTenancyDates`. */
    method ValidateTenancyDates(parseDate: string -> Num)
      requires Valid()
      modifies this
      ensures Valid() && canSubmitForm == old(canSubmitForm)
      ensures Snapshot() == AfterValidateTenancyDates(old(Snapshot()), parseDate)
    {
      if !Truthy(fields[Welcome.TenancyStartDate]) {
        return;
      }
      var gap := DaysBetweenDates(NewDate(fields[Welcome.TenancyStartDate], parseDate), NewDate(fields[Welcome.TenancyEndDate], parseDate));
      errors := errors[DatesInWrongOrder := Less(gap, 0)];
      errors := errors[TenancyIsTooShort := TooShortAsWritten(gap)];
    }

    /** `validateForm`: the three validations run in order, and whatever the
        fields and flags, the form can never be submitted. */
    method ValidateForm(parseDate: string -> Num, isLetter: char -> bool)
      requires Valid()
      modifies this
      ensures Valid() && !canSubmitForm
      ensures Snapshot() == AfterValidateFields(old(Snapshot()), parseDate, isLetter)
    {
      ValidateName(isLetter);
      ValidateDepositAmount();
      ValidateTenancyDates(parseDate);
      var haveValues := AllRequiredFieldsHaveValues();
      canSubmitForm := haveValues && !Truthy(HasErrors());
    }
  }

  /** The end date before the start date is flagged, but as "too short" as
      well; a tenancy of a week is not flagged at all. The newer form's
      flags tell the two apart. */
  lemma TooShortMisreported(d: int)
    requires 0 < d < Welcome.MIN_TENANCY_DAYS
    ensures TooShortAsWritten(Int(-d)) && !TooShortAsWritten(Int(d))
    ensures var newer := Welcome.WithOrderChecks(Welcome.INITIAL_ERRORS, Int(d));
            newer[Welcome.TenancyEndDate][Welcome.IsTooShort] && !newer[Welcome.TenancyEndDate][Welcome.DatesInWrongOrder]
  {
  }
}
