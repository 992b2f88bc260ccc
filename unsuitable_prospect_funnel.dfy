/**
 * The form a prospect fills in when DepositDuck cannot take them on yet: an
 * email address and the name of their deposit provider.
 */
module UnsuitableProspectFunnel {
  import opened Wrappers
  import opened FormErrors
  import opened Validators
  import Forms

  const EMAIL: string := "email"
  const PROVIDER_NAME: string := "provider_name"

  /** The error class `provider_name_is_valid` records, if any. */
  function ProviderNameCheck(providerName: FieldValue): (r: Option<string>)
    ensures r == Some(Forms.EMPTY_VALUE_ERROR) <==> IsBlankInput(providerName)
    ensures r == None <==> !IsBlankInput(providerName)
  {
    if IsBlankInput(providerName) then Some(Forms.EMPTY_VALUE_ERROR) else None
  }

  /** `UnsuitableProspectFormFields.provider_name_is_valid`: records
      EmptyValueError under `provider_name` for a blank name, changes nothing
      otherwise, and returns the same object. */
  method ProviderNameIsValid(self: Forms.FormFields) returns (r: Forms.FormFields)
    requires PROVIDER_NAME in self.values && IsText(self.values[PROVIDER_NAME])
    modifies self
    ensures r == self && self.values == old(self.values)
    ensures self.errors == Recorded(old(self.errors), PROVIDER_NAME, ProviderNameCheck(self.values[PROVIDER_NAME]), self.values[PROVIDER_NAME])
  {
    var providerName := self.values[PROVIDER_NAME];
    if IsBlankInput(providerName) {
      self.AddError(PROVIDER_NAME, Forms.EMPTY_VALUE_ERROR, providerName);
    }
    r := self;
  }

  /** The errors both validators leave on a fresh fields object. Each field's
      entry depends on that field alone, and holds at most one error, with the
      raw input. */
  function FunnelErrors(email: FieldValue, providerName: FieldValue, validateEmail: string -> bool): (errors: ErrorMap)
    requires IsText(email)
    ensures errors.Keys <= {EMAIL, PROVIDER_NAME}
    ensures EMAIL in errors <==> EmailCheck(email, validateEmail).Some?
    ensures EMAIL in errors ==> errors[EMAIL] == map[EmailCheck(email, validateEmail).value := email]
    ensures PROVIDER_NAME in errors <==> IsBlankInput(providerName)
    ensures PROVIDER_NAME in errors ==> errors[PROVIDER_NAME] == map[Forms.EMPTY_VALUE_ERROR := providerName]
  {
    var afterEmail := Recorded(map[], EMAIL, EmailCheck(email, validateEmail), email);
    Recorded(afterEmail, PROVIDER_NAME, ProviderNameCheck(providerName), providerName)
  }

  /** Constructing `UnsuitableProspectFormFields` from the two values: both
      after-validators run on the new object. */
  method NewUnsuitableProspectFormFields(email: FieldValue, providerName: FieldValue, validateEmail: string -> bool)
    returns (fields: Forms.FormFields)
    requires IsText(email) && IsText(providerName)
    ensures fresh(fields)
    ensures fields.values == map[EMAIL := email, PROVIDER_NAME := providerName]
    ensures fields.errors == FunnelErrors(email, providerName, validateEmail)
  {
    fields := new Forms.FormFields(map[EMAIL := email, PROVIDER_NAME := providerName]);
    fields := IsEmailValid(fields, validateEmail);
    fields := ProviderNameIsValid(fields);
  }

  /** A field pydantic rejects before any validator runs: it is absent, or
      its value is neither a string nor None. */
  predicate Rejected(userInput: map<string, FieldValue>, field: string) {
    field !in userInput || !IsText(userInput[field])
  }

  /** `UnsuitableProspectForm(**user_input)`: when a field is missing or of
      the wrong type the fields class raises `ValidationError`, reported here
      as the set of rejected fields; otherwise the form keeps the whole input
      and its fields are built from the two values, other keys being ignored. */
  method NewUnsuitableProspectForm(userInput: map<string, FieldValue>, validateEmail: string -> bool)
    returns (result: Result<Forms.Form, set<string>>)
    ensures result.Failure? <==> Rejected(userInput, EMAIL) || Rejected(userInput, PROVIDER_NAME)
    ensures result.Failure? ==>
              result.error <= {EMAIL, PROVIDER_NAME} &&
              (EMAIL in result.error <==> Rejected(userInput, EMAIL)) &&
              (PROVIDER_NAME in result.error <==> Rejected(userInput, PROVIDER_NAME))
    ensures result.Success? ==>
              fresh(result.value) && fresh(result.value.fields) &&
              result.value.userInput == userInput &&
              result.value.fields.values == map[EMAIL := userInput[EMAIL], PROVIDER_NAME := userInput[PROVIDER_NAME]] &&
              result.value.fields.errors == FunnelErrors(userInput[EMAIL], userInput[PROVIDER_NAME], validateEmail)
  {
    var rejected: set<string> := {};
    if Rejected(userInput, EMAIL) {
      rejected := rejected + {EMAIL};
    }
    if Rejected(userInput, PROVIDER_NAME) {
      rejected := rejected + {PROVIDER_NAME};
    }
    if rejected != {} {
      return Failure(rejected);
    }
    var fields := NewUnsuitableProspectFormFields(userInput[EMAIL], userInput[PROVIDER_NAME], validateEmail);
    var form := new Forms.Form(userInput, fields);
    result := Success(form);
  }

  /** The funnel records no error exactly when the email is present, not
      blank and well formed, and the provider name is present and not blank. */
  lemma FunnelErrorFree(email: FieldValue, providerName: FieldValue, validateEmail: string -> bool)
    requires IsText(email)
    ensures FunnelErrors(email, providerName, validateEmail) == map[] <==>
              email.Str? && !IsBlankInput(email) && validateEmail(email.s) && !IsBlankInput(providerName)
  {
    var errors := FunnelErrors(email, providerName, validateEmail);
    if errors != map[] {
      var f :| f in errors;
    }
  }
}
