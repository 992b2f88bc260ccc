/**
 * The shared model validator for email fields. The syntax check itself
 * (pydantic's `validate_email`) is a parameter: `validateEmail(s)` holds when
 * it accepts `s` without raising.
 */
module Validators {
  import opened Wrappers
  import opened Text
  import opened FormErrors
  import Forms

  const INVALID_EMAIL: string := "InvalidEmail"

  /** The type of a `str | None` field. */
  predicate IsText(v: FieldValue) {
    v.Null? || v.Str?
  }

  /** `not v or v == "" or re.match(r"^\s+$", v)`: None, empty, or only
      whitespace. */
  predicate IsBlankInput(v: FieldValue) {
    v.Null? || (v.Str? && AllIn(v.s, IsPyWhitespace))
  }

  /** The error class `is_email_valid` records, if any: EmptyValueError for a
      blank value, InvalidEmail for a value the syntax check refuses, none for
      a value it accepts. */
  function EmailCheck(email: FieldValue, validateEmail: string -> bool): (r: Option<string>)
    requires IsText(email)
    ensures r == Some(Forms.EMPTY_VALUE_ERROR) <==> IsBlankInput(email)
    ensures r == Some(INVALID_EMAIL) <==> !IsBlankInput(email) && !validateEmail(email.s)
    ensures r == None <==> !IsBlankInput(email) && validateEmail(email.s)
  {
    if IsBlankInput(email) then Some(Forms.EMPTY_VALUE_ERROR)
    else if !validateEmail(email.s) then Some(INVALID_EMAIL)
    else None
  }

  /** The error map after a check on `field` found `check`. */
  function Recorded(errors: ErrorMap, field: string, check: Option<string>, value: FieldValue): ErrorMap {
    if check.Some? then WithError(errors, field, check.value, value) else errors
  }

  /** `is_email_valid`, run as an after-validator on a fields object with an
      `email` field: records at most one error, under `email` only, with the
      raw value, and returns the same object. */
  method IsEmailValid(self: Forms.FormFields, validateEmail: string -> bool) returns (r: Forms.FormFields)
    requires "email" in self.values && IsText(self.values["email"])
    modifies self
    ensures r == self && self.values == old(self.values)
    ensures self.errors == Recorded(old(self.errors), "email", EmailCheck(self.values["email"], validateEmail), self.values["email"])
    ensures forall f :: f != "email" ==> (f in self.errors <==> f in old(self.errors))
    ensures forall f :: f != "email" && f in self.errors ==> self.errors[f] == old(self.errors)[f]
  {
    var email := self.values["email"];
    if IsBlankInput(email) {
      self.AddError("email", Forms.EMPTY_VALUE_ERROR, email);
    } else {
      if !validateEmail(email.s) {
        self.AddError("email", INVALID_EMAIL, email);
      }
    }
    r := self;
  }
}
