/**
 * The onboarding form's field validators: the tenant's name and the deposit
 * amount.
 */
module DashboardForms {
  import opened Wrappers
  import opened Text

  const MINIMUM_DEPOSIT_AMOUNT: int := 100

  datatype OnboardingError = EmptyStringError | InvalidCharError | DepositTooSmall

  /** The name pattern's character class as written: a-z, A-Z, À-Ö, Ù-ö,
      ù-ÿ, Ā-ž, Ḁ-ỿ, whitespace, `-` and `'`. The ranges skip Ø (U+00D8) and
      ø (U+00F8) as well as × and ÷. */
  predicate IsNameCharAsWritten(c: char) {
    'a' <= c <= 'z' || 'A' <= c <= 'Z'
    || '\U{c0}' <= c <= '\U{d6}' || '\U{d9}' <= c <= '\U{f6}' || '\U{f9}' <= c <= '\U{ff}'
    || '\U{100}' <= c <= '\U{17e}' || '\U{1e00}' <= c <= '\U{1eff}'
    || IsPyWhitespace(c) || c == '-' || c == '\''
  }

  /** The class as evidently intended: Ø-ö and ø-ÿ, so that of the Latin-1
      letters only the signs × and ÷ are left out. */
  predicate IsNameChar(c: char) {
    'a' <= c <= 'z' || 'A' <= c <= 'Z'
    || '\U{c0}' <= c <= '\U{d6}' || '\U{d8}' <= c <= '\U{f6}' || '\U{f8}' <= c <= '\U{ff}'
    || '\U{100}' <= c <= '\U{17e}' || '\U{1e00}' <= c <= '\U{1eff}'
    || IsPyWhitespace(c) || c == '-' || c == '\''
  }

  /** `name_is_valid` for a character class: None or "" raises
      EmptyStringError before any character is looked at; a character outside
      the class raises InvalidCharError; otherwise the name comes back
      stripped. */
  function CheckName(v: Option<string>, nameChar: char -> bool): (r: Result<string, OnboardingError>)
    ensures r == Failure(EmptyStringError) <==> v == None || v == Some("")
    ensures r == Failure(InvalidCharError) <==> v.Some? && v.value != "" && !AllIn(v.value, nameChar)
    ensures r.Success? <==> v.Some? && v.value != "" && AllIn(v.value, nameChar)
    ensures r.Success? ==> r.value == Strip(v.value, IsPyWhitespace)
  {
    if v.None? || v.value == "" then Failure(EmptyStringError)
    else if !AllIn(v.value, nameChar) then Failure(InvalidCharError)
    else Success(Strip(v.value, IsPyWhitespace))
  }

  /** `OnboardingFormFields.name_is_valid` as written. */
  function NameIsValidAsWritten(v: Option<string>): (r: Result<string, OnboardingError>)
    ensures r.Success? <==> v.Some? && v.value != "" && AllIn(v.value, IsNameCharAsWritten)
  {
    CheckName(v, IsNameCharAsWritten)
  }

  /** `OnboardingFormFields.name_is_valid` with the class corrected. */
  function NameIsValid(v: Option<string>): (r: Result<string, OnboardingError>)
    ensures r.Success? <==> v.Some? && v.value != "" && AllIn(v.value, IsNameChar)
  {
    CheckName(v, IsNameChar)
  }

  /** As written, the Danish and Norwegian letter ø is refused. */
  lemma SorenRefusedAsWritten()
    ensures NameIsValidAsWritten(Some("Søren")) == Failure(InvalidCharError)
    ensures NameIsValid(Some("Søren")) == Success("Søren")
  {
    assert !IsNameCharAsWritten("Søren"[1]);
    assert Strip("Søren", IsPyWhitespace) == "Søren" by {
      StripUnpadded("Søren", IsPyWhitespace);
    }
  }

  /** The corrected class takes every letter of Latin-1 and Latin Extended-A
      that the pattern's ranges were meant to cover. */
  lemma LatinLettersAccepted(c: char)
    requires '\U{c0}' <= c <= '\U{17e}' && c != '\U{d7}' && c != '\U{f7}'
    ensures IsNameChar(c)
  {
  }

  /** The corrected class only adds Ø and ø to the one as written. */
  lemma CorrectionAddsOnlyOSlash(c: char)
    ensures IsNameChar(c) <==> IsNameCharAsWritten(c) || c == '\U{d8}' || c == '\U{f8}'
  {
  }

  /** A name made only of spaces is not empty, so it passes, and comes back
      as the empty string. */
  lemma BlankNameBecomesEmpty(s: string)
    requires s != "" && AllIn(s, IsPyWhitespace)
    ensures NameIsValid(Some(s)) == Success("")
  {
  }

  /** `deposit_amount_is_valid`: None or 0 raises EmptyStringError, any other
      amount under 100 (negative ones too) raises DepositTooSmall, and 100 or
      more comes back unchanged. */
  function DepositAmountIsValid(v: Option<int>): (r: Result<int, OnboardingError>)
    ensures r == Failure(EmptyStringError) <==> v == None || v == Some(0)
    ensures r == Failure(DepositTooSmall) <==> v.Some? && v.value != 0 && v.value < MINIMUM_DEPOSIT_AMOUNT
    ensures r.Success? <==> v.Some? && v.value >= MINIMUM_DEPOSIT_AMOUNT
    ensures r.Success? ==> r.value == v.value
  {
    if v.None? || v.value == 0 then Failure(EmptyStringError)
    else if v.value < MINIMUM_DEPOSIT_AMOUNT then Failure(DepositTooSmall)
    else Success(v.value)
  }
}
