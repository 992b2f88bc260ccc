/**
 * The onboarding page's client-side form state (`onboardingFormState` in
 * the dashboard's `welcome.js`): the four field values, a map of boolean
 * error flags per field, and whether the form may be submitted.
 *
 * The current time (`new Date()`) is the parameter `now`, in milliseconds;
 * `Date.parse` is `parseDate`; `\p{L}` is `isLetter`.
 */
module Welcome {
  import opened Text
  import opened Js
  import opened JsNames

  /** The properties of `fields` and of `errors`. */
  datatype Field = Name | DepositAmount | TenancyStartDate | TenancyEndDate

  /** The properties of one field's entry in `errors`. */
  datatype Flag = IsInvalid | TooSmall | DatesInWrongOrder | IsTooShort | OverSixMonthsAway | OutsideDisputeWindow

  const MINIMUM_DEPOSIT_AMOUNT: int := 100
  const MAX_DAYS_UNTIL_END: int := 180
  const MIN_DAYS_UNTIL_END: int := -90
  const MIN_TENANCY_DAYS: int := 30

  type Flags = map<Flag, bool>

  const INITIAL_ERRORS: map<Field, Flags> := map[
    Name := map[IsInvalid := false],
    DepositAmount := map[TooSmall := false],
    TenancyStartDate := map[DatesInWrongOrder := false],
    TenancyEndDate := map[DatesInWrongOrder := false, IsTooShort := false,
                          OverSixMonthsAway := false, OutsideDisputeWindow := false]]

  /** The fields and error flags at one moment. */
  datatype State = State(fields: map<Field, Value>, errors: map<Field, Flags>)

  /** Both maps have exactly the four fields, and the name is not a truthy
      number (`validateName` calls a string method on every truthy name). */
  predicate WellFormed(st: State) {
    HasEveryField(st.fields) && HasEveryField(st.errors) && !TruthyNumber(st.fields[Name])
  }

  /** A number other than 0, on which a string method throws. */
  predicate TruthyNumber(v: Value) {
    v.Number? && v.n != 0
  }

  predicate HasEveryField<T>(m: map<Field, T>) {
    forall f: Field :: f in m
  }

  /** A map with the four fields as keys has every field. */
  lemma FourFields<T>(m: map<Field, T>)
    requires Name in m && DepositAmount in m && TenancyStartDate in m && TenancyEndDate in m
    ensures HasEveryField(m)
  {
    forall f: Field ensures f in m {
      match f
      case Name =>
      case DepositAmount =>
      case TenancyStartDate =>
      case TenancyEndDate =>
    }
  }

  /** `Object.values(flags).some((value) => value === true)`. */
  predicate AnyFlagSet(flags: Flags) {
    exists k :: k in flags && flags[k]
  }

  /** The state after `validateName`: nothing happens to a falsy name;
      otherwise the name is normalised and `isInvalid` records whether the
      normalised name fails the pattern. */
  function AfterValidateName(st: State, isLetter: char -> bool): (r: State)
    requires WellFormed(st)
    ensures WellFormed(r)
    ensures !Truthy(st.fields[Name]) ==> r == st
    ensures Truthy(st.fields[Name]) ==>
              r.fields[Name] == Str(NormaliseName(st.fields[Name].s)) &&
              IsInvalid in r.errors[Name] && r.errors[Name][IsInvalid] == !NamePatternTest(NormaliseName(st.fields[Name].s), isLetter)
    ensures r.fields == st.fields[Name := r.fields[Name]] && r.errors == st.errors[Name := r.errors[Name]]
  {
    var name := st.fields[Name];
    if !Truthy(name) then st
    else
      var normalised := NormaliseName(name.s);
      State(st.fields[Name := Str(normalised)],
            st.errors[Name := st.errors[Name][IsInvalid := !NamePatternTest(normalised, isLetter)]])
  }

  /** The state after `validateDepositAmount`: nothing happens to a falsy
      amount; otherwise `tooSmall` records whether it is below 100. */
  function AfterValidateDepositAmount(st: State): (r: State)
    requires WellFormed(st)
    ensures WellFormed(r) && r.fields == st.fields
    ensures !Truthy(st.fields[DepositAmount]) ==> r == st
    ensures Truthy(st.fields[DepositAmount]) ==>
              TooSmall in r.errors[DepositAmount] && r.errors[DepositAmount][TooSmall] == Less(ToNumber(st.fields[DepositAmount]), MINIMUM_DEPOSIT_AMOUNT)
    ensures r.errors == st.errors[DepositAmount := r.errors[DepositAmount]]
  {
    var amount := st.fields[DepositAmount];
    if !Truthy(amount) then st
    else State(st.fields, st.errors[DepositAmount := st.errors[DepositAmount][TooSmall := Less(ToNumber(amount), MINIMUM_DEPOSIT_AMOUNT)]])
  }

  /** The end date's distance from today, as flags: more than 180 days
      ahead, or more than 90 days past. */
  function WithEndDateChecks(errors: map<Field, Flags>, daysUntilEnd: Num): (r: map<Field, Flags>)
    requires TenancyEndDate in errors
    ensures TenancyEndDate in r && r == errors[TenancyEndDate := r[TenancyEndDate]]
    ensures OverSixMonthsAway in r[TenancyEndDate] && OutsideDisputeWindow in r[TenancyEndDate]
    ensures r[TenancyEndDate][OverSixMonthsAway] <==> daysUntilEnd.Int? && daysUntilEnd.v > MAX_DAYS_UNTIL_END
    ensures r[TenancyEndDate][OutsideDisputeWindow] <==> daysUntilEnd.Int? && daysUntilEnd.v < MIN_DAYS_UNTIL_END
    ensures !(r[TenancyEndDate][OverSixMonthsAway] && r[TenancyEndDate][OutsideDisputeWindow])
    ensures forall k :: k in errors[TenancyEndDate] && k != OverSixMonthsAway && k != OutsideDisputeWindow ==>
              k in r[TenancyEndDate] && r[TenancyEndDate][k] == errors[TenancyEndDate][k]
  {
    errors[TenancyEndDate := errors[TenancyEndDate]
      [OverSixMonthsAway := Greater(daysUntilEnd, MAX_DAYS_UNTIL_END)]
      [OutsideDisputeWindow := Less(daysUntilEnd, MIN_DAYS_UNTIL_END)]]
  }

  /** The tenancy's length, as the same two flags on both date fields: in
      the wrong order when negative, too short when between 1 and 29 days;
      never both. */
  function WithOrderChecks(errors: map<Field, Flags>, tenancyLength: Num): (r: map<Field, Flags>)
    requires TenancyStartDate in errors && TenancyEndDate in errors
    ensures TenancyStartDate in r && TenancyEndDate in r
    ensures r == errors[TenancyStartDate := r[TenancyStartDate]][TenancyEndDate := r[TenancyEndDate]]
    ensures forall f :: f == TenancyStartDate || f == TenancyEndDate ==>
              DatesInWrongOrder in r[f] && IsTooShort in r[f] &&
              (r[f][DatesInWrongOrder] <==> tenancyLength.Int? && tenancyLength.v < 0) &&
              (r[f][IsTooShort] <==> tenancyLength.Int? && 0 < tenancyLength.v < MIN_TENANCY_DAYS) &&
              !(r[f][DatesInWrongOrder] && r[f][IsTooShort])
  {
    var wrongOrder := Less(tenancyLength, 0);
    var tooShort := Greater(tenancyLength, 0) && Less(tenancyLength, MIN_TENANCY_DAYS);
    var e := errors[TenancyStartDate := errors[TenancyStartDate][DatesInWrongOrder := wrongOrder][IsTooShort := tooShort]];
    e[TenancyEndDate := e[TenancyEndDate][DatesInWrongOrder := wrongOrder][IsTooShort := tooShort]]
  }

  /** The state after `validateTenancyDates` as written. With an end date,
      the distance from today to it is checked. With both dates, the
      length is measured from the start date to `endDateArgument`, the
      value the form state was created with: the `tenancyEndDate` that
      line 107 names is the factory's parameter, because the constant of
      that name declared on line 93 is out of scope there. */
  function AfterValidateTenancyDates(st: State, endDateArgument: Value, now: int, parseDate: string -> Num): (r: State)
    requires WellFormed(st)
    ensures WellFormed(r) && r.fields == st.fields
    ensures r.errors[Name] == st.errors[Name] && r.errors[DepositAmount] == st.errors[DepositAmount]
  {
    var start := st.fields[TenancyStartDate];
    var end := st.fields[TenancyEndDate];
    var e := if Truthy(end) then WithEndDateChecks(st.errors, DaysBetweenDates(Int(now), NewDate(end, parseDate))) else st.errors;
    if !Truthy(start) || !Truthy(end) then State(st.fields, e)
    else State(st.fields, WithOrderChecks(e, DaysBetweenDates(NewDate(start, parseDate), ToNumber(endDateArgument))))
  }

  /** The same step with the length measured to the end date the user
      entered, as the flags' names say it should be. */
  function IntendedAfterValidateTenancyDates(st: State, now: int, parseDate: string -> Num): (r: State)
    requires WellFormed(st)
    ensures WellFormed(r) && r.fields == st.fields
    ensures r.errors[Name] == st.errors[Name] && r.errors[DepositAmount] == st.errors[DepositAmount]
  {
    var start := st.fields[TenancyStartDate];
    var end := st.fields[TenancyEndDate];
    var e := if Truthy(end) then WithEndDateChecks(st.errors, DaysBetweenDates(Int(now), NewDate(end, parseDate))) else st.errors;
    if !Truthy(start) || !Truthy(end) then State(st.fields, e)
    else State(st.fields, WithOrderChecks(e, DaysBetweenDates(NewDate(start, parseDate), NewDate(end, parseDate))))
  }

  /** The three validation steps of `validateForm`, in order. */
  function AfterValidateFields(st: State, endDateArgument: Value, now: int, parseDate: string -> Num, isLetter: char -> bool): (r: State)
    requires WellFormed(st)
    ensures WellFormed(r)
  {
    AfterValidateTenancyDates(AfterValidateDepositAmount(AfterValidateName(st, isLetter)), endDateArgument, now, parseDate)
  }

  /** `allRequiredFieldsHaveValues`: no field value is `''` or null. */
  predicate NoEmptyValue(fields: map<Field, Value>) {
    forall f :: f in fields ==> fields[f] != Str("") && fields[f] != Null
  }

  /** Some field has a flag set. */
  predicate AnyFieldFlagged(errors: map<Field, Flags>) {
    exists f :: f in errors && AnyFlagSet(errors[f])
  }

  class OnboardingFormState {
    var fields: map<Field, Value>
    var errors: map<Field, Flags>
    var canSubmitForm: bool
    /** The factory's `tenancyEndDate` argument, which the returned object's
        methods can still see. */
    const tenancyEndDateArgument: Value

    ghost predicate Valid()
      reads this
    {
      WellFormed(State(fields, errors))
    }

    function Snapshot(): State
      reads this
    {
      State(fields, errors)
    }

    /** `onboardingFormState(name, depositAmount, tenancyStartDate,
        tenancyEndDate)`. */
    constructor(name: Value, depositAmount: Value, tenancyStartDate: Value, tenancyEndDate: Value)
      requires !TruthyNumber(name)
      ensures Valid()
      ensures fields == map[Name := name, DepositAmount := depositAmount,
                            TenancyStartDate := tenancyStartDate, TenancyEndDate := tenancyEndDate]
      ensures errors == INITIAL_ERRORS
      ensures !canSubmitForm && tenancyEndDateArgument == tenancyEndDate
    {
      fields := map[Name := name, DepositAmount := depositAmount,
                    TenancyStartDate := tenancyStartDate, TenancyEndDate := tenancyEndDate];
      errors := INITIAL_ERRORS;
      canSubmitForm := false;
      tenancyEndDateArgument := tenancyEndDate;
      new;
      FourFields(fields);
      FourFields(errors);
    }

    /** `fieldHasErrors(fieldName)`; a name with no entry in `errors` would
        throw. */
    function FieldHasErrors(fieldName: Field): (b: bool)
      reads this
      requires fieldName in errors
      ensures b <==> exists k :: k in errors[fieldName] && errors[fieldName][k]
    {
      true in errors[fieldName].Values
    }

    /** `formHasErrors`: true as soon as one field has a flag set. */
    method FormHasErrors() returns (b: bool)
      ensures b <==> AnyFieldFlagged(errors)
    {
      var remaining := errors.Keys;
      while remaining != {}
        invariant remaining <= errors.Keys
        invariant forall f :: f in errors && f !in remaining ==> !AnyFlagSet(errors[f])
        decreases |remaining|
      {
        var f :| f in remaining;
        if FieldHasErrors(f) {
          return true;
        }
        remaining := remaining - {f};
      }
      return false;
    }

    /** `validationClassForField(fieldName)`: nothing for an empty (or
        unknown) field, otherwise whether its flags are clear. */
    function ValidationClassForField(fieldName: Field): (c: string)
      reads this
      requires Valid()
      ensures c == "" <==> !(fieldName in fields && Truthy(fields[fieldName]))
      ensures c == "is-invalid" <==> fieldName in fields && Truthy(fields[fieldName]) && AnyFlagSet(errors[fieldName])
      ensures c == "is-valid" <==> fieldName in fields && Truthy(fields[fieldName]) && !AnyFlagSet(errors[fieldName])
    {
      if fieldName in fields && Truthy(fields[fieldName]) then
        if FieldHasErrors(fieldName) then "is-invalid" else "is-valid"
      else ""
    }

    /** `allRequiredFieldsHaveValues`. */
    function AllRequiredFieldsHaveValues(): (b: bool)
      reads this
      ensures b <==> NoEmptyValue(fields)
    {
      !(exists f :: f in fields && (fields[f] == Str("") || fields[f] == Null))
    }

    method ValidateName(isLetter: char -> bool)
      requires Valid()
      modifies this
      ensures Valid() && canSubmitForm == old(canSubmitForm)
      ensures Snapshot() == AfterValidateName(old(Snapshot()), isLetter)
    {
      var name := fields[Name];
      if !Truthy(name) {
        return;
      }
      var normalised := NormaliseName(name.s);
      fields := fields[Name := Str(normalised)];
      errors := errors[Name := errors[Name][IsInvalid := !NamePatternTest(normalised, isLetter)]];
    }

    method ValidateDepositAmount()
      requires Valid()
      modifies this
      ensures Valid() && canSubmitForm == old(canSubmitForm)
      ensures Snapshot() == AfterValidateDepositAmount(old(Snapshot()))
    {
      var amount := fields[DepositAmount];
      if !Truthy(amount) {
        return;
      }
      errors := errors[DepositAmount := errors[DepositAmount][TooSmall := Less(ToNumber(amount), MINIMUM_DEPOSIT_AMOUNT)]];
    }

    /** `endDateIsInPast`: the entered end date is before now. */
    function EndDateIsInPast(now: int, parseDate: string -> Num): (b: bool)
      reads this
      requires TenancyEndDate in fields
      ensures b <==> NewDate(fields[TenancyEndDate], parseDate).Int? && NewDate(fields[TenancyEndDate], parseDate).v < now
    {
      Less(Sub(NewDate(fields[TenancyEndDate], parseDate), Int(now)), 0)
    }

    method ValidateTenancyDates(now: int, parseDate: string -> Num)
      requires Valid()
      modifies this
      ensures Valid() && canSubmitForm == old(canSubmitForm)
      ensures Snapshot() == AfterValidateTenancyDates(old(Snapshot()), tenancyEndDateArgument, now, parseDate)
    {
      if Truthy(fields[TenancyEndDate]) {
        var tenancyEndDate := NewDate(fields[TenancyEndDate], parseDate);
        var daysUntilEnd := DaysBetweenDates(Int(now), tenancyEndDate);
        errors := WithEndDateChecks(errors, daysUntilEnd);
      }
      if !Truthy(fields[TenancyStartDate]) || !Truthy(fields[TenancyEndDate]) {
        return;
      }
      var tenancyLength := DaysBetweenDates(NewDate(fields[TenancyStartDate], parseDate), ToNumber(tenancyEndDateArgument));
      errors := WithOrderChecks(errors, tenancyLength);
    }

    /** `validateForm`: runs the three validations, then allows submission
        exactly when every field has a value and no flag is set. */
    method ValidateForm(now: int, parseDate: string -> Num, isLetter: char -> bool)
      requires Valid()
      modifies this
      ensures Valid()
      ensures Snapshot() == AfterValidateFields(old(Snapshot()), tenancyEndDateArgument, now, parseDate, isLetter)
      ensures canSubmitForm <==> NoEmptyValue(fields) && !AnyFieldFlagged(errors)
    {
      ValidateName(isLetter);
      ValidateDepositAmount();
      ValidateTenancyDates(now, parseDate);
      var hasValues := AllRequiredFieldsHaveValues();
      var hasErrors := FormHasErrors();
      canSubmitForm := hasValues && !hasErrors;
    }
  }

  /** A submittable form has a name that is not blank and is made only of
      letters, whitespace, `'` and `-`. */
  lemma SubmittableNameIsValid(st: State, endDateArgument: Value, now: int, parseDate: string -> Num, isLetter: char -> bool)
    requires WellFormed(st) && st.fields[Name].Str?
    requires var r := AfterValidateFields(st, endDateArgument, now, parseDate, isLetter);
             NoEmptyValue(r.fields) && !AnyFieldFlagged(r.errors)
    ensures !AllIn(st.fields[Name].s, IsJsWhitespace) && AllNameChars(st.fields[Name].s, isLetter)
  {
    var s := st.fields[Name].s;
    var r := AfterValidateFields(st, endDateArgument, now, parseDate, isLetter);
    var n := AfterValidateName(st, isLetter);
    assert r.errors[Name] == n.errors[Name];
    assert r.fields[Name] == n.fields[Name];
    assert !n.errors[Name][IsInvalid];
    NormalisedNameValid(s, isLetter);
  }

  /** A submittable form has a deposit amount of at least 100, or of
      exactly 0: zero is falsy, so `validateDepositAmount` skips it, and it is
      neither `''` nor null, so `allRequiredFieldsHaveValues` accepts it. */
  lemma SubmittableDepositIsLargeEnough(st: State, endDateArgument: Value, now: int, parseDate: string -> Num, isLetter: char -> bool)
    requires WellFormed(st) && st.fields[DepositAmount].Number?
    requires var r := AfterValidateFields(st, endDateArgument, now, parseDate, isLetter);
             NoEmptyValue(r.fields) && !AnyFieldFlagged(r.errors)
    ensures st.fields[DepositAmount].n >= MINIMUM_DEPOSIT_AMOUNT || st.fields[DepositAmount].n == 0
  {
    var r := AfterValidateFields(st, endDateArgument, now, parseDate, isLetter);
    var d := AfterValidateDepositAmount(AfterValidateName(st, isLetter));
    assert r.errors[DepositAmount] == d.errors[DepositAmount];
    if Truthy(st.fields[DepositAmount]) {
      assert TooSmall in r.errors[DepositAmount];
    }
  }

  /** With the length measured to the entered end date, the dates are
      flagged as being in the wrong order exactly when both parse and the
      end date comes before the start date. */
  lemma IntendedOrderCheck(st: State, now: int, parseDate: string -> Num)
    requires WellFormed(st) && Truthy(st.fields[TenancyStartDate]) && Truthy(st.fields[TenancyEndDate])
    ensures var start := NewDate(st.fields[TenancyStartDate], parseDate);
            var end := NewDate(st.fields[TenancyEndDate], parseDate);
            var r := IntendedAfterValidateTenancyDates(st, now, parseDate);
            r.errors[TenancyStartDate][DatesInWrongOrder] == r.errors[TenancyEndDate][DatesInWrongOrder] &&
            (r.errors[TenancyEndDate][DatesInWrongOrder] <==> start.Int? && end.Int? && end.v < start.v)
  {
    NegativeDaysIffEarlier(NewDate(st.fields[TenancyStartDate], parseDate), NewDate(st.fields[TenancyEndDate], parseDate));
  }

  /** As written, a form created with a date string as its end date never
      flags the dates as being in the wrong order, whatever dates the user
      enters: the length is measured to `Number("2024-06-30")`, which is
      NaN. */
  lemma DateStringArgumentDisablesOrderCheck(st: State, now: int, parseDate: string -> Num)
    requires WellFormed(st) && Truthy(st.fields[TenancyStartDate]) && Truthy(st.fields[TenancyEndDate])
    ensures var r := AfterValidateTenancyDates(st, Str("2024-06-30"), now, parseDate);
            !r.errors[TenancyStartDate][DatesInWrongOrder] && !r.errors[TenancyEndDate][DatesInWrongOrder] &&
            !r.errors[TenancyStartDate][IsTooShort] && !r.errors[TenancyEndDate][IsTooShort]
  {
    DateStringIsNaN();
  }

  /** The same end date and start date the wrong way round: flagged by the
      intended check, not by the one as written. */
  lemma WrongOrderMissedAsWritten(st: State, parseDate: string -> Num, now: int)
    requires WellFormed(st)
    requires st.fields[TenancyStartDate] == Str("2024-06-01") && st.fields[TenancyEndDate] == Str("2024-05-01")
    requires parseDate("2024-06-01") == Int(1717200000000) && parseDate("2024-05-01") == Int(1714521600000)
    ensures !AfterValidateTenancyDates(st, Str("2024-06-30"), now, parseDate).errors[TenancyEndDate][DatesInWrongOrder]
    ensures IntendedAfterValidateTenancyDates(st, now, parseDate).errors[TenancyEndDate][DatesInWrongOrder]
  {
    assert Truthy(st.fields[TenancyStartDate]) && Truthy(st.fields[TenancyEndDate]);
    assert NewDate(st.fields[TenancyStartDate], parseDate) == Int(1717200000000);
    assert NewDate(st.fields[TenancyEndDate], parseDate) == Int(1714521600000);
    DateStringArgumentDisablesOrderCheck(st, now, parseDate);
    IntendedOrderCheck(st, now, parseDate);
  }

  /** More than 180 days away means at least 181 whole days of
      milliseconds after now. */
  lemma OverSixMonthsAwayBoundary(st: State, endDateArgument: Value, now: int, parseDate: string -> Num)
    requires WellFormed(st) && Truthy(st.fields[TenancyEndDate])
    ensures var end := NewDate(st.fields[TenancyEndDate], parseDate);
            var r := AfterValidateTenancyDates(st, endDateArgument, now, parseDate);
            (r.errors[TenancyEndDate][OverSixMonthsAway] <==> end.Int? && end.v - now >= (MAX_DAYS_UNTIL_END + 1) * MS_IN_DAY) &&
            (r.errors[TenancyEndDate][OutsideDisputeWindow] <==> end.Int? && end.v - now < MIN_DAYS_UNTIL_END * MS_IN_DAY)
  {
    var end := NewDate(st.fields[TenancyEndDate], parseDate);
    var days := DaysBetweenDates(Int(now), end);
    if days.Int? {
      assert MS_IN_DAY * days.v <= end.v - now < MS_IN_DAY * (days.v + 1);
      if days.v > MAX_DAYS_UNTIL_END {
        assert MS_IN_DAY * days.v >= MS_IN_DAY * (MAX_DAYS_UNTIL_END + 1);
      } else {
        assert MS_IN_DAY * (days.v + 1) <= MS_IN_DAY * (MAX_DAYS_UNTIL_END + 1);
      }
      if days.v < MIN_DAYS_UNTIL_END {
        assert MS_IN_DAY * (days.v + 1) <= MS_IN_DAY * MIN_DAYS_UNTIL_END;
      } else {
        assert MS_IN_DAY * days.v >= MS_IN_DAY * MIN_DAYS_UNTIL_END;
      }
    }
  }
}
