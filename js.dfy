/**
 * The few pieces of ECMAScript value semantics the onboarding form state
 * relies on: truthiness, conversion to a number, `new Date(v)`, subtraction
 * of dates and the whole-day difference `Math.floor(ms / 86400000)`.
 *
 * Numbers are modelled as integers or NaN: every number the form deals with
 * is a time value in milliseconds or a whole deposit amount.
 */
module Js {
  import opened Text

  datatype Value = Undefined | Null | Str(s: string) | Number(n: int)

  /** A number, or NaN. */
  datatype Num = NaN | Int(v: int)

  const MS_IN_DAY: int := 1000 * 60 * 60 * 24

  /** The largest magnitude a Date's time value may have (TimeClip). */
  const MAX_TIME_VALUE: int := 8_640_000_000_000_000

  /** ToBoolean: undefined, null, "" and 0 are falsy. */
  predicate Truthy(v: Value) {
    match v
    case Undefined => false
    case Null => false
    case Str(s) => s != ""
    case Number(n) => n != 0
  }

  predicate IsDigit(c: char) {
    '0' <= c <= '9'
  }

  /** A non-empty run of decimal digits. */
  predicate IsDigits(s: string) {
    |s| > 0 && forall i :: 0 <= i < |s| ==> IsDigit(s[i])
  }

  /** The value of a string of decimal digits. */
  function DigitsValue(s: string): (n: nat)
    requires forall i :: 0 <= i < |s| ==> IsDigit(s[i])
  {
    if s == [] then 0
    else
      assert IsDigit(s[|s| - 1]);
      10 * DigitsValue(s[..|s| - 1]) + (s[|s| - 1] as int - '0' as int)
  }

  /** The decimal spelling of a natural number, as `String(n)` writes it. */
  function DecimalString(n: nat): (s: string)
    ensures IsDigits(s)
    ensures s[0] != '0' || n == 0
  {
    if n < 10 then [(n + '0' as int) as char]
    else DecimalString(n / 10) + [(n % 10 + '0' as int) as char]
  }

  /** StringToNumber: the string is trimmed of whitespace; an empty result
      is 0, a signed or unsigned run of decimal digits is its value, and
      anything else is NaN. */
  function StringToNumber(s: string): (n: Num)
    ensures AllIn(s, IsJsWhitespace) ==> n == Int(0)
  {
    var t := Strip(s, IsJsWhitespace);
    if t == [] then Int(0)
    else if IsDigits(t) then Int(DigitsValue(t))
    else if t[0] == '+' && IsDigits(t[1..]) then Int(DigitsValue(t[1..]))
    else if t[0] == '-' && IsDigits(t[1..]) then Int(0 - DigitsValue(t[1..]))
    else NaN
  }

  /** ToNumber. */
  function ToNumber(v: Value): (n: Num)
    ensures v.Null? ==> n == Int(0)
    ensures v.Undefined? ==> n == NaN
    ensures v.Number? ==> n == Int(v.n)
  {
    match v
    case Undefined => NaN
    case Null => Int(0)
    case Str(s) => StringToNumber(s)
    case Number(n) => Int(n)
  }

  /** TimeClip: a time value beyond 8.64e15 ms either way is NaN. */
  function TimeClip(n: Num): (t: Num)
    ensures t.Int? <==> n.Int? && -MAX_TIME_VALUE <= n.v <= MAX_TIME_VALUE
    ensures t.Int? ==> t == n
  {
    if n.Int? && -MAX_TIME_VALUE <= n.v <= MAX_TIME_VALUE then n else NaN
  }

  /** The time value of `new Date(v)`. A string goes through `parseDate`
      (`Date.parse`, whose accepted formats are left to the host); any other
      value through ToNumber and TimeClip. */
  function NewDate(v: Value, parseDate: string -> Num): (t: Num)
    ensures v.Str? ==> t == parseDate(v.s)
    ensures v.Null? ==> t == Int(0)
    ensures v.Undefined? ==> t == NaN
  {
    if v.Str? then parseDate(v.s) else TimeClip(ToNumber(v))
  }

  /** `a - b` on numbers. */
  function Sub(a: Num, b: Num): (r: Num)
    ensures r.Int? <==> a.Int? && b.Int?
    ensures r.Int? ==> r.v + b.v == a.v
  {
    if a.Int? && b.Int? then Int(a.v - b.v) else NaN
  }

  /** `a < b`; every comparison with NaN is false. */
  predicate Less(a: Num, b: int) {
    a.Int? && a.v < b
  }

  /** `a > b`; every comparison with NaN is false. */
  predicate Greater(a: Num, b: int) {
    a.Int? && a.v > b
  }

  /** `daysBetweenDates(date1, date2)`: the number of whole days from `date1`
      to `date2`, rounded down, or NaN when either is NaN. */
  function DaysBetweenDates(date1: Num, date2: Num): (days: Num)
    ensures days.Int? <==> date1.Int? && date2.Int?
    ensures days.Int? ==> MS_IN_DAY * days.v <= date2.v - date1.v < MS_IN_DAY * (days.v + 1)
  {
    var diff := Sub(date2, date1);
    if diff.Int? then Int(diff.v / MS_IN_DAY) else NaN
  }

  /** The day count is negative exactly when the second date is earlier. */
  lemma NegativeDaysIffEarlier(date1: Num, date2: Num)
    ensures Less(DaysBetweenDates(date1, date2), 0) <==> date1.Int? && date2.Int? && date2.v < date1.v
  {
  }

  /** The day count is positive exactly when the second date is at least a
      whole day later. */
  lemma PositiveDaysIffDayLater(date1: Num, date2: Num)
    ensures Greater(DaysBetweenDates(date1, date2), 0) <==>
              date1.Int? && date2.Int? && date2.v - date1.v >= MS_IN_DAY
  {
  }

  /** Reading a digit string back gives its value. */
  lemma {:induction false} DigitsValueOfDecimal(n: nat)
    ensures DigitsValue(DecimalString(n)) == n
  {
    if n >= 10 {
      var s := DecimalString(n);
      assert s[..|s| - 1] == DecimalString(n / 10);
      DigitsValueOfDecimal(n / 10);
    }
  }

  /** Converting `String(n)` back to a number gives `n`. */
  lemma DecimalRoundTrip(n: nat)
    ensures StringToNumber(DecimalString(n)) == Int(n)
  {
    var s := DecimalString(n);
    StripUnpadded(s, IsJsWhitespace);
    DigitsValueOfDecimal(n);
  }

  /** An ISO date string such as the ones date inputs produce is not a
      number. */
  lemma DateStringIsNaN()
    ensures ToNumber(Str("2024-06-30")) == NaN
  {
    StripUnpadded("2024-06-30", IsJsWhitespace);
    assert !IsDigit("2024-06-30"[4]);
  }
}
