/**
 * Prospect eligibility: DepositDuck accepts a prospect only when the deposit
 * is held by TDS and the tenancy ended less than TDS' time limit ago.
 */
module Auth {
  import opened Wrappers

  datatype DepositProvider = Other | Tds {
    /** The enum member's string value. */
    function Value(): string {
      match this
      case Other => "other"
      case Tds => "tds"
    }
  }

  /** Three months. */
  const TDS_TIME_LIMIT_IN_DAYS: int := 90

  /** The auth cookie's lifetime, in seconds. */
  const AUTH_COOKIE_MAX_AGE: int := 3600

  /** A calendar date, as a day number (`date.toordinal()`). */
  type Date = int

  /** The `ValueError` that `is_prospect_acceptable` raises, by cause. */
  datatype ProspectRejection = ProviderRejected(provider: string) | EndDateRejected(tenancyEndDate: Date) {
    /** The message of a provider rejection names the provider as given. */
    function ProviderMessage(): string
      requires ProviderRejected?
    {
      "prospect unacceptable due to provider '" + provider + "'"
    }
  }

  /** `c.lower()` for the letters A-Z. */
  function AsciiLower(c: char): (l: char)
    ensures 'A' <= c <= 'Z' ==> l as int == c as int + 32
    ensures !('A' <= c <= 'Z') ==> l == c
  {
    if 'A' <= c <= 'Z' then (c as int + 32) as char else c
  }

  function Lower(s: string): (r: string)
    ensures |r| == |s|
    ensures forall i :: 0 <= i < |s| ==> r[i] == AsciiLower(s[i])
  {
    seq(|s|, i requires 0 <= i < |s| => AsciiLower(s[i]))
  }

  /** The provider test, `deposit_provider.lower() == "tds"`: any mix of cases
      of the three letters, and nothing else. */
  lemma {:induction false} TdsInAnyCase(p: string)
    ensures Lower(p) == Tds.Value() <==>
              |p| == 3 && p[0] in "tT" && p[1] in "dD" && p[2] in "sS"
  {
    if Lower(p) == Tds.Value() {
      assert Lower(p)[0] == 't' && Lower(p)[1] == 'd' && Lower(p)[2] == 's';
    }
    if |p| == 3 && p[0] in "tT" && p[1] in "dD" && p[2] in "sS" {
      assert Lower(p) == [Lower(p)[0], Lower(p)[1], Lower(p)[2]];
    }
  }

  /** `is_prospect_acceptable`, with the days since the tenancy end date (read
      from the clock by the source) given as `daysSinceEndDate`. It either
      returns True or raises: it never returns False. The provider is checked
      first, so a non-TDS prospect is refused whatever the date; a TDS prospect
      is accepted exactly when the tenancy ended fewer than 90 days ago (or
      ends in the future). */
  function IsProspectAcceptable(depositProvider: string, tenancyEndDate: Date, daysSinceEndDate: int)
    : (r: Result<bool, ProspectRejection>)
    ensures r.Success? ==> r.value
    ensures r.Success? <==> Lower(depositProvider) == Tds.Value() && daysSinceEndDate < TDS_TIME_LIMIT_IN_DAYS
    ensures Lower(depositProvider) != Tds.Value() ==> r == Failure(ProviderRejected(depositProvider))
    ensures Lower(depositProvider) == Tds.Value() && daysSinceEndDate >= TDS_TIME_LIMIT_IN_DAYS ==>
              r == Failure(EndDateRejected(tenancyEndDate))
  {
    var providerIsAccepted := Lower(depositProvider) == Tds.Value();
    if !providerIsAccepted then
      Failure(ProviderRejected(depositProvider))
    else
      var endDateIsWithinLimit := daysSinceEndDate < TDS_TIME_LIMIT_IN_DAYS;
      if !endDateIsWithinLimit then
        Failure(EndDateRejected(tenancyEndDate))
      else
        Success(providerIsAccepted && endDateIsWithinLimit)
  }

  /** The limit is strict: 89 days after the end date is still in time, 90 is
      not; a future end date is always in time. */
  lemma TimeLimitBoundary(tenancyEndDate: Date, days: int)
    ensures IsProspectAcceptable("TDS", tenancyEndDate, 89) == Success(true)
    ensures IsProspectAcceptable("tds", tenancyEndDate, 90) == Failure(EndDateRejected(tenancyEndDate))
    ensures days < 0 ==> IsProspectAcceptable("tds", tenancyEndDate, days) == Success(true)
  {
    TdsInAnyCase("TDS");
    TdsInAnyCase("tds");
  }

  /** A rejected provider is rejected without looking at the date. */
  lemma ProviderCheckedFirst(p: string, end1: Date, days1: int, end2: Date, days2: int)
    requires Lower(p) != Tds.Value()
    ensures IsProspectAcceptable(p, end1, days1) == IsProspectAcceptable(p, end2, days2)
  {
  }
}
