/**
 * A tenancy's deposit and dates, with the two values computed from them.
 */
module Deposit {
  import opened Wrappers

  /** A calendar date, as a day number (`date.toordinal()`). */
  type Date = int

  /** `TenancyBase`. `userId` stands for the owner's UUID. */
  datatype TenancyBase = TenancyBase(
    depositInP: int,
    startDate: Option<Date>,
    endDate: Date,
    disputeWindowEnd: Date,
    userId: string)

  /** The pydantic constraint violated when a tenancy is refused. */
  datatype ValidationError = DepositNotGreaterThan(limit: int, input: int)

  /** The field constraint on `deposit_in_p`: greater than -1. */
  predicate ValidDeposit(t: TenancyBase) {
    t.depositInP > -1
  }

  /** Constructing a `TenancyBase`: refused exactly when the deposit is
      negative, and otherwise holding the fields as given, `startDate` being
      None when it is left out. */
  function NewTenancy(depositInP: int, startDate: Option<Date>, endDate: Date, disputeWindowEnd: Date, userId: string)
    : (r: Result<TenancyBase, ValidationError>)
    ensures r.Success? <==> depositInP >= 0
    ensures r.Success? ==> ValidDeposit(r.value)
    ensures r.Success? ==> r.value.depositInP == depositInP && r.value.startDate == startDate
                           && r.value.endDate == endDate && r.value.disputeWindowEnd == disputeWindowEnd
                           && r.value.userId == userId
    ensures r.Failure? ==> r.error == DepositNotGreaterThan(-1, depositInP)
  {
    if depositInP > -1 then
      Success(TenancyBase(depositInP, startDate, endDate, disputeWindowEnd, userId))
    else
      Failure(DepositNotGreaterThan(-1, depositInP))
  }

  /** `deposit_in_gbp`: the whole pounds in the deposit, rounding down
      (`// 100`). For a valid tenancy it is between 0 and the pence. */
  function DepositInGbp(t: TenancyBase): (gbp: int)
    ensures 100 * gbp <= t.depositInP < 100 * gbp + 100
    ensures ValidDeposit(t) ==> 0 <= gbp <= t.depositInP
  {
    t.depositInP / 100
  }

  /** `days_until_dispute_window_end`, with today's date as a parameter: the
      signed number of days from today to the end of the dispute window,
      negative once the window has closed. */
  function DaysUntilDisputeWindowEnd(t: TenancyBase, today: Date): (days: int)
    ensures today + days == t.disputeWindowEnd
    ensures days < 0 <==> t.disputeWindowEnd < today
  {
    t.disputeWindowEnd - today
  }

  /** Worked values: 12345 pence is 123 pounds; a window that closed one day
      after an end date ten days ago is nine days past. */
  lemma WorkedValues(today: Date)
    ensures DepositInGbp(TenancyBase(12345, None, today - 10, today + 50, "")) == 123
    ensures DaysUntilDisputeWindowEnd(TenancyBase(12345, None, today - 10, today - 9, ""), today) == -9
  {
  }
}
