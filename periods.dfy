/**
 * The two semi-monthly pay periods (enum `Period`,
 * FinanceViewModel.swift:315-345). The paycheck of the 14th pays what falls
 * on days 14 to 28; the paycheck of the 29th pays everything else, wrapping
 * round the end of the month. Only the integer is examined, never whether
 * the day exists in some month.
 */
module Periods {

  datatype Period = First | Second
  {
    /** Whether an expense or payment falling on `day` is paid from this period's paycheck. */
    predicate Contains(day: int)
      ensures Contains(day) <==> (this == First <==> 14 <= day <= 28)
    {
      match this
      case First => day >= 14 && day <= 28
      case Second => day >= 29 || day <= 13
    }
  }

  /** Every integer day, in 1..31 or not, belongs to exactly one of the two periods. */
  lemma ExactlyOnePeriod(day: int)
    ensures First.Contains(day) != Second.Contains(day)
  {
  }

  /**
   * The period the view model selects at start-up for today's day of the
   * month (`setDefaultPeriod`): the one period that contains the day.
   */
  function PeriodOf(day: int): (p: Period)
    ensures p.Contains(day)
    ensures forall q: Period :: q.Contains(day) ==> q == p
    ensures p == First <==> 14 <= day <= 28
  {
    if First.Contains(day) then First else Second
  }
}
