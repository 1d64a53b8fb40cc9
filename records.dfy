/**
 * The records the finance screens work on (Fintro/Core/Finance/Model).
 * They are plain values: the view model never changes one in place, it
 * builds a new one and hands it to the store.
 */
module Records {
  import opened Wrappers

  /** A document identifier assigned by the store. */
  type Id = string

  /**
   * A moment reduced to the calendar components the view model reads from
   * it (`Calendar.current.component(.year/.month/.day, from:)`).
   */
  datatype Date = Date(year: int, month: int, day: int)

  /** One income event. `id` is absent until the store has assigned one. */
  datatype Paycheck = Paycheck(id: Option<Id>, amount: real, date: Date, userId: Id)

  /** A one-off (variable) expense. */
  datatype Expense = Expense(id: Option<Id>, name: string, amount: real, date: Date, userId: Id)

  /** An expense that recurs on the same day of every month. */
  datatype FixedExpense = FixedExpense(id: Option<Id>, name: string, amount: real, dayOfMonth: int, userId: Id)

  /** A credit card with its manually entered debt and its two days of the month. */
  datatype CreditCard = CreditCard(
    id: Option<Id>, name: string, currentDebt: real, closingDate: int, paymentDueDate: int, userId: Id)

  /** Lexicographic order on (year, month, day): the order the store sorts dates by. */
  predicate DateAtMost(a: Date, b: Date)
  {
    a.year < b.year
    || (a.year == b.year && a.month < b.month)
    || (a.year == b.year && a.month == b.month && a.day <= b.day)
  }
}
