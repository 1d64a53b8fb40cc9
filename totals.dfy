/**
 * The computed properties of the finance view model
 * (FinanceViewModel.swift:37-87), as functions of the record lists, the
 * selected period and today's date. They are recomputed from scratch on
 * every change of their inputs, so they are plain functions here.
 */
module Totals {
  import opened Records
  import opened Periods
  import opened Seqs

  // The filter tests and amounts, named so that every use refers to the same function value.

  function FixedDue(p: Period): FixedExpense -> bool
  {
    (e: FixedExpense) => p.Contains(e.dayOfMonth)
  }

  function CardDue(p: Period): CreditCard -> bool
  {
    (c: CreditCard) => p.Contains(c.paymentDueDate)
  }

  /** Same calendar month and year as `today`. */
  function InMonthOf(today: Date): Expense -> bool
  {
    (e: Expense) => e.date.month == today.month && e.date.year == today.year
  }

  function ExpenseDue(today: Date, p: Period): Expense -> bool
  {
    (e: Expense) => e.date.month == today.month && e.date.year == today.year && p.Contains(e.date.day)
  }

  function FixedAmount(e: FixedExpense): real { e.amount }
  function ExpenseAmount(e: Expense): real { e.amount }
  function CardDebt(c: CreditCard): real { c.currentDebt }

  function AllFixed(e: FixedExpense): bool { true }
  function AllCards(c: CreditCard): bool { true }

  /** `fixedExpensesForCurrentPeriod`: the fixed expenses whose day falls in `p`, in list order. */
  function FixedForPeriod(fixed: seq<FixedExpense>, p: Period): (r: seq<FixedExpense>)
    ensures forall e :: e in r <==> e in fixed && p.Contains(e.dayOfMonth)
  {
    Filter(fixed, FixedDue(p))
  }

  /**
   * `variableExpensesForCurrentPeriod`: the expenses dated in today's
   * calendar month and year whose day of the month falls in `p`, in list
   * order. This is a calendar-month filter, not a date range: in the
   * wrapping period it never reaches back into the previous month.
   */
  function VariableForPeriod(expenses: seq<Expense>, today: Date, p: Period): (r: seq<Expense>)
    ensures forall e :: e in r <==>
      e in expenses && e.date.year == today.year && e.date.month == today.month && p.Contains(e.date.day)
  {
    Filter(expenses, ExpenseDue(today, p))
  }

  /** The cards whose payment is due on a day of `p`, in list order. */
  function CardsDueInPeriod(cards: seq<CreditCard>, p: Period): (r: seq<CreditCard>)
    ensures forall c :: c in r <==> c in cards && p.Contains(c.paymentDueDate)
  {
    Filter(cards, CardDue(p))
  }

  /**
   * `currentPaycheckAmount`: the amount of the first paycheck of the list,
   * or 0 for none. On a list delivered newest first, as the store delivers
   * it, that is the amount of a paycheck no other paycheck is newer than.
   */
  function CurrentPaycheckAmount(paychecks: seq<Paycheck>): (r: real)
    ensures paychecks == [] ==> r == 0.0
    ensures paychecks != [] ==> r == paychecks[0].amount
    ensures NewestFirst(paychecks) && paychecks != [] ==>
      exists k :: 0 <= k < |paychecks| && r == paychecks[k].amount
        && (forall j :: 0 <= j < |paychecks| ==> DateAtMost(paychecks[j].date, paychecks[k].date))
  {
    if paychecks == [] then 0.0
    else
      assert DateAtMost(paychecks[0].date, paychecks[0].date);
      paychecks[0].amount
  }

  /**
   * `totalPeriodExpenses`: fixed plus variable expenses of the period. With
   * no negative amounts it is at least 0 and at most all fixed expenses plus
   * all expenses of today's month.
   */
  function TotalPeriodExpenses(fixed: seq<FixedExpense>, expenses: seq<Expense>, today: Date, p: Period): (r: real)
    ensures NonNegative(fixed, FixedAmount) && NonNegative(expenses, ExpenseAmount) ==>
      0.0 <= r <= Sum(fixed, FixedAmount) + Sum(Filter(expenses, InMonthOf(today)), ExpenseAmount)
  {
    FilteredSumBounds(fixed, FixedDue(p), FixedAmount);
    VariableWithinMonth(expenses, today, p);
    Sum(FixedForPeriod(fixed, p), FixedAmount) + Sum(VariableForPeriod(expenses, today, p), ExpenseAmount)
  }

  /**
   * `totalCreditCardDebt`: the debt of the cards due in the period; 0 when
   * no card is due in it, and with no negative debt at most the debt on
   * all cards.
   */
  function TotalCreditCardDebt(cards: seq<CreditCard>, p: Period): (r: real)
    ensures (forall c :: c in cards ==> !p.Contains(c.paymentDueDate)) ==> r == 0.0
    ensures NonNegative(cards, CardDebt) ==> 0.0 <= r <= Sum(cards, CardDebt)
  {
    FilteredSumBounds(cards, CardDue(p), CardDebt);
    Sum(CardsDueInPeriod(cards, p), CardDebt)
  }

  /**
   * `remainingBalance`: what is left of the current paycheck once the
   * period's expenses and card payments are taken out. With no negative
   * amounts it never exceeds the paycheck, and never falls below what
   * would be left after every fixed expense, every expense of the month
   * and the debt on every card.
   */
  function RemainingBalance(
    paychecks: seq<Paycheck>, fixed: seq<FixedExpense>, expenses: seq<Expense>,
    cards: seq<CreditCard>, today: Date, p: Period): (r: real)
    ensures NonNegative(fixed, FixedAmount) && NonNegative(expenses, ExpenseAmount) && NonNegative(cards, CardDebt) ==>
      CurrentPaycheckAmount(paychecks) - Sum(fixed, FixedAmount)
        - Sum(Filter(expenses, InMonthOf(today)), ExpenseAmount) - Sum(cards, CardDebt)
      <= r <= CurrentPaycheckAmount(paychecks)
  {
    CurrentPaycheckAmount(paychecks) - TotalPeriodExpenses(fixed, expenses, today, p) - TotalCreditCardDebt(cards, p)
  }

  /** With no negative amounts, the period's variable expenses total at most those of the whole month. */
  lemma VariableWithinMonth(expenses: seq<Expense>, today: Date, p: Period)
    ensures NonNegative(expenses, ExpenseAmount) ==>
      0.0 <= Sum(VariableForPeriod(expenses, today, p), ExpenseAmount)
          <= Sum(Filter(expenses, InMonthOf(today)), ExpenseAmount)
  {
    VariableTotalsSplit(expenses, today);
    FilteredSumBounds(expenses, ExpenseDue(today, First), ExpenseAmount);
    FilteredSumBounds(expenses, ExpenseDue(today, Second), ExpenseAmount);
  }

  /** The fixed expenses of the two periods add up to all fixed expenses. */
  lemma FixedTotalsSplit(fixed: seq<FixedExpense>)
    ensures Sum(FixedForPeriod(fixed, First), FixedAmount) + Sum(FixedForPeriod(fixed, Second), FixedAmount)
         == Sum(fixed, FixedAmount)
  {
    SumPartition(fixed, FixedDue(First), FixedDue(Second), AllFixed, FixedAmount);
    FilterKeepsAll(fixed, AllFixed);
  }

  /** The variable expenses of the two periods add up to the expenses of today's month. */
  lemma VariableTotalsSplit(expenses: seq<Expense>, today: Date)
    ensures Sum(VariableForPeriod(expenses, today, First), ExpenseAmount)
          + Sum(VariableForPeriod(expenses, today, Second), ExpenseAmount)
         == Sum(Filter(expenses, InMonthOf(today)), ExpenseAmount)
  {
    SumPartition(expenses, ExpenseDue(today, First), ExpenseDue(today, Second), InMonthOf(today), ExpenseAmount);
  }

  /** The card debt due in the two periods adds up to the debt of all cards. */
  lemma CardDebtSplit(cards: seq<CreditCard>)
    ensures TotalCreditCardDebt(cards, First) + TotalCreditCardDebt(cards, Second) == Sum(cards, CardDebt)
  {
    SumPartition(cards, CardDue(First), CardDue(Second), AllCards, CardDebt);
    FilterKeepsAll(cards, AllCards);
  }

  /**
   * Both periods draw on the same current paycheck (the first of the
   * list), so their balances together are twice that amount less every
   * fixed expense, every expense of the month and the debt on every card.
   */
  lemma RemainingBalancesSplit(
    paychecks: seq<Paycheck>, fixed: seq<FixedExpense>, expenses: seq<Expense>,
    cards: seq<CreditCard>, today: Date)
    ensures RemainingBalance(paychecks, fixed, expenses, cards, today, First)
          + RemainingBalance(paychecks, fixed, expenses, cards, today, Second)
         == 2.0 * CurrentPaycheckAmount(paychecks)
          - Sum(fixed, FixedAmount)
          - Sum(Filter(expenses, InMonthOf(today)), ExpenseAmount)
          - Sum(cards, CardDebt)
  {
    FixedTotalsSplit(fixed);
    VariableTotalsSplit(expenses, today);
    CardDebtSplit(cards);
  }

  /**
   * A fixed expense present in the list lowers the balance of the period by
   * its amount when its day falls in the period, and leaves it alone
   * otherwise; read backwards, deleting it gives that amount back.
   */
  lemma BalanceWithFixedExpense(
    paychecks: seq<Paycheck>, before: seq<FixedExpense>, e: FixedExpense, after: seq<FixedExpense>,
    expenses: seq<Expense>, cards: seq<CreditCard>, today: Date, p: Period)
    ensures RemainingBalance(paychecks, before + [e] + after, expenses, cards, today, p)
         == RemainingBalance(paychecks, before + after, expenses, cards, today, p)
          - (if p.Contains(e.dayOfMonth) then e.amount else 0.0)
  {
    FilteredSumInsert(before, e, after, FixedDue(p), FixedAmount);
  }

  /** The same for a variable expense: it counts only when dated in today's month and in the period. */
  lemma BalanceWithVariableExpense(
    paychecks: seq<Paycheck>, fixed: seq<FixedExpense>, before: seq<Expense>, e: Expense, after: seq<Expense>,
    cards: seq<CreditCard>, today: Date, p: Period)
    ensures RemainingBalance(paychecks, fixed, before + [e] + after, cards, today, p)
         == RemainingBalance(paychecks, fixed, before + after, cards, today, p)
          - (if e.date.year == today.year && e.date.month == today.month && p.Contains(e.date.day)
             then e.amount else 0.0)
  {
    FilteredSumInsert(before, e, after, ExpenseDue(today, p), ExpenseAmount);
  }

  /** The same for a card: its debt counts only when its payment day falls in the period. */
  lemma BalanceWithCard(
    paychecks: seq<Paycheck>, fixed: seq<FixedExpense>, expenses: seq<Expense>,
    before: seq<CreditCard>, c: CreditCard, after: seq<CreditCard>, today: Date, p: Period)
    ensures RemainingBalance(paychecks, fixed, expenses, before + [c] + after, today, p)
         == RemainingBalance(paychecks, fixed, expenses, before + after, today, p)
          - (if p.Contains(c.paymentDueDate) then c.currentDebt else 0.0)
  {
    FilteredSumInsert(before, c, after, CardDue(p), CardDebt);
  }

  /** The store delivers paychecks newest first. */
  predicate NewestFirst(paychecks: seq<Paycheck>)
  {
    forall i, j :: 0 <= i < j < |paychecks| ==> DateAtMost(paychecks[j].date, paychecks[i].date)
  }
}
