# Fintro pay-period bookkeeping, in Dafny

Fintro is a personal-finance app. Its finance view model
(`Fintro/Core/Finance/ViewModel/FinanceViewModel.swift`) splits every month into two
semi-monthly pay periods. The paycheck of the 14th ("Pago 1") pays for days 14 to 28.
The paycheck of the 29th ("Pago 2") pays for days 29 to 31 and 1 to 13. For the selected
period the view model shows the fixed expenses, the variable expenses and the credit
cards whose payment falls in it. It also shows what is left of the latest paycheck.
It holds the text of the entry forms, validates it before anything is written to the
store, and turns a swipe on a list row into the ids of the records to delete.

The project has these modules:

- `Periods` (`periods.dfy`): the `Period` enum with its `contains(day:)` test, and the
  period picked at start-up.
- `Seqs` (`seqs.dfy`): Swift's `filter` and `reduce(0, +)` as generic functions, with
  lemmas on order and totals. It also holds an `IndexSet` of swipe offsets and the
  ids picked by it.
- `Totals` (`totals.dfy`): the computed properties. They are functions of the record
  lists, the period and today's date, with lemmas on how the totals of the two periods
  split.
- `IntText` (`int_text.dfy`): Swift's `Int(String)` and `String(Int)` for 64-bit `Int`,
  and the round trip between them.
- `ViewModel` (`view_model.dfy`): the class `FinanceViewModel`. It has the
  `@Published` fields as mutable fields and every user action as a method. Each
  method states the new state and the write it hands to the store.
- `Records`, `Wrappers`: the record structs and `Option`.

Behaviour of the code as written that the model keeps:

- `updateVariableExpense` and `updateFixedExpense` finish with `clearAndDismissEditing`.
  That method clears only the credit-card form and `cardToEdit`. The expense form and
  `expenseToEdit`/`fixedExpenseToEdit` keep their values. The method frames show this.
- `addCreditCard` and `updateCreditCard` do not check the closing and payment days
  against 1..31. The fixed-expense forms do.
- `deleteCreditCard(at:)` indexes the whole card list. The two expense deletes index
  the filtered list of the period. The dashboard passes `deleteCreditCard` the swipe
  offsets of the list it shows, `creditCardsForCurrentPeriod`
  (DashboardView.swift:129, 137). If that list is a filtered one, an offset into it
  picks a different card from the whole list, and the wrong card is deleted. This is
  a possible defect that has not been exercised. `creditCardsForCurrentPeriod` is not
  defined in `FinanceViewModel.swift` and is not part of this model.
- Variable expenses of a period are the expenses of today's calendar month and year
  whose day lies in the period. The code has no date range. So while the second period
  runs from the 1st to the 13th, expenses from the 29th to the 31st of the previous
  month are not counted.
- The labels of `Period.displayName` say "15-28" and "29-14". The model follows
  `contains`, which uses 14–28 and 29–13.

## Model

| member | source | states |
|---|---|---|
| `Periods.Period.Contains` | Fintro/Core/Finance/ViewModel/FinanceViewModel.swift:335-344 | a day is in `First` exactly when it is in 14..28 and in `Second` exactly when it is not |
| `Periods.ExactlyOnePeriod` | Fintro/Core/Finance/ViewModel/FinanceViewModel.swift:335-344 | every integer day, inside 1..31 or not, is in exactly one of the two periods |
| `Periods.PeriodOf` | Fintro/Core/Finance/ViewModel/FinanceViewModel.swift:167-178 | the start-up period contains today's day, no other period does, and it is the first period exactly when the day is in 14..28 |
| `Seqs.Filter` | Fintro/Core/Finance/ViewModel/FinanceViewModel.swift:44 | a filter never grows the list and keeps exactly the elements that pass the test |
| `Seqs.FilterAppend` | Fintro/Core/Finance/ViewModel/FinanceViewModel.swift:44 | filtering keeps order: it distributes over concatenation |
| `Seqs.PickIds` | Fintro/Core/Finance/ViewModel/FinanceViewModel.swift:283 | the ids picked at the offsets are never more than the offsets, and exactly as many when every record pointed at has an id |
| `Seqs.PickIdsMembers` | Fintro/Core/Finance/ViewModel/FinanceViewModel.swift:283-289 | an id is selected for deletion exactly when one of the offsets points at a record holding it; records without an id are skipped |
| `Totals.FixedForPeriod` | Fintro/Core/Finance/ViewModel/FinanceViewModel.swift:43-45 | a fixed expense is listed for the period exactly when it is in the list and its day of the month is in the period |
| `Totals.VariableForPeriod` | Fintro/Core/Finance/ViewModel/FinanceViewModel.swift:48-63 | an expense is listed exactly when its year and month are today's and its day is in the period |
| `Totals.CardsDueInPeriod` | Fintro/Core/Finance/ViewModel/FinanceViewModel.swift:75-78 | a card is listed exactly when its payment day is in the period |
| `Totals.CurrentPaycheckAmount` | Fintro/Core/Finance/ViewModel/FinanceViewModel.swift:38-40 | 0 for no paychecks, otherwise the first paycheck's amount; on a list delivered newest first (as the store orders it), that is the amount of a paycheck no other is newer than |
| `Totals.TotalPeriodExpenses` | Fintro/Core/Finance/ViewModel/FinanceViewModel.swift:65-70 | with no negative amounts, the period's expenses lie between 0 and all fixed expenses plus all expenses of today's month |
| `Totals.TotalCreditCardDebt` | Fintro/Core/Finance/ViewModel/FinanceViewModel.swift:72-82 | 0 when no card's payment day is in the period; with no negative debt, between 0 and the debt on all cards |
| `Totals.RemainingBalance` | Fintro/Core/Finance/ViewModel/FinanceViewModel.swift:84-87 | with no negative amounts, the balance is at most the current paycheck and at least the paycheck less every fixed expense, every expense of the month and all card debt |
| `Totals.VariableWithinMonth` | Fintro/Core/Finance/ViewModel/FinanceViewModel.swift:48-68 | with no negative amounts, the period's variable total lies between 0 and the total of today's month |
| `Totals.FixedTotalsSplit` | Fintro/Core/Finance/ViewModel/FinanceViewModel.swift:66-67 | the fixed totals of the two periods add up to the total of all fixed expenses |
| `Totals.VariableTotalsSplit` | Fintro/Core/Finance/ViewModel/FinanceViewModel.swift:48-68 | the variable totals of the two periods add up to the total of the expenses of today's month |
| `Totals.CardDebtSplit` | Fintro/Core/Finance/ViewModel/FinanceViewModel.swift:73-82 | the card debt due in the two periods adds up to the debt on all cards |
| `Totals.RemainingBalancesSplit` | Fintro/Core/Finance/ViewModel/FinanceViewModel.swift:84-87 | both periods use the same current paycheck (the first of the list), so their two balances add up to twice that amount less all fixed expenses, all of the month's expenses and all card debt |
| `Totals.BalanceWithFixedExpense` | Fintro/Core/Finance/ViewModel/FinanceViewModel.swift:65-87 | a fixed expense in the list lowers the period's balance by its amount when its day is in the period, and by nothing otherwise; removing it gives that amount back |
| `Totals.BalanceWithVariableExpense` | Fintro/Core/Finance/ViewModel/FinanceViewModel.swift:48-87 | a variable expense lowers the balance by its amount exactly when it is dated in today's month and its day is in the period |
| `Totals.BalanceWithCard` | Fintro/Core/Finance/ViewModel/FinanceViewModel.swift:72-87 | a card lowers the balance by its debt exactly when its payment day is in the period |
| `IntText.ParseInt` | Fintro/Core/Finance/ViewModel/FinanceViewModel.swift:214 | a string parses exactly when it is a non-empty run of digits after at most one leading sign and the signed value it spells is in the 64-bit range, and then to exactly that value; a well-formed string out of range reads as no number |
| `IntText.ParseIntExamples` | Fintro/Core/Finance/ViewModel/FinanceViewModel.swift:214 | `+07` reads as 7, `-0` as 0 and `31` as 31; a lone `-`, a leading space and the empty string read as no number |
| `IntText.DigitsRoundTrip` | Fintro/Core/Finance/ViewModel/FinanceViewModel.swift:127-128 | the decimal digits of a natural number read back as that number |
| `IntText.FormatInt` | Fintro/Core/Finance/ViewModel/FinanceViewModel.swift:127-128 | the rendering is non-empty, starts with a minus sign exactly for negative numbers, and is a sign followed by digits whose signed value is the number itself |
| `IntText.ParseFormat` | Fintro/Core/Finance/ViewModel/FinanceViewModel.swift:127-135 | `Int(String(n)) == n` for every 64-bit `n`, so a day copied into a form reads back unchanged |
| `ViewModel.FinanceViewModel.constructor` | Fintro/Core/Finance/ViewModel/FinanceViewModel.swift:91-95 | starts with empty lists and forms and selects the period containing today's day |
| `ViewModel.FinanceViewModel.FixedExpensesForCurrentPeriod` | Fintro/Core/Finance/ViewModel/FinanceViewModel.swift:43-45 | a fixed expense is shown exactly when it is in the list and its day is in the selected period |
| `ViewModel.FinanceViewModel.VariableExpensesForCurrentPeriod` | Fintro/Core/Finance/ViewModel/FinanceViewModel.swift:48-63 | an expense is shown exactly when it is in the list, dated in today's month and year, and its day is in the selected period |
| `ViewModel.FinanceViewModel.SetDefaultPeriod` | Fintro/Core/Finance/ViewModel/FinanceViewModel.swift:167-178 | selects the first period exactly when today's day is in 14..28; the selected period always contains today's day |
| `ViewModel.FinanceViewModel.AddPaycheck` | Fintro/Core/Finance/ViewModel/FinanceViewModel.swift:201-205 | writes a paycheck exactly when the amount parses and a user is signed in, then clears the amount; otherwise changes nothing |
| `ViewModel.FinanceViewModel.AddVariableExpense` | Fintro/Core/Finance/ViewModel/FinanceViewModel.swift:207-210 | writes the expense exactly when the amount parses, then clears name and amount; otherwise changes nothing |
| `ViewModel.FinanceViewModel.AddFixedExpense` | Fintro/Core/Finance/ViewModel/FinanceViewModel.swift:212-225 | writes exactly when the amount parses, the day parses and lies in 1..31 and a user is signed in, then clears the three fields; a failed guard changes nothing |
| `ViewModel.FinanceViewModel.AddCreditCard` | Fintro/Core/Finance/ViewModel/FinanceViewModel.swift:113-121 | writes exactly when debt and both days parse and a user is signed in, then clears the card form; a failed guard changes nothing |
| `ViewModel.FinanceViewModel.SetupEditingCard` | Fintro/Core/Finance/ViewModel/FinanceViewModel.swift:123-129 | remembers the card and copies its name, debt, closing day and payment day into the four form fields |
| `ViewModel.FinanceViewModel.SetupEditingVariableExpense` | Fintro/Core/Finance/ViewModel/FinanceViewModel.swift:228-232 | remembers the expense and copies its name and amount into the form |
| `ViewModel.FinanceViewModel.SetupEditingFixedExpense` | Fintro/Core/Finance/ViewModel/FinanceViewModel.swift:234-239 | remembers the fixed expense and copies name, amount and day into the form |
| `ViewModel.FinanceViewModel.UpdateCreditCard` | Fintro/Core/Finance/ViewModel/FinanceViewModel.swift:131-143 | overwrites the edited card, keeping its id and owner, exactly when a card is being edited and debt and both days parse; then the card form is empty and no card is edited; a failed guard changes nothing |
| `ViewModel.FinanceViewModel.UpdateVariableExpense` | Fintro/Core/Finance/ViewModel/FinanceViewModel.swift:241-251 | overwrites the edited expense's name and amount exactly when an expense is edited and the amount parses; then only the card form is cleared; a failed guard changes nothing |
| `ViewModel.FinanceViewModel.UpdateFixedExpense` | Fintro/Core/Finance/ViewModel/FinanceViewModel.swift:253-267 | overwrites the edited fixed expense exactly when one is edited, the amount and day parse and the day is in 1..31; then only the card form is cleared; a failed guard changes nothing |
| `ViewModel.FinanceViewModel.ClearCardFields` | Fintro/Core/Finance/ViewModel/FinanceViewModel.swift:154-156 | empties the four card fields and nothing else |
| `ViewModel.FinanceViewModel.ClearAndDismissEditing` | Fintro/Core/Finance/ViewModel/FinanceViewModel.swift:158-162 | empties the four card fields and forgets the edited card, and nothing else |
| `ViewModel.FinanceViewModel.ClearVariableExpenseFields` | Fintro/Core/Finance/ViewModel/FinanceViewModel.swift:295-298 | empties the expense name and amount |
| `ViewModel.FinanceViewModel.ClearFixedExpenseFields` | Fintro/Core/Finance/ViewModel/FinanceViewModel.swift:300-304 | empties the three fixed-expense fields |
| `ViewModel.FinanceViewModel.DeleteFixedExpense` | Fintro/Core/Finance/ViewModel/FinanceViewModel.swift:282-291 | deletes the ids found at the offsets of the period's filtered fixed expenses, in offset order; exactly those, and none for a record without an id |
| `ViewModel.FinanceViewModel.DeleteVariableExpense` | Fintro/Core/Finance/ViewModel/FinanceViewModel.swift:271-280 | the same on the period's filtered variable expenses |
| `ViewModel.FinanceViewModel.DeleteCreditCard` | Fintro/Core/Finance/ViewModel/FinanceViewModel.swift:145-152 | the same, but the offsets index the whole, unfiltered card list |
| `ViewModel.EditCardUnchanged` | Fintro/Core/Finance/ViewModel/FinanceViewModel.swift:123-143 | opening a card and saving the form untouched writes back the same card and leaves the card form empty; only the forms it touches are in its frame, so the record lists and the other forms are unchanged |
| `ViewModel.EditFixedExpenseUnchanged` | Fintro/Core/Finance/ViewModel/FinanceViewModel.swift:234-267 | opening a fixed expense with a day in 1..31 and saving it untouched writes back the same expense; afterwards the expense stays selected, its form keeps the copied name, amount and day, and the card form is empty with no card selected; only the forms it touches are in its frame, so the record lists and the other forms are unchanged |

## Left out

- Store persistence and live listeners (`FireStoreService`, the listener tasks at lines 97-110 and 181-197). The record lists are plain fields; whoever delivers a snapshot assigns them. A write is returned as a `Write` value, and a delete as the list of ids to delete.
- Concurrency and errors. The writes are fire-and-forget tasks whose errors are discarded. Each action is one synchronous step, and its field clears happen at once whether or not the write would succeed.
- Authentication. The signed-in user's id is an `Option` parameter. `addVariableExpense` has no user check of its own (the store checks the user); that check is not part of this model.
- Floating point. Amounts are `real`; rounding in `Double` sums and their summation order are not modelled.
- `Double(String)` and `String(Double)` are platform routines not modelled here. They are the class's `parseAmount` and `showAmount` function fields. `EditCardUnchanged` and `EditFixedExpenseUnchanged` assume the amount read back is the one rendered.
- Clock and calendar. `Date()` is the `today`/`now` parameter, reduced to year, month and day. A paycheck's time of day is not kept.
- Record integer fields are unbounded here; only parsing enforces the 64-bit range of Swift's `Int`.
- Swipe offsets beyond the shown list make the app trap. The delete methods require the offsets to be a valid `IndexSet` of that list.
- `periodName` and `Period.displayName`: display strings only.
- Savings records: no operation of the view model reads them.
- Monthly history, savings, `creditCardsForCurrentPeriod`, `prefillPaycheckAmount`, `addOrUpdateSaving`, `expenseDate` and the per-month record queries. The dashboard uses them, but they are not defined in `FinanceViewModel.swift` and are not part of this model.
- The SwiftUI views and authentication views: UI binding only.
