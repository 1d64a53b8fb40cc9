/**
 * The finance view model (FinanceViewModel.swift:6-309): the record lists
 * the store's listeners keep up to date, the selected period, the record
 * being edited and the text of the entry forms. Each user action is one
 * synchronous step: it either stops at its guard and changes nothing, or
 * issues one write to the store and clears the form fields it used.
 */
module ViewModel {
  import opened Wrappers
  import opened Records
  import opened Periods
  import opened Seqs
  import opened Totals
  import opened IntText

  /** A write handed to the store; the store assigns ids, owner and dates it stamps itself. */
  datatype Write =
    | SavePaycheck(paycheck: Paycheck)
    | SaveExpense(name: string, amount: real)
    | SaveFixedExpense(fixed: FixedExpense)
    | SaveCreditCard(card: CreditCard)
    | ReplaceVariableExpense(expense: Expense)
    | ReplaceFixedExpense(fixed: FixedExpense)
    | ReplaceCreditCard(card: CreditCard)

  /** The range `(1...31)` the fixed-expense forms accept for a day of the month. */
  predicate IsDayOfMonth(day: int)
  {
    1 <= day <= 31
  }

  /** The ids of a list of records, position by position. */
  function Ids<T>(xs: seq<T>, id: T -> Option<Id>): (ids: seq<Option<Id>>)
    ensures |ids| == |xs| && forall i :: 0 <= i < |xs| ==> ids[i] == id(xs[i])
  {
    seq(|xs|, i requires 0 <= i < |xs| => id(xs[i]))
  }

  function FixedId(e: FixedExpense): Option<Id> { e.id }
  function ExpenseId(e: Expense): Option<Id> { e.id }
  function CardId(c: CreditCard): Option<Id> { c.id }

  class FinanceViewModel {
    // Record lists, as the store's listeners last delivered them.
    var allPaychecks: seq<Paycheck>
    var allVariableExpenses: seq<Expense>
    var allFixedExpenses: seq<FixedExpense>
    var allCreditCards: seq<CreditCard>

    // Screen state.
    var currentPeriod: Period
    var expenseToEdit: Option<Expense>
    var fixedExpenseToEdit: Option<FixedExpense>
    var cardToEdit: Option<CreditCard>

    // Text of the entry forms.
    var expenseName: string
    var expenseAmount: string
    var paycheckAmount: string
    var fixedExpenseName: string
    var fixedExpenseAmount: string
    var fixedExpenseDay: string
    var cardName: string
    var cardDebt: string
    var cardClosingDate: string
    var cardPaymentDate: string

    /** `Double(String)`, the platform's reading of an amount typed in a form. */
    const parseAmount: string -> Option<real>
    /** `String(Double)`, the platform's rendering of an amount into a form. */
    const showAmount: real -> string

    /** All four credit-card form fields are empty. */
    predicate CardFieldsEmpty()
      reads this
    {
      cardName == "" && cardDebt == "" && cardClosingDate == "" && cardPaymentDate == ""
    }

    /** `init()`: empty lists and forms, and the period that contains today's day. */
    constructor (today: Date, parseAmount: string -> Option<real>, showAmount: real -> string)
      ensures allPaychecks == [] && allVariableExpenses == [] && allFixedExpenses == [] && allCreditCards == []
      ensures currentPeriod.Contains(today.day) && currentPeriod == PeriodOf(today.day)
      ensures expenseToEdit == None && fixedExpenseToEdit == None && cardToEdit == None
      ensures expenseName == "" && expenseAmount == "" && paycheckAmount == ""
      ensures fixedExpenseName == "" && fixedExpenseAmount == "" && fixedExpenseDay == ""
      ensures CardFieldsEmpty()
      ensures this.parseAmount == parseAmount && this.showAmount == showAmount
    {
      allPaychecks, allVariableExpenses, allFixedExpenses, allCreditCards := [], [], [], [];
      currentPeriod := First;
      expenseToEdit, fixedExpenseToEdit, cardToEdit := None, None, None;
      expenseName, expenseAmount, paycheckAmount := "", "", "";
      fixedExpenseName, fixedExpenseAmount, fixedExpenseDay := "", "", "";
      cardName, cardDebt, cardClosingDate, cardPaymentDate := "", "", "", "";
      this.parseAmount := parseAmount;
      this.showAmount := showAmount;
      new;
      SetDefaultPeriod(today);
    }

    // ----- Computed properties -----

    /** `fixedExpensesForCurrentPeriod`: the fixed expenses whose day lies in the selected period. */
    function FixedExpensesForCurrentPeriod(): (r: seq<FixedExpense>)
      reads this
      ensures forall e :: e in r <==> e in allFixedExpenses && currentPeriod.Contains(e.dayOfMonth)
    {
      FixedForPeriod(allFixedExpenses, currentPeriod)
    }

    /**
     * `variableExpensesForCurrentPeriod`: the expenses of today's month and
     * year whose day lies in the selected period.
     */
    function VariableExpensesForCurrentPeriod(today: Date): (r: seq<Expense>)
      reads this
      ensures forall e :: e in r <==>
        (e in allVariableExpenses && e.date.year == today.year && e.date.month == today.month
         && currentPeriod.Contains(e.date.day))
    {
      VariableForPeriod(allVariableExpenses, today, currentPeriod)
    }

    // ----- Period selection -----

    /** `setDefaultPeriod`: select the period whose days include today's. */
    method SetDefaultPeriod(today: Date)
      modifies this`currentPeriod
      ensures currentPeriod == First <==> 14 <= today.day <= 28
      ensures currentPeriod.Contains(today.day)
    {
      if First.Contains(today.day) {
        currentPeriod := First;
      } else {
        currentPeriod := Second;
      }
    }

    // ----- Adding records -----

    /** `addPaycheck`: needs a readable amount and a signed-in user. */
    method AddPaycheck(uid: Option<Id>, now: Date) returns (w: Option<Write>)
      modifies this`paycheckAmount
      ensures w.Some? <==> parseAmount(old(paycheckAmount)).Some? && uid.Some?
      ensures w.Some? ==>
        w.value == SavePaycheck(Paycheck(None, parseAmount(old(paycheckAmount)).value, now, uid.value))
        && paycheckAmount == ""
      ensures w.None? ==> paycheckAmount == old(paycheckAmount)
    {
      var amount := parseAmount(paycheckAmount);
      if amount.None? || uid.None? {
        return None;
      }
      w := Some(SavePaycheck(Paycheck(None, amount.value, now, uid.value)));
      paycheckAmount := "";
    }

    /** `addVariableExpense`: needs a readable amount; the store stamps owner and date. */
    method AddVariableExpense() returns (w: Option<Write>)
      modifies this`expenseName, this`expenseAmount
      ensures w.Some? <==> parseAmount(old(expenseAmount)).Some?
      ensures w.Some? ==>
        w.value == SaveExpense(old(expenseName), parseAmount(old(expenseAmount)).value)
        && expenseName == "" && expenseAmount == ""
      ensures w.None? ==> expenseName == old(expenseName) && expenseAmount == old(expenseAmount)
    {
      var amount := parseAmount(expenseAmount);
      if amount.None? {
        return None;
      }
      w := Some(SaveExpense(expenseName, amount.value));
      expenseName, expenseAmount := "", "";
    }

    /** `addFixedExpense`: needs a readable amount, a day in 1..31 and a signed-in user. */
    method AddFixedExpense(uid: Option<Id>) returns (w: Option<Write>)
      modifies this`fixedExpenseName, this`fixedExpenseAmount, this`fixedExpenseDay
      ensures w.Some? <==>
        parseAmount(old(fixedExpenseAmount)).Some?
        && ParseInt(old(fixedExpenseDay)).Some? && IsDayOfMonth(ParseInt(old(fixedExpenseDay)).value)
        && uid.Some?
      ensures w.Some? ==>
        w.value == SaveFixedExpense(FixedExpense(None, old(fixedExpenseName),
          parseAmount(old(fixedExpenseAmount)).value, ParseInt(old(fixedExpenseDay)).value, uid.value))
        && fixedExpenseName == "" && fixedExpenseAmount == "" && fixedExpenseDay == ""
      ensures w.None? ==> unchanged(this)
    {
      var amount := parseAmount(fixedExpenseAmount);
      var day := ParseInt(fixedExpenseDay);
      if amount.None? || day.None? || !IsDayOfMonth(day.value) || uid.None? {
        return None;
      }
      w := Some(SaveFixedExpense(FixedExpense(None, fixedExpenseName, amount.value, day.value, uid.value)));
      fixedExpenseName, fixedExpenseAmount, fixedExpenseDay := "", "", "";
    }

    /**
     * `addCreditCard`: needs a readable debt, two readable days and a
     * signed-in user. Unlike the fixed-expense form, the days are not
     * checked against 1..31.
     */
    method AddCreditCard(uid: Option<Id>) returns (w: Option<Write>)
      modifies this`cardName, this`cardDebt, this`cardClosingDate, this`cardPaymentDate
      ensures w.Some? <==>
        parseAmount(old(cardDebt)).Some? && ParseInt(old(cardClosingDate)).Some?
        && ParseInt(old(cardPaymentDate)).Some? && uid.Some?
      ensures w.Some? ==>
        w.value == SaveCreditCard(CreditCard(None, old(cardName), parseAmount(old(cardDebt)).value,
          ParseInt(old(cardClosingDate)).value, ParseInt(old(cardPaymentDate)).value, uid.value))
        && CardFieldsEmpty()
      ensures w.None? ==> unchanged(this)
    {
      var debt := parseAmount(cardDebt);
      var closingDay := ParseInt(cardClosingDate);
      var paymentDay := ParseInt(cardPaymentDate);
      if debt.None? || closingDay.None? || paymentDay.None? || uid.None? {
        return None;
      }
      w := Some(SaveCreditCard(CreditCard(None, cardName, debt.value, closingDay.value, paymentDay.value, uid.value)));
      ClearCardFields();
    }

    // ----- Editing records -----

    /** `setupEditing(card:)`: remember the card and copy its four fields into the form. */
    method SetupEditingCard(card: CreditCard)
      modifies this`cardToEdit, this`cardName, this`cardDebt, this`cardClosingDate, this`cardPaymentDate
      ensures cardToEdit == Some(card)
      ensures cardName == card.name && cardDebt == showAmount(card.currentDebt)
      ensures cardClosingDate == FormatInt(card.closingDate) && cardPaymentDate == FormatInt(card.paymentDueDate)
    {
      cardToEdit := Some(card);
      cardName := card.name;
      cardDebt := showAmount(card.currentDebt);
      cardClosingDate := FormatInt(card.closingDate);
      cardPaymentDate := FormatInt(card.paymentDueDate);
    }

    /** `setupEditing(variableExpense:)`. */
    method SetupEditingVariableExpense(expense: Expense)
      modifies this`expenseToEdit, this`expenseName, this`expenseAmount
      ensures expenseToEdit == Some(expense)
      ensures expenseName == expense.name && expenseAmount == showAmount(expense.amount)
    {
      expenseToEdit := Some(expense);
      expenseName := expense.name;
      expenseAmount := showAmount(expense.amount);
    }

    /** `setupEditing(fixedExpense:)`. */
    method SetupEditingFixedExpense(expense: FixedExpense)
      modifies this`fixedExpenseToEdit, this`fixedExpenseName, this`fixedExpenseAmount, this`fixedExpenseDay
      ensures fixedExpenseToEdit == Some(expense)
      ensures fixedExpenseName == expense.name && fixedExpenseAmount == showAmount(expense.amount)
      ensures fixedExpenseDay == FormatInt(expense.dayOfMonth)
    {
      fixedExpenseToEdit := Some(expense);
      fixedExpenseName := expense.name;
      fixedExpenseAmount := showAmount(expense.amount);
      fixedExpenseDay := FormatInt(expense.dayOfMonth);
    }

    /**
     * `updateCreditCard`: overwrite the card being edited with the form's
     * values, then clear the card form and forget the card.
     */
    method UpdateCreditCard() returns (w: Option<Write>)
      modifies this`cardToEdit, this`cardName, this`cardDebt, this`cardClosingDate, this`cardPaymentDate
      ensures w.Some? <==>
        old(cardToEdit).Some? && parseAmount(old(cardDebt)).Some?
        && ParseInt(old(cardClosingDate)).Some? && ParseInt(old(cardPaymentDate)).Some?
      ensures w.Some? ==>
        w.value == ReplaceCreditCard(old(cardToEdit).value.(
          name := old(cardName), currentDebt := parseAmount(old(cardDebt)).value,
          closingDate := ParseInt(old(cardClosingDate)).value,
          paymentDueDate := ParseInt(old(cardPaymentDate)).value))
        && CardFieldsEmpty() && cardToEdit == None
      ensures w.None? ==> unchanged(this)
    {
      var debt := parseAmount(cardDebt);
      var closingDay := ParseInt(cardClosingDate);
      var paymentDay := ParseInt(cardPaymentDate);
      if cardToEdit.None? || debt.None? || closingDay.None? || paymentDay.None? {
        return None;
      }
      var card := cardToEdit.value.(
        name := cardName, currentDebt := debt.value,
        closingDate := closingDay.value, paymentDueDate := paymentDay.value);
      w := Some(ReplaceCreditCard(card));
      ClearAndDismissEditing();
    }

    /**
     * `updateVariableExpense`: overwrite the expense being edited with the
     * form's name and amount. What it clears afterwards is
     * `clearAndDismissEditing`, which empties the card form only: the
     * expense form and `expenseToEdit` keep their values.
     */
    method UpdateVariableExpense() returns (w: Option<Write>)
      modifies this`cardToEdit, this`cardName, this`cardDebt, this`cardClosingDate, this`cardPaymentDate
      ensures w.Some? <==> old(expenseToEdit).Some? && parseAmount(old(expenseAmount)).Some?
      ensures w.Some? ==>
        w.value == ReplaceVariableExpense(old(expenseToEdit).value.(
          name := old(expenseName), amount := parseAmount(old(expenseAmount)).value))
        && CardFieldsEmpty() && cardToEdit == None
      ensures w.None? ==> unchanged(this)
    {
      var amount := parseAmount(expenseAmount);
      if expenseToEdit.None? || amount.None? {
        return None;
      }
      w := Some(ReplaceVariableExpense(expenseToEdit.value.(name := expenseName, amount := amount.value)));
      ClearAndDismissEditing();
    }

    /**
     * `updateFixedExpense`: the same guards as adding one, but on the
     * expense being edited; it too clears only the card form afterwards.
     */
    method UpdateFixedExpense() returns (w: Option<Write>)
      modifies this`cardToEdit, this`cardName, this`cardDebt, this`cardClosingDate, this`cardPaymentDate
      ensures w.Some? <==>
        old(fixedExpenseToEdit).Some? && parseAmount(old(fixedExpenseAmount)).Some?
        && ParseInt(old(fixedExpenseDay)).Some? && IsDayOfMonth(ParseInt(old(fixedExpenseDay)).value)
      ensures w.Some? ==>
        w.value == ReplaceFixedExpense(old(fixedExpenseToEdit).value.(
          name := old(fixedExpenseName), amount := parseAmount(old(fixedExpenseAmount)).value,
          dayOfMonth := ParseInt(old(fixedExpenseDay)).value))
        && CardFieldsEmpty() && cardToEdit == None
      ensures w.None? ==> unchanged(this)
    {
      var amount := parseAmount(fixedExpenseAmount);
      var day := ParseInt(fixedExpenseDay);
      if fixedExpenseToEdit.None? || amount.None? || day.None? || !IsDayOfMonth(day.value) {
        return None;
      }
      w := Some(ReplaceFixedExpense(fixedExpenseToEdit.value.(
        name := fixedExpenseName, amount := amount.value, dayOfMonth := day.value)));
      ClearAndDismissEditing();
    }

    // ----- Clearing forms -----

    /** `clearCardFields`. */
    method ClearCardFields()
      modifies this`cardName, this`cardDebt, this`cardClosingDate, this`cardPaymentDate
      ensures CardFieldsEmpty()
    {
      cardName, cardDebt, cardClosingDate, cardPaymentDate := "", "", "", "";
    }

    /** `clearAndDismissEditing`: empty the card form and forget the card being edited. */
    method ClearAndDismissEditing()
      modifies this`cardToEdit, this`cardName, this`cardDebt, this`cardClosingDate, this`cardPaymentDate
      ensures CardFieldsEmpty() && cardToEdit == None
    {
      ClearCardFields();
      cardToEdit := None;
    }

    /** `clearVariableExpenseFields`. */
    method ClearVariableExpenseFields()
      modifies this`expenseName, this`expenseAmount
      ensures expenseName == "" && expenseAmount == ""
    {
      expenseName, expenseAmount := "", "";
    }

    /** `clearFixedExpenseFields`. */
    method ClearFixedExpenseFields()
      modifies this`fixedExpenseName, this`fixedExpenseAmount, this`fixedExpenseDay
      ensures fixedExpenseName == "" && fixedExpenseAmount == "" && fixedExpenseDay == ""
    {
      fixedExpenseName, fixedExpenseAmount, fixedExpenseDay := "", "", "";
    }

    // ----- Swipe to delete -----

    /**
     * `deleteFixedExpense(at:)`: the offsets index the period's list as
     * shown; the ids of the records there, skipping those without an id,
     * are the ones deleted from the store.
     */
    method DeleteFixedExpense(offsets: seq<int>) returns (ids: seq<Id>)
      requires IsIndexSet(offsets, |FixedExpensesForCurrentPeriod()|)
      ensures ids == PickIds(Ids(FixedExpensesForCurrentPeriod(), FixedId), offsets)
      ensures forall i :: i in ids <==>
        exists k :: 0 <= k < |offsets| && FixedExpensesForCurrentPeriod()[offsets[k]].id == Some(i)
    {
      var shown := FixedExpensesForCurrentPeriod();
      ids := [];
      for k := 0 to |offsets|
        invariant ids == PickIds(Ids(shown, FixedId), offsets[..k])
      {
        assert offsets[..k + 1][..k] == offsets[..k];
        var expense := shown[offsets[k]];
        if expense.id.Some? {
          ids := ids + [expense.id.value];
        }
      }
      assert offsets[..|offsets|] == offsets;
      forall i ensures i in ids <==> exists k :: 0 <= k < |offsets| && Ids(shown, FixedId)[offsets[k]] == Some(i) {
        PickIdsMembers(Ids(shown, FixedId), offsets, i);
      }
    }

    /** `deleteVariableExpense(at:)`: as above, on the period's variable expenses as shown today. */
    method DeleteVariableExpense(today: Date, offsets: seq<int>) returns (ids: seq<Id>)
      requires IsIndexSet(offsets, |VariableExpensesForCurrentPeriod(today)|)
      ensures ids == PickIds(Ids(VariableExpensesForCurrentPeriod(today), ExpenseId), offsets)
      ensures forall i :: i in ids <==>
        exists k :: 0 <= k < |offsets| && VariableExpensesForCurrentPeriod(today)[offsets[k]].id == Some(i)
    {
      var shown := VariableExpensesForCurrentPeriod(today);
      ids := [];
      for k := 0 to |offsets|
        invariant ids == PickIds(Ids(shown, ExpenseId), offsets[..k])
      {
        assert offsets[..k + 1][..k] == offsets[..k];
        var expense := shown[offsets[k]];
        if expense.id.Some? {
          ids := ids + [expense.id.value];
        }
      }
      assert offsets[..|offsets|] == offsets;
      forall i ensures i in ids <==> exists k :: 0 <= k < |offsets| && Ids(shown, ExpenseId)[offsets[k]] == Some(i) {
        PickIdsMembers(Ids(shown, ExpenseId), offsets, i);
      }
    }

    /**
     * `deleteCreditCard(at:)`: unlike the two above, the offsets index the
     * whole, unfiltered list of cards.
     */
    method DeleteCreditCard(offsets: seq<int>) returns (ids: seq<Id>)
      requires IsIndexSet(offsets, |allCreditCards|)
      ensures ids == PickIds(Ids(allCreditCards, CardId), offsets)
      ensures forall i :: i in ids <==> exists k :: 0 <= k < |offsets| && allCreditCards[offsets[k]].id == Some(i)
    {
      ids := [];
      for k := 0 to |offsets|
        invariant ids == PickIds(Ids(allCreditCards, CardId), offsets[..k])
      {
        assert offsets[..k + 1][..k] == offsets[..k];
        var card := allCreditCards[offsets[k]];
        if card.id.Some? {
          ids := ids + [card.id.value];
        }
      }
      assert offsets[..|offsets|] == offsets;
      forall i ensures i in ids <==> exists k :: 0 <= k < |offsets| && Ids(allCreditCards, CardId)[offsets[k]] == Some(i) {
        PickIdsMembers(Ids(allCreditCards, CardId), offsets, i);
      }
    }
  }

  /**
   * Opening a card for editing and saving the form untouched writes back
   * the very same card and leaves the card form empty, provided the
   * platform reads back the amount it rendered.
   */
  method EditCardUnchanged(vm: FinanceViewModel, card: CreditCard) returns (w: Option<Write>)
    requires vm.parseAmount(vm.showAmount(card.currentDebt)) == Some(card.currentDebt)
    requires IntMin <= card.closingDate <= IntMax && IntMin <= card.paymentDueDate <= IntMax
    modifies vm`cardToEdit, vm`cardName, vm`cardDebt, vm`cardClosingDate, vm`cardPaymentDate
    ensures w == Some(ReplaceCreditCard(card))
    ensures vm.CardFieldsEmpty() && vm.cardToEdit == None
  {
    vm.SetupEditingCard(card);
    ParseFormat(card.closingDate);
    ParseFormat(card.paymentDueDate);
    w := vm.UpdateCreditCard();
  }

  /**
   * The same for a fixed expense, whose day must also lie in 1..31 to pass
   * the guard again. Afterwards the expense form keeps the copied values
   * and the expense stays selected, while the card form is the one cleared.
   */
  method EditFixedExpenseUnchanged(vm: FinanceViewModel, expense: FixedExpense) returns (w: Option<Write>)
    requires vm.parseAmount(vm.showAmount(expense.amount)) == Some(expense.amount)
    requires IsDayOfMonth(expense.dayOfMonth)
    modifies vm`cardToEdit, vm`cardName, vm`cardDebt, vm`cardClosingDate, vm`cardPaymentDate
    modifies vm`fixedExpenseToEdit, vm`fixedExpenseName, vm`fixedExpenseAmount, vm`fixedExpenseDay
    ensures w == Some(ReplaceFixedExpense(expense))
    ensures vm.fixedExpenseToEdit == Some(expense) && vm.fixedExpenseName == expense.name
    ensures vm.fixedExpenseAmount == vm.showAmount(expense.amount)
    ensures vm.fixedExpenseDay == FormatInt(expense.dayOfMonth)
    ensures vm.CardFieldsEmpty() && vm.cardToEdit == None
  {
    vm.SetupEditingFixedExpense(expense);
    ParseFormat(expense.dayOfMonth);
    w := vm.UpdateFixedExpense();
  }
}
