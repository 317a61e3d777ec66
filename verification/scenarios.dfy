/** Walk-throughs of the route handlers, verified from the handlers' contracts alone. */
module Scenarios {
  import opened Results
  import opened Schemas
  import opened Models
  import opened Crud
  import opened Routes

  /** The caller's income and expense totals, as the summary adds them up. */
  ghost function Incomes(ledger: Ledger, uid: int): int
    reads ledger
  {
    Total(ledger.incomes, uid, ledger.nextIncomeId, IncomeAmount)
  }

  ghost function Expenses(ledger: Ledger, uid: int): int
    reads ledger
  {
    Total(ledger.expenses, uid, ledger.nextExpenseId, ExpenseAmount)
  }

  /** A fresh store with one registered user, who has no rows yet. */
  method Open() returns (ledger: Ledger, uid: int)
    ensures fresh(ledger) && ledger.Valid() && uid in ledger.users
    ensures Incomes(ledger, uid) == 0 && Expenses(ledger, uid) == 0
  {
    ledger := new Ledger();
    var a := Register(ledger, UserCreate("A", "5550100", "a@example.com", None, None, "secret"), "hashed");
    assert a.Ok?;
    uid := a.value.id;
    TotalOfNone(ledger.incomes, uid, ledger.nextIncomeId, IncomeAmount);
    TotalOfNone(ledger.expenses, uid, ledger.nextExpenseId, ExpenseAmount);
  }

  /** TotalAfterInsert in the form the handlers' contracts give it: a
      snapshot before and after an insert under the next income id. */
  lemma IncomeInserted(t: Tables, t': Tables, uid: int, row: Income)
    requires KeyedBelow(t.incomes, t.nextIncomeId) && row.id == t.nextIncomeId
    requires t'.incomes == t.incomes[row.id := row] && t'.nextIncomeId == row.id + 1
    ensures Total(t'.incomes, uid, t'.nextIncomeId, IncomeAmount) ==
            Total(t.incomes, uid, t.nextIncomeId, IncomeAmount) + (if row.userId == uid then row.data.amount else 0)
  {
    TotalAfterInsert(t.incomes, uid, t.nextIncomeId, row, IncomeAmount);
  }

  /** The same for an insert under the next expense id. */
  lemma ExpenseInserted(t: Tables, t': Tables, uid: int, row: Expense)
    requires KeyedBelow(t.expenses, t.nextExpenseId) && row.id == t.nextExpenseId
    requires t'.expenses == t.expenses[row.id := row] && t'.nextExpenseId == row.id + 1
    ensures Total(t'.expenses, uid, t'.nextExpenseId, ExpenseAmount) ==
            Total(t.expenses, uid, t.nextExpenseId, ExpenseAmount) + (if row.userId == uid then row.data.amount else 0)
  {
    TotalAfterInsert(t.expenses, uid, t.nextExpenseId, row, ExpenseAmount);
  }

  /** POST /incomes/ by uid: the income total grows by the amount. */
  method Earn(ledger: Ledger, uid: int, cents: int)
    requires ledger.Valid() && uid in ledger.users && AmountFits(cents)
    modifies ledger
    ensures ledger.Valid() && uid in ledger.users
    ensures Incomes(ledger, uid) == old(Incomes(ledger, uid)) + cents
    ensures ledger.expenses == old(ledger.expenses) && ledger.nextExpenseId == old(ledger.nextExpenseId)
  {
    ghost var t := ledger.State();
    var r := CreateIncome(ledger, uid, IncomeBase(cents, None, Date(2024, 1, 1)));
    IncomeInserted(t, ledger.State(), uid, r.value);
  }

  /** POST /expenses/ by uid: the expense total grows by the amount. */
  method Spend(ledger: Ledger, uid: int, title: string, cents: int) returns (id: int)
    requires ledger.Valid() && uid in ledger.users && Fits(title, 255) && AmountFits(cents)
    modifies ledger
    ensures ledger.Valid() && uid in ledger.users
    ensures id in ledger.expenses && ledger.expenses[id].userId == uid && ledger.expenses[id].data.amount == cents
    ensures ledger.incomes == old(ledger.incomes) && ledger.nextIncomeId == old(ledger.nextIncomeId)
    ensures Expenses(ledger, uid) == old(Expenses(ledger, uid)) + cents
  {
    ghost var t := ledger.State();
    var r := CreateExpense(ledger, uid, ExpenseBase(title, cents, Date(2024, 1, 2), None));
    ExpenseInserted(t, ledger.State(), uid, r.value);
    id := r.value.id;
  }

  /** DELETE /expenses/{id} by its owner: the expense total drops by its amount. */
  method Refund(ledger: Ledger, uid: int, id: int)
    requires ledger.Valid() && uid in ledger.users
    requires id in ledger.expenses && ledger.expenses[id].userId == uid
    modifies ledger
    ensures ledger.Valid() && uid in ledger.users
    ensures ledger.incomes == old(ledger.incomes) && ledger.nextIncomeId == old(ledger.nextIncomeId)
    ensures Expenses(ledger, uid) == old(Expenses(ledger, uid) - ledger.expenses[id].data.amount)
  {
    ghost var m, n := ledger.expenses, ledger.nextExpenseId;
    var r := DeleteExpense(ledger, id);
    assert ledger.expenses == m - {id} && ledger.nextExpenseId == n;
    assert Expenses(ledger, uid) == Total(m, uid, n, ExpenseAmount) - m[id].data.amount by {
      TotalAfterRemove(m, uid, n, id, ExpenseAmount);
    }
  }

  /** A user with incomes of 100.00 and 50.50 and an expense of 30.25 is
      120.25 within budget; a further expense of 200.00 puts them 79.75 over,
      and deleting that expense again restores the earlier summary. */
  method BudgetScenario()
  {
    var ledger, uid := Open();
    Earn(ledger, uid, 10000);
    Earn(ledger, uid, 5050);
    var rent := Spend(ledger, uid, "rent", 3025);
    assert GetFinancialSummary(ledger, uid) == SummaryResponse(15050, 3025, 12025, 0, WithinBudget);
    var laptop := Spend(ledger, uid, "laptop", 20000);
    assert GetFinancialSummary(ledger, uid) == SummaryResponse(15050, 23025, -7975, 7975, OverBudget);
    Refund(ledger, uid, laptop);
    assert GetFinancialSummary(ledger, uid) == SummaryResponse(15050, 3025, 12025, 0, WithinBudget);
  }

  /** Through the expense handler as written, anyone can take over another
      user's expense; the owner-checked handler refuses the same request. */
  method ForeignExpenseTakeover(ledger: Ledger, owner: int, intruder: int, id: int)
    requires ledger.Valid() && owner != intruder && intruder in ledger.users
    requires id in ledger.expenses && ledger.expenses[id].userId == owner
    modifies ledger
    ensures id in ledger.expenses && ledger.expenses[id].userId == intruder
  {
    var payload := ExpenseBase("mine now", 1, Date(2024, 2, 2), None);
    var refused := UpdateOwnExpense(ledger, intruder, id, payload);
    assert refused == NotFound && ledger.expenses[id].userId == owner;
    var taken := UpdateExpense(ledger, id, ExpenseCreate(payload, intruder));
    assert taken.Ok?;
  }
}
