/** The repository of app/crud.py: per-user queries and the budget summary as
    functions on the store, and the writes as methods of the Ledger class. */
module Crud {
  import opened Results
  import opened Schemas
  import opened Models

  // ---------- listing and summing a table ----------

  /** The rows of m with id below n owned by uid, in ascending id order. */
  function Listed<T>(m: map<int, Row<T>>, uid: int, n: nat): seq<Row<T>>
    decreases n
  {
    if n == 0 then []
    else Listed(m, uid, n - 1) + (if n - 1 in m && m[n - 1].userId == uid then [m[n - 1]] else [])
  }

  /** The sum of the amounts of some rows. */
  function SumOf<T>(rows: seq<Row<T>>, amount: T -> int): int
  {
    if rows == [] then 0 else SumOf(rows[..|rows| - 1], amount) + amount(rows[|rows| - 1].data)
  }

  /** What the row under key k adds to uid's total. */
  function Contrib<T>(m: map<int, Row<T>>, uid: int, k: int, amount: T -> int): int
  {
    if k in m && m[k].userId == uid then amount(m[k].data) else 0
  }

  /** SUM(amount) over uid's rows with id below n; 0 when there are none. */
  function Total<T>(m: map<int, Row<T>>, uid: int, n: nat, amount: T -> int): int
  {
    SumOf(Listed(m, uid, n), amount)
  }

  /** The listing holds exactly uid's rows below n, each once, by ascending id. */
  lemma {:induction false} ListedExactly<T>(m: map<int, Row<T>>, uid: int, n: nat)
    requires forall k :: k in m ==> m[k].id == k
    ensures forall i :: 0 <= i < |Listed(m, uid, n)| ==>
      var r := Listed(m, uid, n)[i]; 0 <= r.id < n && r.id in m && m[r.id] == r && r.userId == uid
    ensures forall k :: 0 <= k < n && k in m && m[k].userId == uid ==> m[k] in Listed(m, uid, n)
    ensures forall i, j :: 0 <= i < j < |Listed(m, uid, n)| ==> Listed(m, uid, n)[i].id < Listed(m, uid, n)[j].id
  {
    if n > 0 {
      ListedExactly(m, uid, n - 1);
      var prev := Listed(m, uid, n - 1);
      var cell := if n - 1 in m && m[n - 1].userId == uid then [m[n - 1]] else [];
      assert Listed(m, uid, n) == prev + cell;
      forall k | 0 <= k < n && k in m && m[k].userId == uid
        ensures m[k] in Listed(m, uid, n)
      {
        if k < n - 1 {
          var i :| 0 <= i < |prev| && prev[i] == m[k];
          assert Listed(m, uid, n)[i] == m[k];
        } else {
          assert Listed(m, uid, n)[|prev|] == m[k];
        }
      }
    }
  }

  lemma SumOfSnoc<T>(rows: seq<Row<T>>, r: Row<T>, amount: T -> int)
    ensures SumOf(rows + [r], amount) == SumOf(rows, amount) + amount(r.data)
  {
    assert (rows + [r])[..|rows|] == rows;
  }

  /** One more id adds the contribution of the row under that id. */
  lemma TotalStep<T>(m: map<int, Row<T>>, uid: int, n: nat, amount: T -> int)
    ensures Total(m, uid, n + 1, amount) == Total(m, uid, n, amount) + Contrib(m, uid, n, amount)
  {
    if n in m && m[n].userId == uid {
      SumOfSnoc(Listed(m, uid, n), m[n], amount);
    } else {
      assert Listed(m, uid, n + 1) == Listed(m, uid, n);
    }
  }

  /** The total depends only on the contributions below n. */
  lemma {:induction false} TotalByContrib<T>(m: map<int, Row<T>>, m': map<int, Row<T>>, uid: int, n: nat, amount: T -> int)
    requires forall k :: 0 <= k < n ==> Contrib(m, uid, k, amount) == Contrib(m', uid, k, amount)
    ensures Total(m, uid, n, amount) == Total(m', uid, n, amount)
  {
    if n > 0 {
      TotalByContrib(m, m', uid, n - 1, amount);
      TotalStep(m, uid, n - 1, amount);
      TotalStep(m', uid, n - 1, amount);
      assert Contrib(m, uid, n - 1, amount) == Contrib(m', uid, n - 1, amount);
    }
  }

  /** A change at one key k shifts the total by that key's change of contribution. */
  lemma {:induction false} TotalPointChange<T>(m: map<int, Row<T>>, m': map<int, Row<T>>, uid: int, n: nat, k: nat, amount: T -> int)
    requires k < n
    requires forall j :: 0 <= j < n && j != k ==> Contrib(m, uid, j, amount) == Contrib(m', uid, j, amount)
    ensures Total(m', uid, n, amount) == Total(m, uid, n, amount) - Contrib(m, uid, k, amount) + Contrib(m', uid, k, amount)
  {
    TotalStep(m, uid, n - 1, amount);
    TotalStep(m', uid, n - 1, amount);
    if k == n - 1 {
      TotalByContrib(m, m', uid, n - 1, amount);
    } else {
      TotalPointChange(m, m', uid, n - 1, k, amount);
    }
  }

  /** A user none of whose rows lie below n has total 0. */
  lemma {:induction false} TotalOfNone<T>(m: map<int, Row<T>>, uid: int, n: nat, amount: T -> int)
    requires forall k :: k in m ==> m[k].userId != uid
    ensures Total(m, uid, n, amount) == 0
  {
    if n > 0 {
      TotalOfNone(m, uid, n - 1, amount);
      TotalStep(m, uid, n - 1, amount);
    }
  }

  /** Inserting a row under the fresh id n raises its owner's total by its
      amount and leaves every other user's total alone. */
  lemma TotalAfterInsert<T>(m: map<int, Row<T>>, uid: int, n: nat, r: Row<T>, amount: T -> int)
    requires forall k :: k in m ==> k < n
    ensures Total(m[n := r], uid, n + 1, amount) ==
            Total(m, uid, n, amount) + (if r.userId == uid then amount(r.data) else 0)
  {
    TotalPointChange(m, m[n := r], uid, n + 1, n, amount);
    TotalStep(m, uid, n, amount);
  }

  /** Removing the row under k lowers its owner's total by its amount and
      leaves every other user's total alone. */
  lemma TotalAfterRemove<T>(m: map<int, Row<T>>, uid: int, n: nat, k: nat, amount: T -> int)
    requires k in m && k < n
    ensures Total(m - {k}, uid, n, amount) ==
            Total(m, uid, n, amount) - (if m[k].userId == uid then amount(m[k].data) else 0)
  {
    TotalPointChange(m, m - {k}, uid, n, k, amount);
  }

  /** Overwriting the row under k swaps its old contribution for the new one. */
  lemma TotalAfterReplace<T>(m: map<int, Row<T>>, uid: int, n: nat, k: nat, r: Row<T>, amount: T -> int)
    requires k in m && k < n
    ensures Total(m[k := r], uid, n, amount) ==
            Total(m, uid, n, amount)
            - (if m[k].userId == uid then amount(m[k].data) else 0)
            + (if r.userId == uid then amount(r.data) else 0)
  {
    TotalPointChange(m, m[k := r], uid, n, k, amount);
  }

  /** Listing a table of a valid store returns exactly uid's rows, each under
      its own id, by ascending id. */
  lemma ListedIsOwnedRows<T>(m: map<int, Row<T>>, uid: int, n: nat)
    requires KeyedBelow(m, n)
    ensures forall i :: 0 <= i < |Listed(m, uid, n)| ==>
      Listed(m, uid, n)[i].userId == uid && Listed(m, uid, n)[i].id in m && m[Listed(m, uid, n)[i].id] == Listed(m, uid, n)[i]
    ensures forall k :: k in m && m[k].userId == uid ==> m[k] in Listed(m, uid, n)
    ensures forall i, j :: 0 <= i < j < |Listed(m, uid, n)| ==> Listed(m, uid, n)[i].id < Listed(m, uid, n)[j].id
  {
    ListedExactly(m, uid, n);
  }

  // ---------- queries ----------

  /** get_user_by_id: the user row whose id column equals id, if any. */
  function UserById(t: Tables, id: int): (r: Option<User>)
    requires t.Valid()
    ensures r.None? <==> forall k :: k in t.users ==> t.users[k].id != id
    ensures r.Some? ==> r.value.id == id && r.value.id in t.users && t.users[r.value.id] == r.value
  {
    if id in t.users then Some(t.users[id]) else None
  }

  /** get_incomes_by_user. */
  function IncomesByUser(t: Tables, uid: int): (rows: seq<Income>)
    requires t.Valid()
    ensures forall i :: 0 <= i < |rows| ==>
      rows[i].userId == uid && rows[i].id in t.incomes && t.incomes[rows[i].id] == rows[i]
    ensures forall k :: k in t.incomes && t.incomes[k].userId == uid ==> t.incomes[k] in rows
    ensures forall i, j :: 0 <= i < j < |rows| ==> rows[i].id < rows[j].id
  {
    ListedIsOwnedRows(t.incomes, uid, t.nextIncomeId);
    Listed(t.incomes, uid, t.nextIncomeId)
  }

  /** get_expenses_by_user. */
  function ExpensesByUser(t: Tables, uid: int): (rows: seq<Expense>)
    requires t.Valid()
    ensures forall i :: 0 <= i < |rows| ==>
      rows[i].userId == uid && rows[i].id in t.expenses && t.expenses[rows[i].id] == rows[i]
    ensures forall k :: k in t.expenses && t.expenses[k].userId == uid ==> t.expenses[k] in rows
    ensures forall i, j :: 0 <= i < j < |rows| ==> rows[i].id < rows[j].id
  {
    ListedIsOwnedRows(t.expenses, uid, t.nextExpenseId);
    Listed(t.expenses, uid, t.nextExpenseId)
  }

  /** get_bill_reminders_by_user. */
  function BillRemindersByUser(t: Tables, uid: int): (rows: seq<BillReminder>)
    requires t.Valid()
    ensures forall i :: 0 <= i < |rows| ==>
      rows[i].userId == uid && rows[i].id in t.reminders && t.reminders[rows[i].id] == rows[i]
    ensures forall k :: k in t.reminders && t.reminders[k].userId == uid ==> t.reminders[k] in rows
    ensures forall i, j :: 0 <= i < j < |rows| ==> rows[i].id < rows[j].id
  {
    ListedIsOwnedRows(t.reminders, uid, t.nextReminderId);
    Listed(t.reminders, uid, t.nextReminderId)
  }

  /** get_categories_by_user. */
  function CategoriesByUser(t: Tables, uid: int): (rows: seq<Category>)
    requires t.Valid()
    ensures forall i :: 0 <= i < |rows| ==>
      rows[i].userId == uid && rows[i].id in t.categories && t.categories[rows[i].id] == rows[i]
    ensures forall k :: k in t.categories && t.categories[k].userId == uid ==> t.categories[k] in rows
    ensures forall i, j :: 0 <= i < j < |rows| ==> rows[i].id < rows[j].id
  {
    ListedIsOwnedRows(t.categories, uid, t.nextCategoryId);
    Listed(t.categories, uid, t.nextCategoryId)
  }

  // ---------- the budget summary ----------

  const WithinBudget: string := "Within Budget"
  const OverBudget: string := "Over Budget"

  function Max(a: int, b: int): int { if a < b then b else a }

  /** The derived fields of get_summary from the two totals. */
  function Summarize(totalIncome: int, totalExpense: int): (s: SummaryResponse)
    ensures s.totalIncome == totalIncome && s.totalExpense == totalExpense
    ensures s.remainingAmount == totalIncome - totalExpense
    ensures s.neededAmount >= 0
    ensures s.neededAmount == Max(0, totalExpense - totalIncome)
    ensures s.remainingAmount + s.neededAmount == Max(s.remainingAmount, 0)
    ensures s.status == WithinBudget <==> s.remainingAmount >= 0
    ensures s.status == OverBudget <==> s.remainingAmount < 0
  {
    var remaining := totalIncome - totalExpense;
    // abs(remaining) when over budget
    var needed := if remaining < 0 then -remaining else 0;
    var status := if remaining >= 0 then WithinBudget else OverBudget;
    SummaryResponse(totalIncome, totalExpense, remaining, needed, status)
  }

  /** get_summary: the totals are the sums over the rows that the list
      queries return for uid, and the rest is derived from them. */
  function Summary(t: Tables, uid: int): (s: SummaryResponse)
    requires t.Valid()
    ensures s.totalIncome == SumOf(IncomesByUser(t, uid), IncomeAmount)
    ensures s.totalExpense == SumOf(ExpensesByUser(t, uid), ExpenseAmount)
    ensures s.remainingAmount == s.totalIncome - s.totalExpense
    ensures s.neededAmount == Max(0, s.totalExpense - s.totalIncome)
    ensures s.status == (if s.remainingAmount >= 0 then WithinBudget else OverBudget)
  {
    Summarize(Total(t.incomes, uid, t.nextIncomeId, IncomeAmount),
              Total(t.expenses, uid, t.nextExpenseId, ExpenseAmount))
  }

  /** A user without incomes or expenses gets 0, 0, 0, 0, "Within Budget". */
  lemma SummaryWithoutRows(t: Tables, uid: int)
    requires t.Valid()
    requires forall k :: k in t.incomes ==> t.incomes[k].userId != uid
    requires forall k :: k in t.expenses ==> t.expenses[k].userId != uid
    ensures Summary(t, uid) == SummaryResponse(0, 0, 0, 0, WithinBudget)
  {
    TotalOfNone(t.incomes, uid, t.nextIncomeId, IncomeAmount);
    TotalOfNone(t.expenses, uid, t.nextExpenseId, ExpenseAmount);
  }

  /** Deleting a user zeroes its summary and leaves every other user's alone. */
  lemma DeleteUserSummaries(t: Tables, uid: int, v: int)
    requires t.Valid()
    ensures DeleteUser(t, uid).Valid()
    ensures Summary(DeleteUser(t, uid), uid) == SummaryResponse(0, 0, 0, 0, WithinBudget)
    ensures v != uid ==> Summary(DeleteUser(t, uid), v) == Summary(t, v)
  {
    var t' := DeleteUser(t, uid);
    DeleteUserPreservesValid(t, uid);
    SummaryWithoutRows(t', uid);
    if v != uid {
      forall k | 0 <= k < t.nextIncomeId
        ensures Contrib(t.incomes, v, k, IncomeAmount) == Contrib(t'.incomes, v, k, IncomeAmount)
      {
      }
      forall k | 0 <= k < t.nextExpenseId
        ensures Contrib(t.expenses, v, k, ExpenseAmount) == Contrib(t'.expenses, v, k, ExpenseAmount)
      {
      }
      TotalByContrib(t.incomes, t'.incomes, v, t.nextIncomeId, IncomeAmount);
      TotalByContrib(t.expenses, t'.expenses, v, t.nextExpenseId, ExpenseAmount);
    }
  }

  /** Deleting a category changes no user's summary. */
  lemma DeleteCategorySummaries(t: Tables, cid: int, v: int)
    requires t.Valid()
    ensures DeleteCategory(t, cid).Valid()
    ensures Summary(DeleteCategory(t, cid), v) == Summary(t, v)
  {
    var t' := DeleteCategory(t, cid);
    DeleteCategoryPreservesValid(t, cid);
    forall k | 0 <= k < t.nextExpenseId
      ensures Contrib(t.expenses, v, k, ExpenseAmount) == Contrib(t'.expenses, v, k, ExpenseAmount)
    {
    }
    TotalByContrib(t.expenses, t'.expenses, v, t.nextExpenseId, ExpenseAmount);
  }

  // ---------- the writes ----------

  /** The user row create_user and register build. */
  function NewUser(id: int, u: UserCreate, passwordHash: string): User
  {
    User(id, u.name, u.phonenumber, u.email, passwordHash, u.profileimage, u.address)
  }

  /** The category row that a constructor limited to the table's columns builds. */
  function NewCategory(id: int, c: CategoryCreate): Category
  {
    Row(id, c.userId, CategoryData(c.base.name, c.base.color))
  }

  /** Category(**category.dict()): the declarative constructor refuses a
      keyword that names no mapped attribute, and the payload always carries
      description and icon, so no row is ever built. */
  function BuildCategory(id: int, c: CategoryCreate): (r: Outcome<Category>)
    ensures r == Rejected(InvalidKeyword)
  {
    CreatePayloadKeys();
    if ConstructorAccepts(CategoryCreateKeys, CategoryAttributes)
    then Ok(NewCategory(id, c))
    else Rejected(InvalidKeyword)
  }

  /** The store as mutable state: one map per table, one counter per table. */
  class Ledger {
    var users: map<int, User>
    var incomes: map<int, Income>
    var expenses: map<int, Expense>
    var categories: map<int, Category>
    var reminders: map<int, BillReminder>
    var nextUserId: nat
    var nextIncomeId: nat
    var nextExpenseId: nat
    var nextCategoryId: nat
    var nextReminderId: nat

    function State(): Tables
      reads this
    {
      Tables(users, incomes, expenses, categories, reminders,
             nextUserId, nextIncomeId, nextExpenseId, nextCategoryId, nextReminderId)
    }

    ghost predicate Valid()
      reads this
    {
      State().Valid()
    }

    constructor ()
      ensures Valid() && State() == EmptyTables()
    {
      users, incomes, expenses, categories, reminders := map[], map[], map[], map[], map[];
      nextUserId, nextIncomeId, nextExpenseId, nextCategoryId, nextReminderId := 1, 1, 1, 1, 1;
    }

    /** db.add of a new user row and commit; the store refuses a duplicate
        email or phone number and over-long text. */
    method InsertUser(u: UserCreate, passwordHash: string) returns (r: Outcome<User>)
      requires Valid()
      modifies this
      ensures Valid()
      ensures var t := old(State()); var row := NewUser(t.nextUserId, u, passwordHash);
        if UserAdmissible(t.users, row)
        then r == Ok(row) && row.id !in t.users &&
             State() == t.(users := t.users[row.id := row], nextUserId := row.id + 1)
        else r == Rejected(ConstraintViolation) && State() == t
    {
      var row := NewUser(nextUserId, u, passwordHash);
      if UserFits(row) && !EmailInUse(users, row.email) && !PhoneInUse(users, row.phonenumber) {
        users := users[row.id := row];
        nextUserId := nextUserId + 1;
        r := Ok(row);
      } else {
        r := Rejected(ConstraintViolation);
      }
    }

    /** create_user: the given password is stored as password_hash as it is. */
    method CreateUser(u: UserCreate) returns (r: Outcome<User>)
      requires Valid()
      modifies this
      ensures Valid()
      ensures var t := old(State()); var row := NewUser(t.nextUserId, u, u.password);
        if UserAdmissible(t.users, row)
        then r == Ok(row) && r.value.passwordHash == u.password &&
             State() == t.(users := t.users[row.id := row], nextUserId := row.id + 1)
        else r == Rejected(ConstraintViolation) && State() == t
    {
      r := InsertUser(u, u.password);
    }

    /** create_income. */
    method CreateIncome(c: IncomeCreate) returns (r: Outcome<Income>)
      requires Valid()
      modifies this
      ensures Valid()
      ensures var t := old(State()); var row := Row(t.nextIncomeId, c.userId, c.base);
        if c.userId in t.users && IncomeFits(c.base)
        then r == Ok(row) && row.id !in t.incomes &&
             State() == t.(incomes := t.incomes[row.id := row], nextIncomeId := row.id + 1)
        else r == Rejected(ConstraintViolation) && State() == t
    {
      if c.userId in users && IncomeFits(c.base) {
        var row := Row(nextIncomeId, c.userId, c.base);
        incomes := incomes[row.id := row];
        nextIncomeId := nextIncomeId + 1;
        r := Ok(row);
      } else {
        r := Rejected(ConstraintViolation);
      }
    }

    /** update_income: every field of the payload is overwritten; id and
        user_id are not in the payload and stay. */
    method UpdateIncome(id: int, b: IncomeBase) returns (r: Outcome<Income>)
      requires Valid()
      modifies this
      ensures Valid()
      ensures var t := old(State());
        if id !in t.incomes then r == NotFound && State() == t
        else if !IncomeFits(b) then r == Rejected(ConstraintViolation) && State() == t
        else r == Ok(Row(id, t.incomes[id].userId, b)) &&
             State() == t.(incomes := t.incomes[id := r.value])
    {
      if id !in incomes {
        r := NotFound;
      } else if !IncomeFits(b) {
        r := Rejected(ConstraintViolation);
      } else {
        var row := incomes[id].(data := b);
        incomes := incomes[id := row];
        r := Ok(row);
      }
    }

    /** delete_income: returns the row as it was. */
    method DeleteIncome(id: int) returns (r: Outcome<Income>)
      requires Valid()
      modifies this
      ensures Valid()
      ensures var t := old(State());
        if id !in t.incomes then r == NotFound && State() == t
        else r == Ok(t.incomes[id]) && State() == t.(incomes := t.incomes - {id})
    {
      if id !in incomes {
        r := NotFound;
      } else {
        r := Ok(incomes[id]);
        incomes := incomes - {id};
      }
    }

    /** The checks the expenses table applies to an owner and its fields. */
    predicate ExpenseAdmissible(c: ExpenseCreate)
      reads this
    {
      c.userId in users && ExpenseFits(c.base) && CategoryRefOk(c.base.categoryId, categories)
    }

    /** create_expense. */
    method CreateExpense(c: ExpenseCreate) returns (r: Outcome<Expense>)
      requires Valid()
      modifies this
      ensures Valid()
      ensures var t := old(State()); var row := Row(t.nextExpenseId, c.userId, c.base);
        if old(ExpenseAdmissible(c))
        then r == Ok(row) && row.id !in t.expenses &&
             State() == t.(expenses := t.expenses[row.id := row], nextExpenseId := row.id + 1)
        else r == Rejected(ConstraintViolation) && State() == t
    {
      if ExpenseAdmissible(c) {
        var row := Row(nextExpenseId, c.userId, c.base);
        expenses := expenses[row.id := row];
        nextExpenseId := nextExpenseId + 1;
        r := Ok(row);
      } else {
        r := Rejected(ConstraintViolation);
      }
    }

    /** update_expense: the payload is ExpenseCreate, so user_id is
        overwritten too; only the id stays. */
    method UpdateExpense(id: int, c: ExpenseCreate) returns (r: Outcome<Expense>)
      requires Valid()
      modifies this
      ensures Valid()
      ensures var t := old(State());
        if id !in t.expenses then r == NotFound && State() == t
        else if !old(ExpenseAdmissible(c)) then r == Rejected(ConstraintViolation) && State() == t
        else r == Ok(Row(id, c.userId, c.base)) &&
             State() == t.(expenses := t.expenses[id := r.value])
    {
      if id !in expenses {
        r := NotFound;
      } else if !ExpenseAdmissible(c) {
        r := Rejected(ConstraintViolation);
      } else {
        var row := expenses[id].(userId := c.userId, data := c.base);
        expenses := expenses[id := row];
        r := Ok(row);
      }
    }

    /** delete_expense: returns the row as it was. */
    method DeleteExpense(id: int) returns (r: Outcome<Expense>)
      requires Valid()
      modifies this
      ensures Valid()
      ensures var t := old(State());
        if id !in t.expenses then r == NotFound && State() == t
        else r == Ok(t.expenses[id]) && State() == t.(expenses := t.expenses - {id})
    {
      if id !in expenses {
        r := NotFound;
      } else {
        r := Ok(expenses[id]);
        expenses := expenses - {id};
      }
    }

    /** create_bill_reminder: a null status is stored as "pending". */
    method CreateBillReminder(c: BillReminderCreate) returns (r: Outcome<BillReminder>)
      requires Valid()
      modifies this
      ensures Valid()
      ensures var t := old(State()); var row := Row(t.nextReminderId, c.userId, InsertedReminder(c.base));
        if c.userId in t.users && BillReminderFits(c.base)
        then r == Ok(row) && row.id !in t.reminders &&
             State() == t.(reminders := t.reminders[row.id := row], nextReminderId := row.id + 1)
        else r == Rejected(ConstraintViolation) && State() == t
    {
      if c.userId in users && BillReminderFits(c.base) {
        var row := Row(nextReminderId, c.userId, InsertedReminder(c.base));
        reminders := reminders[row.id := row];
        nextReminderId := nextReminderId + 1;
        r := Ok(row);
      } else {
        r := Rejected(ConstraintViolation);
      }
    }

    /** update_bill_reminder: every payload field is overwritten, status
        included (an update writes a null status as null); id and user_id stay. */
    method UpdateBillReminder(id: int, b: BillReminderBase) returns (r: Outcome<BillReminder>)
      requires Valid()
      modifies this
      ensures Valid()
      ensures var t := old(State());
        if id !in t.reminders then r == NotFound && State() == t
        else if !BillReminderFits(b) then r == Rejected(ConstraintViolation) && State() == t
        else r == Ok(Row(id, t.reminders[id].userId, b)) &&
             State() == t.(reminders := t.reminders[id := r.value])
    {
      if id !in reminders {
        r := NotFound;
      } else if !BillReminderFits(b) {
        r := Rejected(ConstraintViolation);
      } else {
        var row := reminders[id].(data := b);
        reminders := reminders[id := row];
        r := Ok(row);
      }
    }

    /** delete_bill_reminder: returns the row as it was. */
    method DeleteBillReminder(id: int) returns (r: Outcome<BillReminder>)
      requires Valid()
      modifies this
      ensures Valid()
      ensures var t := old(State());
        if id !in t.reminders then r == NotFound && State() == t
        else r == Ok(t.reminders[id]) && State() == t.(reminders := t.reminders - {id})
    {
      if id !in reminders {
        r := NotFound;
      } else {
        r := Ok(reminders[id]);
        reminders := reminders - {id};
      }
    }

    /** db.add of a new category row and commit; the store refuses an
        unknown owner and over-long text. */
    method AddCategory(row: Category) returns (r: Outcome<Category>)
      requires Valid() && row.id == nextCategoryId
      modifies this
      ensures Valid()
      ensures var t := old(State());
        if row.userId in t.users && CategoryFits(row.data)
        then r == Ok(row) && row.id !in t.categories &&
             State() == t.(categories := t.categories[row.id := row], nextCategoryId := row.id + 1)
        else r == Rejected(ConstraintViolation) && State() == t
    {
      if row.userId in users && CategoryFits(row.data) {
        categories := categories[row.id := row];
        nextCategoryId := nextCategoryId + 1;
        r := Ok(row);
      } else {
        r := Rejected(ConstraintViolation);
      }
    }

    /** create_category as written: the constructor raises, so db.add and
        commit are never reached; every request is refused and the store is
        left as it was. */
    method CreateCategoryAsWritten(c: CategoryCreate) returns (r: Outcome<Category>)
      requires Valid()
      modifies this
      ensures Valid()
      ensures r == Rejected(InvalidKeyword) && State() == old(State())
    {
      r := BuildCategory(nextCategoryId, c);
    }

    /** create_category as evidently intended: the row takes name, color and
        user_id from the payload; description and icon have no column. */
    method CreateCategory(c: CategoryCreate) returns (r: Outcome<Category>)
      requires Valid()
      modifies this
      ensures Valid()
      ensures var t := old(State()); var row := NewCategory(t.nextCategoryId, c);
        if c.userId in t.users && CategoryFits(row.data)
        then r == Ok(row) && row.id !in t.categories &&
             State() == t.(categories := t.categories[row.id := row], nextCategoryId := row.id + 1)
        else r == Rejected(ConstraintViolation) && State() == t
    {
      r := AddCategory(NewCategory(nextCategoryId, c));
    }
  }
}
