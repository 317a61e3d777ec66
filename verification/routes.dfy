/** The route handlers of app/routes.py. The caller's identity, which the
    original resolves from a bearer token, is the plain parameter currentUser;
    outcomes are NotFound (404), Rejected(EmailTaken) (400) and, for a commit
    the store refuses, Rejected(ConstraintViolation). */
module Routes {
  import opened Results
  import opened Schemas
  import opened Models
  import opened Crud

  // ---------- ownership guards ----------

  /** The row lookup by id and user_id that the income handlers make first. */
  predicate OwnsIncome(t: Tables, incomeId: int, caller: int)
  {
    incomeId in t.incomes && t.incomes[incomeId].userId == caller
  }

  /** The same lookup for bill reminders. */
  predicate OwnsBillReminder(t: Tables, reminderId: int, caller: int)
  {
    reminderId in t.reminders && t.reminders[reminderId].userId == caller
  }

  /** The same lookup for expenses, which the expense handlers do not make. */
  predicate OwnsExpense(t: Tables, expenseId: int, caller: int)
  {
    expenseId in t.expenses && t.expenses[expenseId].userId == caller
  }

  // ---------- users ----------

  /** GET /users/{user_id}. */
  function ReadUser(ledger: Ledger, userId: int): (r: Outcome<User>)
    reads ledger
    requires ledger.Valid()
    ensures r.NotFound? <==> forall k :: k in ledger.users ==> ledger.users[k].id != userId
    ensures r.Ok? ==> r.value.id == userId && userId in ledger.users && ledger.users[userId] == r.value
    ensures !r.Rejected?
  {
    match UserById(ledger.State(), userId)
    case None => NotFound
    case Some(u) => Ok(u)
  }

  /** POST /users/: hands the body to create_user. */
  method CreateUser(ledger: Ledger, user: UserCreate) returns (r: Outcome<User>)
    requires ledger.Valid()
    modifies ledger
    ensures ledger.Valid()
    ensures var t := old(ledger.State()); var row := NewUser(t.nextUserId, user, user.password);
      if UserAdmissible(t.users, row)
      then r == Ok(row) && ledger.State() == t.(users := t.users[row.id := row], nextUserId := row.id + 1)
      else r == Rejected(ConstraintViolation) && ledger.State() == t
  {
    r := ledger.CreateUser(user);
  }

  /** POST /register: refuses an email already on file before touching the
      store; otherwise adds one user whose password_hash is hashed, the value
      the password hasher returned for user.password. */
  method Register(ledger: Ledger, user: UserCreate, hashed: string) returns (r: Outcome<User>)
    requires ledger.Valid()
    modifies ledger
    ensures ledger.Valid()
    ensures var t := old(ledger.State()); var row := NewUser(t.nextUserId, user, hashed);
      if EmailInUse(t.users, user.email) then r == Rejected(EmailTaken) && ledger.State() == t
      else if UserAdmissible(t.users, row)
      then r == Ok(row) && r.value.passwordHash == hashed &&
           ledger.State() == t.(users := t.users[row.id := row], nextUserId := row.id + 1)
      else r == Rejected(ConstraintViolation) && ledger.State() == t
  {
    if EmailInUse(ledger.users, user.email) {
      r := Rejected(EmailTaken);
    } else {
      r := ledger.InsertUser(user, hashed);
    }
  }

  // ---------- incomes ----------

  /** POST /incomes/: the owner is the caller, never the body. */
  method CreateIncome(ledger: Ledger, currentUser: int, income: IncomeBase) returns (r: Outcome<Income>)
    requires ledger.Valid()
    modifies ledger
    ensures ledger.Valid()
    ensures r.Ok? ==> r.value.userId == currentUser && r.value.data == income
    ensures var t := old(ledger.State()); var row := Row(t.nextIncomeId, currentUser, income);
      if currentUser in t.users && IncomeFits(income)
      then r == Ok(row) && ledger.State() == t.(incomes := t.incomes[row.id := row], nextIncomeId := row.id + 1)
      else r == Rejected(ConstraintViolation) && ledger.State() == t
  {
    r := ledger.CreateIncome(IncomeCreate(income, currentUser));
  }

  /** GET /incomes/: the caller's incomes and no one else's. */
  function GetIncomes(ledger: Ledger, currentUser: int): (rows: seq<Income>)
    reads ledger
    requires ledger.Valid()
    ensures forall i :: 0 <= i < |rows| ==> rows[i].userId == currentUser && rows[i] in ledger.incomes.Values
    ensures forall k :: k in ledger.incomes && ledger.incomes[k].userId == currentUser ==> ledger.incomes[k] in rows
    ensures forall i, j :: 0 <= i < j < |rows| ==> rows[i].id < rows[j].id
  {
    IncomesByUser(ledger.State(), currentUser)
  }

  /** PUT /incomes/{income_id}: not found unless the caller owns the income. */
  method UpdateIncome(ledger: Ledger, currentUser: int, incomeId: int, income: IncomeBase) returns (r: Outcome<Income>)
    requires ledger.Valid()
    modifies ledger
    ensures ledger.Valid()
    ensures var t := old(ledger.State());
      if !OwnsIncome(t, incomeId, currentUser) then r == NotFound && ledger.State() == t
      else if !IncomeFits(income) then r == Rejected(ConstraintViolation) && ledger.State() == t
      else r == Ok(Row(incomeId, currentUser, income)) &&
           ledger.State() == t.(incomes := t.incomes[incomeId := r.value])
  {
    if !OwnsIncome(ledger.State(), incomeId, currentUser) {
      r := NotFound;
    } else {
      r := ledger.UpdateIncome(incomeId, income);
    }
  }

  /** DELETE /incomes/{income_id}: not found unless the caller owns the income. */
  method DeleteIncome(ledger: Ledger, currentUser: int, incomeId: int) returns (r: Outcome<Income>)
    requires ledger.Valid()
    modifies ledger
    ensures ledger.Valid()
    ensures var t := old(ledger.State());
      if !OwnsIncome(t, incomeId, currentUser) then r == NotFound && ledger.State() == t
      else r == Ok(t.incomes[incomeId]) && ledger.State() == t.(incomes := t.incomes - {incomeId})
  {
    if !OwnsIncome(ledger.State(), incomeId, currentUser) {
      r := NotFound;
    } else {
      r := ledger.DeleteIncome(incomeId);
    }
  }

  /** PUT /incomes/{income_id} from the body as sent: a source the client
      leaves out is null in the payload, so the update clears it. */
  method UpdateIncomeFromBody(ledger: Ledger, currentUser: int, incomeId: int,
                              amount: int, source: Supplied<Option<string>>, receivedDate: Date)
    returns (r: Outcome<Income>)
    requires ledger.Valid()
    modifies ledger
    ensures ledger.Valid()
    ensures !OwnsIncome(old(ledger.State()), incomeId, currentUser) ==> r == NotFound
    ensures var t := old(ledger.State()); var b := IncomeBody(amount, source, receivedDate);
      if !OwnsIncome(t, incomeId, currentUser) then r == NotFound && ledger.State() == t
      else if !IncomeFits(b) then r == Rejected(ConstraintViolation) && ledger.State() == t
      else r == Ok(Row(incomeId, currentUser, b)) && ledger.State() == t.(incomes := t.incomes[incomeId := r.value])
    ensures r.Ok? ==> incomeId in ledger.incomes && ledger.incomes[incomeId] == r.value && r.value.userId == currentUser
    ensures r.Ok? ==> r.value.data.amount == amount && r.value.data.receivedDate == receivedDate
    ensures r.Ok? && source.Omitted? ==> r.value.data.source == None
    ensures r.Ok? && source.Given? ==> r.value.data.source == source.value
  {
    r := UpdateIncome(ledger, currentUser, incomeId, IncomeBody(amount, source, receivedDate));
  }

  // ---------- expenses ----------

  /** POST /expenses/: the owner is the caller. */
  method CreateExpense(ledger: Ledger, currentUser: int, expense: ExpenseBase) returns (r: Outcome<Expense>)
    requires ledger.Valid()
    modifies ledger
    ensures ledger.Valid()
    ensures r.Ok? ==> r.value.userId == currentUser && r.value.data == expense
    ensures var t := old(ledger.State()); var row := Row(t.nextExpenseId, currentUser, expense);
      if currentUser in t.users && ExpenseFits(expense) && CategoryRefOk(expense.categoryId, t.categories)
      then r == Ok(row) && ledger.State() == t.(expenses := t.expenses[row.id := row], nextExpenseId := row.id + 1)
      else r == Rejected(ConstraintViolation) && ledger.State() == t
  {
    r := ledger.CreateExpense(ExpenseCreate(expense, currentUser));
  }

  /** GET /expenses/: the caller's expenses and no one else's. */
  function GetExpenses(ledger: Ledger, currentUser: int): (rows: seq<Expense>)
    reads ledger
    requires ledger.Valid()
    ensures forall i :: 0 <= i < |rows| ==> rows[i].userId == currentUser && rows[i] in ledger.expenses.Values
    ensures forall k :: k in ledger.expenses && ledger.expenses[k].userId == currentUser ==> ledger.expenses[k] in rows
    ensures forall i, j :: 0 <= i < j < |rows| ==> rows[i].id < rows[j].id
  {
    ExpensesByUser(ledger.State(), currentUser)
  }

  /** PUT /expenses/{expense_id} as written: no caller, no owner check, and
      the body's user_id becomes the owner. Not found only for an absent id. */
  method UpdateExpense(ledger: Ledger, expenseId: int, expense: ExpenseCreate) returns (r: Outcome<Expense>)
    requires ledger.Valid()
    modifies ledger
    ensures ledger.Valid()
    ensures var t := old(ledger.State());
      if expenseId !in t.expenses then r == NotFound && ledger.State() == t
      else if !(expense.userId in t.users && ExpenseFits(expense.base) && CategoryRefOk(expense.base.categoryId, t.categories))
      then r == Rejected(ConstraintViolation) && ledger.State() == t
      else r == Ok(Row(expenseId, expense.userId, expense.base)) &&
           ledger.State() == t.(expenses := t.expenses[expenseId := r.value])
  {
    r := ledger.UpdateExpense(expenseId, expense);
  }

  /** DELETE /expenses/{expense_id} as written: no caller and no owner check. */
  method DeleteExpense(ledger: Ledger, expenseId: int) returns (r: Outcome<Expense>)
    requires ledger.Valid()
    modifies ledger
    ensures ledger.Valid()
    ensures var t := old(ledger.State());
      if expenseId !in t.expenses then r == NotFound && ledger.State() == t
      else r == Ok(t.expenses[expenseId]) && ledger.State() == t.(expenses := t.expenses - {expenseId})
  {
    r := ledger.DeleteExpense(expenseId);
  }

  /** PUT /expenses/{expense_id} as written, from the body as sent: a
      category the client leaves out is null in the payload, so the update
      clears it, and the body's user_id becomes the owner. */
  method UpdateExpenseFromBody(ledger: Ledger, expenseId: int, title: string, amount: int,
                               expenseDate: Date, categoryId: Supplied<Option<int>>, userId: int)
    returns (r: Outcome<Expense>)
    requires ledger.Valid()
    modifies ledger
    ensures ledger.Valid()
    ensures expenseId !in old(ledger.expenses) ==> r == NotFound
    ensures var t := old(ledger.State()); var b := ExpenseBody(title, amount, expenseDate, categoryId);
      if expenseId !in t.expenses then r == NotFound && ledger.State() == t
      else if !(userId in t.users && ExpenseFits(b) && CategoryRefOk(b.categoryId, t.categories))
      then r == Rejected(ConstraintViolation) && ledger.State() == t
      else r == Ok(Row(expenseId, userId, b)) && ledger.State() == t.(expenses := t.expenses[expenseId := r.value])
    ensures r.Ok? ==> expenseId in ledger.expenses && ledger.expenses[expenseId] == r.value && r.value.userId == userId
    ensures r.Ok? ==> r.value.data.title == title && r.value.data.amount == amount && r.value.data.expenseDate == expenseDate
    ensures r.Ok? && categoryId.Omitted? ==> r.value.data.categoryId == None
    ensures r.Ok? && categoryId.Given? ==> r.value.data.categoryId == categoryId.value
  {
    r := UpdateExpense(ledger, expenseId, ExpenseCreate(ExpenseBody(title, amount, expenseDate, categoryId), userId));
  }

  /** PUT /expenses/{expense_id} as the income and reminder handlers do it:
      not found unless the caller owns the expense, and the owner stays. */
  method UpdateOwnExpense(ledger: Ledger, currentUser: int, expenseId: int, expense: ExpenseBase) returns (r: Outcome<Expense>)
    requires ledger.Valid()
    modifies ledger
    ensures ledger.Valid()
    ensures var t := old(ledger.State());
      if !OwnsExpense(t, expenseId, currentUser) then r == NotFound && ledger.State() == t
      else if !(ExpenseFits(expense) && CategoryRefOk(expense.categoryId, t.categories))
      then r == Rejected(ConstraintViolation) && ledger.State() == t
      else r == Ok(Row(expenseId, currentUser, expense)) &&
           ledger.State() == t.(expenses := t.expenses[expenseId := r.value])
  {
    if !OwnsExpense(ledger.State(), expenseId, currentUser) {
      r := NotFound;
    } else {
      r := ledger.UpdateExpense(expenseId, ExpenseCreate(expense, currentUser));
    }
  }

  /** DELETE /expenses/{expense_id} with the owner check. */
  method DeleteOwnExpense(ledger: Ledger, currentUser: int, expenseId: int) returns (r: Outcome<Expense>)
    requires ledger.Valid()
    modifies ledger
    ensures ledger.Valid()
    ensures var t := old(ledger.State());
      if !OwnsExpense(t, expenseId, currentUser) then r == NotFound && ledger.State() == t
      else r == Ok(t.expenses[expenseId]) && ledger.State() == t.(expenses := t.expenses - {expenseId})
  {
    if !OwnsExpense(ledger.State(), expenseId, currentUser) {
      r := NotFound;
    } else {
      r := ledger.DeleteExpense(expenseId);
    }
  }

  // ---------- bill reminders ----------

  /** POST /bill-reminders/: the owner is the caller. */
  method CreateBillReminder(ledger: Ledger, currentUser: int, reminder: BillReminderBase) returns (r: Outcome<BillReminder>)
    requires ledger.Valid()
    modifies ledger
    ensures ledger.Valid()
    ensures r.Ok? ==> r.value.userId == currentUser && r.value.data.status.Some?
    ensures var t := old(ledger.State()); var row := Row(t.nextReminderId, currentUser, InsertedReminder(reminder));
      if currentUser in t.users && BillReminderFits(reminder)
      then r == Ok(row) && ledger.State() == t.(reminders := t.reminders[row.id := row], nextReminderId := row.id + 1)
      else r == Rejected(ConstraintViolation) && ledger.State() == t
  {
    r := ledger.CreateBillReminder(BillReminderCreate(reminder, currentUser));
  }

  /** GET /bill-reminders/: the caller's reminders and no one else's. */
  function GetBillReminders(ledger: Ledger, currentUser: int): (rows: seq<BillReminder>)
    reads ledger
    requires ledger.Valid()
    ensures forall i :: 0 <= i < |rows| ==> rows[i].userId == currentUser && rows[i] in ledger.reminders.Values
    ensures forall k :: k in ledger.reminders && ledger.reminders[k].userId == currentUser ==> ledger.reminders[k] in rows
    ensures forall i, j :: 0 <= i < j < |rows| ==> rows[i].id < rows[j].id
  {
    BillRemindersByUser(ledger.State(), currentUser)
  }

  /** PUT /bill-reminders/{reminder_id}: not found unless the caller owns it. */
  method UpdateBillReminder(ledger: Ledger, currentUser: int, reminderId: int, reminder: BillReminderBase)
    returns (r: Outcome<BillReminder>)
    requires ledger.Valid()
    modifies ledger
    ensures ledger.Valid()
    ensures var t := old(ledger.State());
      if !OwnsBillReminder(t, reminderId, currentUser) then r == NotFound && ledger.State() == t
      else if !BillReminderFits(reminder) then r == Rejected(ConstraintViolation) && ledger.State() == t
      else r == Ok(Row(reminderId, currentUser, reminder)) &&
           ledger.State() == t.(reminders := t.reminders[reminderId := r.value])
  {
    if !OwnsBillReminder(ledger.State(), reminderId, currentUser) {
      r := NotFound;
    } else {
      r := ledger.UpdateBillReminder(reminderId, reminder);
    }
  }

  /** PUT /bill-reminders/{reminder_id} from the body as sent: a status the
      client leaves out is "pending" in the payload, so the update resets it;
      an omitted repeat_cycle or notes is cleared. */
  method UpdateBillReminderFromBody(ledger: Ledger, currentUser: int, reminderId: int,
                                    title: string, amount: int, dueDate: Date,
                                    repeatCycle: Supplied<Option<string>>,
                                    status: Supplied<Option<string>>,
                                    notes: Supplied<Option<string>>)
    returns (r: Outcome<BillReminder>)
    requires ledger.Valid()
    modifies ledger
    ensures ledger.Valid()
    ensures !OwnsBillReminder(old(ledger.State()), reminderId, currentUser) ==> r == NotFound
    ensures var t := old(ledger.State()); var b := BillReminderBody(title, amount, dueDate, repeatCycle, status, notes);
      if !OwnsBillReminder(t, reminderId, currentUser) then r == NotFound && ledger.State() == t
      else if !BillReminderFits(b) then r == Rejected(ConstraintViolation) && ledger.State() == t
      else r == Ok(Row(reminderId, currentUser, b)) && ledger.State() == t.(reminders := t.reminders[reminderId := r.value])
    ensures r.Ok? ==> reminderId in ledger.reminders && ledger.reminders[reminderId] == r.value && r.value.userId == currentUser
    ensures r.Ok? ==> r.value.data.title == title && r.value.data.amount == amount && r.value.data.dueDate == dueDate
    ensures r.Ok? && status.Omitted? ==> r.value.data.status == Some(Pending)
    ensures r.Ok? && status.Given? ==> r.value.data.status == status.value
    ensures r.Ok? && repeatCycle.Omitted? ==> r.value.data.repeatCycle == None
    ensures r.Ok? && notes.Omitted? ==> r.value.data.notes == None
  {
    r := UpdateBillReminder(ledger, currentUser, reminderId,
      BillReminderBody(title, amount, dueDate, repeatCycle, status, notes));
  }

  /** DELETE /bill-reminders/{reminder_id}: not found unless the caller owns it. */
  method DeleteBillReminder(ledger: Ledger, currentUser: int, reminderId: int) returns (r: Outcome<BillReminder>)
    requires ledger.Valid()
    modifies ledger
    ensures ledger.Valid()
    ensures var t := old(ledger.State());
      if !OwnsBillReminder(t, reminderId, currentUser) then r == NotFound && ledger.State() == t
      else r == Ok(t.reminders[reminderId]) && ledger.State() == t.(reminders := t.reminders - {reminderId})
  {
    if !OwnsBillReminder(ledger.State(), reminderId, currentUser) {
      r := NotFound;
    } else {
      r := ledger.DeleteBillReminder(reminderId);
    }
  }

  // ---------- categories and summary ----------

  /** POST /categories/ as written: no caller, and the repository create
      refuses every payload, so nothing is added. */
  method CreateCategory(ledger: Ledger, category: CategoryCreate) returns (r: Outcome<Category>)
    requires ledger.Valid()
    modifies ledger
    ensures ledger.Valid()
    ensures r == Rejected(InvalidKeyword) && ledger.State() == old(ledger.State())
  {
    r := ledger.CreateCategoryAsWritten(category);
  }

  /** POST /categories/ over the corrected repository create: still no
      caller, so the owner comes from the body. */
  method CreateMappedCategory(ledger: Ledger, category: CategoryCreate) returns (r: Outcome<Category>)
    requires ledger.Valid()
    modifies ledger
    ensures ledger.Valid()
    ensures r.Ok? ==> r.value.userId == category.userId
    ensures var t := old(ledger.State()); var row := NewCategory(t.nextCategoryId, category);
      if category.userId in t.users && CategoryFits(row.data)
      then r == Ok(row) && ledger.State() == t.(categories := t.categories[row.id := row], nextCategoryId := row.id + 1)
      else r == Rejected(ConstraintViolation) && ledger.State() == t
  {
    r := ledger.CreateCategory(category);
  }

  /** GET /categories/user/{user_id}: no caller; any user's categories. */
  function GetCategories(ledger: Ledger, userId: int): (rows: seq<Category>)
    reads ledger
    requires ledger.Valid()
    ensures forall i :: 0 <= i < |rows| ==> rows[i].userId == userId && rows[i] in ledger.categories.Values
    ensures forall k :: k in ledger.categories && ledger.categories[k].userId == userId ==> ledger.categories[k] in rows
    ensures forall i, j :: 0 <= i < j < |rows| ==> rows[i].id < rows[j].id
  {
    CategoriesByUser(ledger.State(), userId)
  }

  /** GET /summary/: the caller's summary. */
  function GetFinancialSummary(ledger: Ledger, currentUser: int): (s: SummaryResponse)
    reads ledger
    requires ledger.Valid()
    ensures s.totalIncome == SumOf(GetIncomes(ledger, currentUser), IncomeAmount)
    ensures s.totalExpense == SumOf(GetExpenses(ledger, currentUser), ExpenseAmount)
    ensures s.remainingAmount == s.totalIncome - s.totalExpense
    ensures s.neededAmount == Max(0, -s.remainingAmount)
    ensures s.status == (if s.remainingAmount >= 0 then WithinBudget else OverBudget)
  {
    Summary(ledger.State(), currentUser)
  }
}
