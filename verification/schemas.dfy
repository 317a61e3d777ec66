/** The request and response bodies of app/schemas.py. Every amount is a
    whole number of cents; the float fields of the original become int here. */
module Schemas {
  import opened Results

  /** A calendar date (no time of day). */
  datatype Date = Date(year: int, month: int, day: int)

  /** UserCreate: UserBase plus the clear-text password. */
  datatype UserCreate = UserCreate(
    name: string,
    phonenumber: string,
    email: string,
    address: Option<string>,
    profileimage: Option<string>,
    password: string)

  /** IncomeBase: the income update payload. It has no user_id. */
  datatype IncomeBase = IncomeBase(amount: int, source: Option<string>, receivedDate: Date)

  /** IncomeCreate: IncomeBase plus the owner. */
  datatype IncomeCreate = IncomeCreate(base: IncomeBase, userId: int)

  /** ExpenseBase: the fields a client sends when creating an expense. */
  datatype ExpenseBase = ExpenseBase(title: string, amount: int, expenseDate: Date, categoryId: Option<int>)

  /** ExpenseCreate: ExpenseBase plus the owner; also the expense update payload. */
  datatype ExpenseCreate = ExpenseCreate(base: ExpenseBase, userId: int)

  /** BillReminderBase: the reminder update payload. It has no user_id. */
  datatype BillReminderBase = BillReminderBase(
    title: string,
    amount: int,
    dueDate: Date,
    repeatCycle: Option<string>,
    status: Option<string>,
    notes: Option<string>)

  /** BillReminderCreate: BillReminderBase plus the owner. */
  datatype BillReminderCreate = BillReminderCreate(base: BillReminderBase, userId: int)

  /** CategoryBase: carries description and icon, which the categories table lacks. */
  datatype CategoryBase = CategoryBase(
    name: string,
    description: Option<string>,
    icon: Option<string>,
    color: Option<string>)

  /** CategoryCreate: CategoryBase plus the owner, taken from the request body. */
  datatype CategoryCreate = CategoryCreate(base: CategoryBase, userId: int)

  /** SummaryResponse: exactly five fields. */
  datatype SummaryResponse = SummaryResponse(
    totalIncome: int,
    totalExpense: int,
    remainingAmount: int,
    neededAmount: int,
    status: string)

  /** The default reminder status, in the schema and in the table. */
  const Pending: string := "pending"

  function IncomeAmount(d: IncomeBase): int { d.amount }

  function ExpenseAmount(d: ExpenseBase): int { d.amount }

  /** An IncomeBase as parsed from a body: an omitted source becomes null. */
  function IncomeBody(amount: int, source: Supplied<Option<string>>, receivedDate: Date): (b: IncomeBase)
    ensures b.amount == amount && b.receivedDate == receivedDate
    ensures source.Omitted? ==> b.source == None
    ensures source.Given? ==> b.source == source.value
  {
    IncomeBase(amount, OrDefault(source, None), receivedDate)
  }

  /** An ExpenseBase as parsed from a body: an omitted category becomes null. */
  function ExpenseBody(title: string, amount: int, expenseDate: Date, categoryId: Supplied<Option<int>>): (b: ExpenseBase)
    ensures b.title == title && b.amount == amount && b.expenseDate == expenseDate
    ensures categoryId.Omitted? ==> b.categoryId == None
    ensures categoryId.Given? ==> b.categoryId == categoryId.value
  {
    ExpenseBase(title, amount, expenseDate, OrDefault(categoryId, None))
  }

  /** A BillReminderBase as parsed from a body: omitted repeat_cycle and notes
      become null, an omitted status becomes "pending"; an explicit null
      status stays null. */
  function BillReminderBody(
    title: string, amount: int, dueDate: Date,
    repeatCycle: Supplied<Option<string>>,
    status: Supplied<Option<string>>,
    notes: Supplied<Option<string>>): (b: BillReminderBase)
    ensures b.title == title && b.amount == amount && b.dueDate == dueDate
    ensures repeatCycle.Omitted? ==> b.repeatCycle == None
    ensures notes.Omitted? ==> b.notes == None
    ensures status.Omitted? ==> b.status == Some(Pending)
    ensures status.Given? ==> b.status == status.value
    ensures repeatCycle.Given? ==> b.repeatCycle == repeatCycle.value
    ensures notes.Given? ==> b.notes == notes.value
  {
    BillReminderBase(title, amount, dueDate,
      OrDefault(repeatCycle, None), OrDefault(status, Some(Pending)), OrDefault(notes, None))
  }

  /** The keys of each create payload's dict(), which the repository spreads
      into the mapped class's constructor. */
  const IncomeCreateKeys: set<string> := {"amount", "source", "received_date", "user_id"}
  const ExpenseCreateKeys: set<string> := {"title", "amount", "expense_date", "category_id", "user_id"}
  const BillReminderCreateKeys: set<string> :=
    {"title", "amount", "due_date", "repeat_cycle", "status", "notes", "user_id"}
  const CategoryCreateKeys: set<string> := {"name", "description", "icon", "color", "user_id"}
}
