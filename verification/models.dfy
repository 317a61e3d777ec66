/** The tables of app/models.py: row types, column constraints, the
    referential rules between tables, and the store as a whole. */
module Models {
  import opened Results
  import opened Schemas

  /** A row of the users table. */
  datatype User = User(
    id: int,
    name: string,
    phonenumber: string,
    email: string,
    passwordHash: string,
    profileimage: Option<string>,
    address: Option<string>)

  /** A row owned by a user: its primary key, its non-null owner and its
      remaining columns. */
  datatype Row<T> = Row(id: int, userId: int, data: T)

  /** The categories table has only name and color beside id and owner. */
  datatype CategoryData = CategoryData(name: string, color: Option<string>)

  /** The incomes, expenses and bill_reminders columns coincide with the
      fields of the matching *Base schema. */
  type Income = Row<IncomeBase>
  type Expense = Row<ExpenseBase>
  type BillReminder = Row<BillReminderBase>
  type Category = Row<CategoryData>

  // ---------- column constraints ----------

  /** Numeric(10, 2): ten digits, two of them after the point, so a stored
      amount is at most 99999999.99 in magnitude. */
  const AmountLimit: int := 10_000_000_000

  predicate AmountFits(cents: int) { -AmountLimit < cents < AmountLimit }

  /** String(width) holds at most width characters. */
  predicate Fits(s: string, width: nat) { |s| <= width }

  predicate FitsOpt(o: Option<string>, width: nat) { o.None? || |o.value| <= width }

  predicate UserFits(u: User)
  {
    Fits(u.name, 150) && Fits(u.phonenumber, 20) && Fits(u.email, 255)
  }

  predicate IncomeFits(d: IncomeBase)
  {
    AmountFits(d.amount) && FitsOpt(d.source, 255)
  }

  predicate ExpenseFits(d: ExpenseBase)
  {
    Fits(d.title, 255) && AmountFits(d.amount)
  }

  predicate BillReminderFits(d: BillReminderBase)
  {
    Fits(d.title, 255) && AmountFits(d.amount) && FitsOpt(d.repeatCycle, 50) && FitsOpt(d.status, 20)
  }

  predicate CategoryFits(d: CategoryData)
  {
    Fits(d.name, 100) && FitsOpt(d.color, 50)
  }

  /** The reminder that an insert stores: an attribute left null is not sent,
      so the status column's default "pending" fills it in. */
  function InsertedReminder(d: BillReminderBase): (s: BillReminderBase)
    ensures s.status.Some?
    ensures d.status.Some? ==> s == d
    ensures d.status.None? ==> s == d.(status := Some(Pending))
  {
    if d.status.None? then d.(status := Some(Pending)) else d
  }

  // ---------- mapped attributes ----------

  /** The attribute names of each mapped class (columns and relationships).
      The declarative constructor refuses a keyword that names no attribute
      of the class; description and icon are such keywords for Category.
      Inherited names such as metadata would pass too, but no payload
      carries one, so these sets decide every payload here. */
  const IncomeAttributes: set<string> :=
    {"id", "user_id", "amount", "source", "received_date", "created_at", "user"}
  const ExpenseAttributes: set<string> :=
    {"id", "user_id", "title", "amount", "category_id", "expense_date", "created_at", "user", "category"}
  const BillReminderAttributes: set<string> :=
    {"id", "user_id", "title", "amount", "due_date", "repeat_cycle", "status", "notes", "created_at", "user"}
  const CategoryAttributes: set<string> :=
    {"id", "user_id", "name", "color", "created_at", "user", "expenses"}

  predicate ConstructorAccepts(keys: set<string>, attributes: set<string>) { keys <= attributes }

  /** The income, expense and reminder create payloads only name mapped
      attributes; the category payload names two that Category lacks. */
  lemma CreatePayloadKeys()
    ensures ConstructorAccepts(IncomeCreateKeys, IncomeAttributes)
    ensures ConstructorAccepts(ExpenseCreateKeys, ExpenseAttributes)
    ensures ConstructorAccepts(BillReminderCreateKeys, BillReminderAttributes)
    ensures "description" in CategoryCreateKeys && "description" !in CategoryAttributes
    ensures "icon" in CategoryCreateKeys && "icon" !in CategoryAttributes
    ensures !ConstructorAccepts(CategoryCreateKeys, CategoryAttributes)
  {
    assert "description" in CategoryCreateKeys - CategoryAttributes;
  }

  // ---------- keys, owners, uniqueness ----------

  /** Every row sits under its own id, and ids are handed out from 1 below the
      table's next-id counter. */
  ghost predicate KeyedBelow<T>(m: map<int, Row<T>>, next: int)
  {
    1 <= next && forall k :: k in m ==> m[k].id == k && 1 <= k < next
  }

  /** user_id is a foreign key into users. */
  ghost predicate OwnersExist<T>(m: map<int, Row<T>>, users: map<int, User>)
  {
    forall k :: k in m ==> m[k].userId in users
  }

  predicate EmailInUse(users: map<int, User>, email: string)
  {
    exists k :: k in users && users[k].email == email
  }

  predicate PhoneInUse(users: map<int, User>, phone: string)
  {
    exists k :: k in users && users[k].phonenumber == phone
  }

  ghost predicate EmailsUnique(users: map<int, User>)
  {
    forall a, b :: a in users && b in users && users[a].email == users[b].email ==> a == b
  }

  ghost predicate PhonesUnique(users: map<int, User>)
  {
    forall a, b :: a in users && b in users && users[a].phonenumber == users[b].phonenumber ==> a == b
  }

  /** category_id is null or a foreign key into categories. */
  predicate CategoryRefOk(c: Option<int>, categories: map<int, Category>)
  {
    c.None? || c.value in categories
  }

  /** What the users table accepts as a new row. */
  predicate UserAdmissible(users: map<int, User>, u: User)
  {
    UserFits(u) && !EmailInUse(users, u.email) && !PhoneInUse(users, u.phonenumber)
  }

  /** The whole store: one map per table, one id counter per table. */
  datatype Tables = Tables(
    users: map<int, User>,
    incomes: map<int, Income>,
    expenses: map<int, Expense>,
    categories: map<int, Category>,
    reminders: map<int, BillReminder>,
    nextUserId: nat,
    nextIncomeId: nat,
    nextExpenseId: nat,
    nextCategoryId: nat,
    nextReminderId: nat)
  {
    /** Every constraint the tables declare. */
    ghost predicate Valid()
    {
      && 1 <= nextUserId
      && (forall k :: k in users ==> users[k].id == k && 1 <= k < nextUserId && UserFits(users[k]))
      && EmailsUnique(users) && PhonesUnique(users)
      && KeyedBelow(incomes, nextIncomeId) && OwnersExist(incomes, users)
      && (forall k :: k in incomes ==> IncomeFits(incomes[k].data))
      && KeyedBelow(expenses, nextExpenseId) && OwnersExist(expenses, users)
      && (forall k :: k in expenses ==> ExpenseFits(expenses[k].data) && CategoryRefOk(expenses[k].data.categoryId, categories))
      && KeyedBelow(categories, nextCategoryId) && OwnersExist(categories, users)
      && (forall k :: k in categories ==> CategoryFits(categories[k].data))
      && KeyedBelow(reminders, nextReminderId) && OwnersExist(reminders, users)
      && (forall k :: k in reminders ==> BillReminderFits(reminders[k].data))
    }
  }

  /** The store main.py creates: every table empty. */
  function EmptyTables(): (t: Tables)
    ensures t.Valid()
  {
    Tables(map[], map[], map[], map[], map[], 1, 1, 1, 1, 1)
  }

  // ---------- referential rules ----------

  /** The rows of a table not owned by uid. */
  function WithoutOwner<T>(m: map<int, Row<T>>, uid: int): (r: map<int, Row<T>>)
    ensures forall k :: k in r <==> k in m && m[k].userId != uid
    ensures forall k :: k in r ==> r[k] == m[k]
  {
    map k | k in m && m[k].userId != uid :: m[k]
  }

  /** ON DELETE SET NULL: an expense pointing into gone loses its category. */
  function Unlink(e: Expense, gone: set<int>): (r: Expense)
    ensures r.id == e.id && r.userId == e.userId
    ensures r.data == if e.data.categoryId.Some? && e.data.categoryId.value in gone
                      then e.data.(categoryId := None) else e.data
  {
    if e.data.categoryId.Some? && e.data.categoryId.value in gone
    then e.(data := e.data.(categoryId := None)) else e
  }

  /** The expense's category is one of uid's categories. */
  predicate InCategoryOf(e: Expense, categories: map<int, Category>, uid: int)
  {
    e.data.categoryId.Some? && e.data.categoryId.value in categories &&
    categories[e.data.categoryId.value].userId == uid
  }

  /** Deleting a user: the user's incomes, expenses, categories and reminders
      go with it, and other users' expenses that pointed at one of its
      categories keep existing with a null category. */
  function DeleteUser(t: Tables, uid: int): (t': Tables)
    ensures uid !in t'.users && t'.users == t.users - {uid}
    ensures forall k :: k in t'.incomes ==> t'.incomes[k].userId != uid
    ensures forall k :: k in t'.expenses ==> t'.expenses[k].userId != uid
    ensures forall k :: k in t'.categories ==> t'.categories[k].userId != uid
    ensures forall k :: k in t'.reminders ==> t'.reminders[k].userId != uid
    ensures forall k :: k in t.incomes && t.incomes[k].userId != uid ==> k in t'.incomes && t'.incomes[k] == t.incomes[k]
    ensures forall k :: k in t.reminders && t.reminders[k].userId != uid ==> k in t'.reminders && t'.reminders[k] == t.reminders[k]
    ensures forall k :: k in t.categories && t.categories[k].userId != uid ==> k in t'.categories && t'.categories[k] == t.categories[k]
    ensures forall k :: k in t.expenses && t.expenses[k].userId != uid && InCategoryOf(t.expenses[k], t.categories, uid) ==>
      k in t'.expenses && t'.expenses[k] == t.expenses[k].(data := t.expenses[k].data.(categoryId := None))
    ensures forall k :: k in t.expenses && t.expenses[k].userId != uid && !InCategoryOf(t.expenses[k], t.categories, uid) ==>
      k in t'.expenses && t'.expenses[k] == t.expenses[k]
    ensures t'.nextUserId == t.nextUserId && t'.nextIncomeId == t.nextIncomeId && t'.nextExpenseId == t.nextExpenseId
    ensures t'.nextCategoryId == t.nextCategoryId && t'.nextReminderId == t.nextReminderId
    ensures t'.incomes.Keys <= t.incomes.Keys && t'.expenses.Keys <= t.expenses.Keys
    ensures t'.categories.Keys <= t.categories.Keys && t'.reminders.Keys <= t.reminders.Keys
    ensures forall k :: k in t'.incomes ==> k in t.incomes && t.incomes[k].userId != uid
    ensures forall k :: k in t'.expenses ==> k in t.expenses && t.expenses[k].userId != uid
    ensures forall k :: k in t'.categories ==> k in t.categories && t.categories[k].userId != uid
    ensures forall k :: k in t'.reminders ==> k in t.reminders && t.reminders[k].userId != uid
  {
    var gone := set k | k in t.categories && t.categories[k].userId == uid;
    t.(users := t.users - {uid},
       incomes := WithoutOwner(t.incomes, uid),
       expenses := map k | k in t.expenses && t.expenses[k].userId != uid :: Unlink(t.expenses[k], gone),
       categories := WithoutOwner(t.categories, uid),
       reminders := WithoutOwner(t.reminders, uid))
  }

  /** Dropping uid's rows keeps a table keyed and its owners among the
      remaining users. */
  lemma WithoutOwnerKeyed<T>(m: map<int, Row<T>>, users: map<int, User>, uid: int, next: int)
    requires KeyedBelow(m, next) && OwnersExist(m, users)
    ensures KeyedBelow(WithoutOwner(m, uid), next) && OwnersExist(WithoutOwner(m, uid), users - {uid})
  {
  }

  /** The surviving expenses keep their keys, owners and widths, and each
      category reference either survives or has been set to null. */
  lemma DeleteUserExpensesValid(t: Tables, uid: int)
    requires t.Valid()
    ensures var t' := DeleteUser(t, uid);
      KeyedBelow(t'.expenses, t'.nextExpenseId) && OwnersExist(t'.expenses, t'.users) &&
      forall k :: k in t'.expenses ==>
        ExpenseFits(t'.expenses[k].data) && CategoryRefOk(t'.expenses[k].data.categoryId, t'.categories)
  {
    var t' := DeleteUser(t, uid);
    forall k | k in t'.expenses
      ensures ExpenseFits(t'.expenses[k].data)
      ensures CategoryRefOk(t'.expenses[k].data.categoryId, t'.categories)
    {
      var c := t.expenses[k].data.categoryId;
      if c.Some? && t.categories[c.value].userId != uid {
        assert c.value in t'.categories;
      }
    }
  }

  lemma DeleteUserPreservesValid(t: Tables, uid: int)
    requires t.Valid()
    ensures DeleteUser(t, uid).Valid()
  {
    var t' := DeleteUser(t, uid);
    assert EmailsUnique(t'.users) && PhonesUnique(t'.users);
    WithoutOwnerKeyed(t.incomes, t.users, uid, t.nextIncomeId);
    WithoutOwnerKeyed(t.categories, t.users, uid, t.nextCategoryId);
    WithoutOwnerKeyed(t.reminders, t.users, uid, t.nextReminderId);
    DeleteUserExpensesValid(t, uid);
  }

  /** Deleting a category: its expenses stay, with category_id nulled. */
  function DeleteCategory(t: Tables, cid: int): (t': Tables)
    ensures t'.categories == t.categories - {cid}
    ensures t'.expenses.Keys == t.expenses.Keys
    ensures forall k :: k in t.expenses && t.expenses[k].data.categoryId == Some(cid) ==>
      t'.expenses[k] == t.expenses[k].(data := t.expenses[k].data.(categoryId := None))
    ensures forall k :: k in t.expenses && t.expenses[k].data.categoryId != Some(cid) ==>
      t'.expenses[k] == t.expenses[k]
    ensures t'.users == t.users && t'.incomes == t.incomes && t'.reminders == t.reminders
    ensures t'.nextUserId == t.nextUserId && t'.nextIncomeId == t.nextIncomeId && t'.nextExpenseId == t.nextExpenseId
    ensures t'.nextCategoryId == t.nextCategoryId && t'.nextReminderId == t.nextReminderId
  {
    t.(categories := t.categories - {cid},
       expenses := map k | k in t.expenses :: Unlink(t.expenses[k], {cid}))
  }

  lemma DeleteCategoryPreservesValid(t: Tables, cid: int)
    requires t.Valid()
    ensures DeleteCategory(t, cid).Valid()
  {
  }
}
