# Expense-tracker ledger and budget summary

This project models the core of an expense-tracker backend. It has users, incomes, expenses, bill reminders and spending categories, and it computes a per-user budget summary. The relational store is modelled as in-memory tables: the `Crud.Ledger` class holds one map from id to row per table and one next-id counter per table. Every amount is a whole number of cents.

- `results.dfy` (`Results`): optional values, request fields that may be omitted, and the `Outcome` of a call: `Ok(row)`, `NotFound` (the original's 404 or `None`), or `Rejected(reason)`.
- `schemas.dfy` (`Schemas`): the request and response bodies. `IncomeBase` and `BillReminderBase` are also the update payloads; the expense update payload is `ExpenseCreate`, which carries `user_id`. The functions `IncomeBody`, `ExpenseBody` and `BillReminderBody` apply the field defaults.
- `models.dfy` (`Models`): the table rows and the constraints the tables declare:
  - `Numeric(10,2)` amounts, so `|cents| < 10^10`;
  - string widths;
  - unique email and phone number;
  - every owned row's `user_id` refers to an existing user;
  - `category_id` is null or refers to an existing category.
  `Tables.Valid()` is the conjunction of these constraints. `DeleteUser` models the cascade and `DeleteCategory` models `ON DELETE SET NULL`.
- `crud.dfy` (`Crud`): the repository functions.
  - The per-user queries and `get_summary` are functions on a `Tables` snapshot.
  - The creates, updates and deletes are methods of `Ledger`. Each one states the whole new state as an update of the old `State()` and keeps `Valid()`.
  - A write the store would refuse leaves the store unchanged and gives `Rejected(ConstraintViolation)`. Such writes are rows that break a declared constraint.
- `routes.dfy` (`Routes`): the route handlers. The authenticated caller is the parameter `currentUser`.
  - Owner-stamping creates.
  - The owner-and-id guard on the income and bill-reminder update/delete handlers.
  - The unguarded expense update/delete handlers, as written.
  - `register`'s email pre-check and `read_user`.
  - The summary handler.
- `scenarios.dfy` (`Scenarios`): walk-throughs verified from the handlers' contracts alone.
  - `BudgetScenario`: incomes of 100.00 and 50.50 and an expense of 30.25 leave the user 120.25 within budget. A further expense of 200.00 makes the summary read 150.50 / 230.25 / −79.75 / 79.75 / "Over Budget". Deleting that expense restores the earlier summary.
  - `ForeignExpenseTakeover`: through the expense update handler as written, one user can take over another user's expense.

Queries return rows by ascending id. The original leaves the order to the database.

## Model

| member | source | states |
|---|---|---|
| Schemas.IncomeBody | app/schemas.py:28-31 | an omitted `source` becomes null; a supplied one, even null, is kept; amount and date are as sent |
| Schemas.ExpenseBody | app/schemas.py:48-52 | an omitted `category_id` becomes null, so a full update clears it |
| Schemas.BillReminderBody | app/schemas.py:67-73 | an omitted `status` becomes "pending" and an explicit null stays null; omitted `repeat_cycle` and `notes` become null |
| Models.InsertedReminder | app/models.py:80 | the stored reminder always has a status: "pending" when the insert left it null, otherwise the row as sent |
| Models.CreatePayloadKeys | app/models.py:40-46 | the income, expense and reminder create payloads name only mapped attributes; the category payload names `description` and `icon`, which `Category` does not map |
| Models.EmptyTables | app/main.py:6 | the freshly created, empty store satisfies every declared constraint |
| Models.DeleteUser | app/models.py:18-21 | after deleting a user, every income, expense, category and reminder of theirs is removed, not handed to anyone else. Every other user's incomes, categories and reminders stay unchanged. Their expenses stay too: one that pointed at a category of the deleted user gets a null `category_id` and keeps every other field; the rest are unchanged. No row appears that was not there before, and the id counters are unchanged |
| Models.WithoutOwnerKeyed | app/models.py:18-21 | dropping a user's rows keeps a table keyed by id and its owners among the remaining users |
| Models.DeleteUserExpensesValid | app/models.py:63 | after the cascade, every surviving expense's category is an existing category or null |
| Models.DeleteUserPreservesValid | app/models.py:18-21 | the cascade keeps every constraint: foreign keys, uniqueness, widths, and category references that were set to null |
| Models.DeleteCategory | app/models.py:63 | deleting a category keeps all expenses; those that pointed at it get a null `category_id`; the others, every other table and the id counters are unchanged |
| Models.DeleteCategoryPreservesValid | app/models.py:49 | deleting a category keeps every constraint |
| Crud.ListedExactly | app/crud.py:37 | the filtered listing holds exactly the user's rows with ids below the bound, each once, in ascending id order |
| Crud.ListedIsOwnedRows | app/crud.py:36-37 | in a valid table, the listing holds exactly the rows whose `user_id` is the argument |
| Crud.TotalByContrib | app/crud.py:140-141 | a user's total depends only on that user's rows |
| Crud.TotalPointChange | app/crud.py:140-141 | changing one row shifts its owner's total by that row's change of amount and no other user's |
| Crud.TotalOfNone | app/crud.py:140-141 | with no rows for the user the sum is 0 (the `coalesce`) |
| Crud.TotalAfterInsert | app/crud.py:140-141 | inserting a row under a fresh id raises its owner's total by its amount and leaves every other total alone |
| Crud.TotalAfterRemove | app/crud.py:140-141 | removing a row lowers its owner's total by its amount and leaves every other total alone |
| Crud.TotalAfterReplace | app/crud.py:140-141 | overwriting a row swaps its old contribution for the new one |
| Crud.UserById | app/crud.py:22-23 | no result exactly when no user has that id; otherwise the stored user with that id |
| Crud.IncomesByUser | app/crud.py:36-37 | exactly the incomes whose `user_id` is the argument, each as stored |
| Crud.ExpensesByUser | app/crud.py:69-70 | exactly the expenses whose `user_id` is the argument, each as stored |
| Crud.BillRemindersByUser | app/crud.py:105-106 | exactly the reminders whose `user_id` is the argument, each as stored |
| Crud.CategoriesByUser | app/crud.py:136-137 | exactly the categories whose `user_id` is the argument, each as stored |
| Crud.Summarize | app/crud.py:143-145 | remaining is income minus expense; needed is never negative and equals max(0, expense − income); status is "Within Budget" iff remaining ≥ 0, else "Over Budget" |
| Crud.Summary | app/crud.py:139-153 | the two totals are the sums of amounts over exactly the rows the per-user queries return; the other three fields follow from them |
| Crud.SummaryWithoutRows | app/crud.py:140-141 | a user with no incomes and no expenses gets 0, 0, 0, 0, "Within Budget" |
| Crud.DeleteUserSummaries | app/models.py:18-21 | after deleting a user, that user's summary is all zeros and every other user's summary is unchanged |
| Crud.DeleteCategorySummaries | app/models.py:63 | deleting a category changes no user's summary |
| Crud.BuildCategory | app/crud.py:130 | the mapped constructor refuses every category payload, because the payload always names `description` and `icon` |
| Crud.Ledger.constructor | app/main.py:6 | the ledger starts as the empty, valid store |
| Crud.Ledger.InsertUser | app/routes.py:36-46 | adds exactly one user under the next id when the row fits and its email and phone are unused; otherwise refuses with the store unchanged |
| Crud.Ledger.CreateUser | app/crud.py:8-20 | as `InsertUser`, storing the given password string verbatim as `password_hash` |
| Crud.Ledger.CreateIncome | app/crud.py:28-33 | adds exactly one income with the payload's fields and owner under a fresh id, other rows untouched; refuses an unknown owner or an out-of-range amount |
| Crud.Ledger.UpdateIncome | app/crud.py:40-48 | absent id: not found and no change; otherwise every payload field is overwritten, id and owner kept, every other row untouched |
| Crud.Ledger.DeleteIncome | app/crud.py:51-57 | absent id: not found and no change; otherwise exactly that row is removed and its prior state returned |
| Crud.Ledger.CreateExpense | app/crud.py:62-67 | adds exactly one expense under a fresh id; refuses an unknown owner or category, or a field out of range |
| Crud.Ledger.UpdateExpense | app/crud.py:73-83 | absent id: not found and no change; otherwise fields and owner are overwritten from the payload and only the id is kept |
| Crud.Ledger.DeleteExpense | app/crud.py:86-93 | absent id: not found and no change; otherwise exactly that row is removed and returned as it was |
| Crud.Ledger.CreateBillReminder | app/crud.py:98-103 | adds exactly one reminder under a fresh id, with a null status stored as "pending" |
| Crud.Ledger.UpdateBillReminder | app/crud.py:108-116 | absent id: not found and no change; otherwise every payload field, status included, is overwritten; id and owner kept |
| Crud.Ledger.DeleteBillReminder | app/crud.py:118-124 | absent id: not found and no change; otherwise exactly that row is removed and returned as it was |
| Crud.Ledger.AddCategory | app/crud.py:131-134 | adds exactly one category under the next id when its owner exists and its widths fit; otherwise refuses with the store unchanged |
| Crud.Ledger.CreateCategoryAsWritten | app/crud.py:129-134 | as written: every request is refused with `InvalidKeyword` and the store is left as it was |
| Crud.Ledger.CreateCategory | app/crud.py:129-134 | corrected create: adds one category built from name, color and owner; description and icon are dropped |
| Routes.ReadUser | app/routes.py:22-27 | not found exactly when no user has that id; otherwise that user |
| Routes.CreateUser | app/routes.py:18-20 | delegates to the repository create, so the password is stored unhashed |
| Routes.Register | app/routes.py:29-47 | an email already on file is refused with the store unchanged; otherwise exactly one user is added, holding the hashed password |
| Routes.CreateIncome | app/routes.py:62-69 | the new income's owner is the caller, whatever the body says |
| Routes.GetIncomes | app/routes.py:72-77 | the caller's incomes and no one else's, in ascending id order |
| Routes.UpdateIncome | app/routes.py:80-90 | not found and no change unless an income with that id belongs to the caller; then the repository update |
| Routes.UpdateIncomeFromBody | app/routes.py:80-90 | for a body as sent: the guarded update with the defaulted payload: not found unless the caller owns the income, refused if it does not fit, else that one row becomes the payload, in which an omitted `source` is null; id and owner are kept and nothing else changes |
| Routes.DeleteIncome | app/routes.py:93-102 | not found and no change unless an income with that id belongs to the caller; then the repository delete |
| Routes.CreateExpense | app/routes.py:108-115 | the new expense's owner is the caller |
| Routes.GetExpenses | app/routes.py:118-123 | the caller's expenses and no one else's, in ascending id order |
| Routes.UpdateExpense | app/routes.py:126-132 | as written: any existing expense is overwritten, owner included, whoever asks; not found only for an absent id |
| Routes.UpdateExpenseFromBody | app/routes.py:126-132 | for a body as sent: the unguarded update with the defaulted payload: not found for an absent id, refused if it breaks a constraint, else that one row becomes the payload, in which an omitted `category_id` is null, owned by the body's `user_id`; nothing else changes |
| Routes.DeleteExpense | app/routes.py:134-140 | as written: any existing expense is removed whoever asks; not found only for an absent id |
| Routes.UpdateOwnExpense | app/routes.py:126-132 | corrected: not found and no change unless the caller owns the expense; the owner is kept |
| Routes.DeleteOwnExpense | app/routes.py:134-140 | corrected: not found and no change unless the caller owns the expense |
| Routes.CreateBillReminder | app/routes.py:147-154 | the new reminder's owner is the caller, and it is stored with a status |
| Routes.GetBillReminders | app/routes.py:157-162 | the caller's reminders and no one else's, in ascending id order |
| Routes.UpdateBillReminder | app/routes.py:165-175 | not found and no change unless a reminder with that id belongs to the caller; then the repository update |
| Routes.UpdateBillReminderFromBody | app/routes.py:165-175 | for a body as sent: the guarded update with the defaulted payload: not found unless the caller owns the reminder, refused if it does not fit, else that one row becomes the payload, in which an omitted `status` is "pending", an explicit null stays null, and an omitted `repeat_cycle` or `notes` is null; nothing else changes |
| Routes.DeleteBillReminder | app/routes.py:178-187 | not found and no change unless a reminder with that id belongs to the caller; then the repository delete |
| Routes.CreateCategory | app/routes.py:192-194 | as written: every category create is refused and nothing is added |
| Routes.CreateMappedCategory | app/routes.py:192-194 | over the corrected repository create: one category is added, owned by the body's `user_id`, not by a caller |
| Routes.GetCategories | app/routes.py:196-198 | any user's categories, by the id in the path, with no caller check, in ascending id order |
| Routes.GetFinancialSummary | app/routes.py:200-205 | the caller's totals are the sums over the caller's own listed rows; remaining is their difference, needed is max(0, expense − income), and status is "Within Budget" when remaining ≥ 0, else "Over Budget" |
| Scenarios.Open | app/routes.py:29-47 | registering on an empty store yields a user with zero totals |
| Scenarios.Earn | app/routes.py:62-69 | posting an income raises the caller's income total by its amount and leaves the expenses alone |
| Scenarios.Spend | app/routes.py:108-115 | posting an expense raises the caller's expense total by its amount and leaves the incomes alone |
| Scenarios.Refund | app/routes.py:134-140 | deleting one of the user's expenses lowers their expense total by its amount |
| Scenarios.ForeignExpenseTakeover | app/routes.py:126-132 | the owner-checked update refuses a non-owner; the handler as written then hands the expense to that non-owner |

## Left out

- Login, password hashing and verification, and token creation are not part of this model. `Routes.Register` takes the hasher's output as the parameter `hashed`.
- Bearer-token decoding (`get_current_user`) is not part of this model. The authenticated user's id is the parameter `currentUser`.
- HTTP framing is not modelled: the router, status codes and the session generator. Outcomes map to `NotFound` (404), `Rejected(EmailTaken)` (400), `Rejected(ConstraintViolation)` (a commit the database refuses) and `Rejected(InvalidKeyword)` (the mapped constructor refusing an unknown keyword, an unhandled error in the original).
- Floating point is not modelled. That covers the `float` schema fields, the conversion of a float to `Numeric(10,2)` (rounding), and the `float(...)` conversions of the summary output. Amounts are whole cents throughout.
- `created_at` timestamps, commit, refresh, transactions and concurrent requests are not modelled.
- The database engine and its session setup (database.py) are not part of this model. The constraints are assumed to be enforced as declared, including foreign keys and `ON DELETE` rules. The model treats the `user_id` and `category_id` references as enforced.
- No route deletes a user or a category. `Models.DeleteUser` and `Models.DeleteCategory` model the declared cascade and set-null rules as functions on the store, not as handlers.
- Email syntax (`EmailStr`) and calendar validity of dates are not checked. Required columns are non-null by construction: their fields have non-optional types.
- Result order: the model lists rows by ascending id. The original's queries have no `ORDER BY`.
- Unique ids: the model hands out ids from per-table counters that never reuse a deleted id. The original leaves this to the database's sequence.

## Findings

| source | as written | input that shows it | evidently intended | confidence | as-written member | corrected member |
|---|---|---|---|---|---|---|
| app/crud.py:129-134 | `Category(**category.dict())` passes `description` and `icon`. `Category` maps neither (app/models.py:43-44 are commented out), so the constructor raises before anything is added. | any category create, e.g. `{"name": "Food", "user_id": 1}` with its defaults `description=None, icon=None` | build the row from `name`, `color` and `user_id` only | high; not executed | Crud.Ledger.CreateCategoryAsWritten | Crud.Ledger.CreateCategory |
| app/routes.py:126-140 | The expense update and delete handlers take no current user and make no owner check. The update payload's `user_id` becomes the row's owner. | user 2 sends `PUT /expenses/1` with `user_id: 2` for user 1's expense 1; `Scenarios.ForeignExpenseTakeover` shows it | the owner-and-id guard of the income and reminder handlers, with the owner kept | medium; not executed | Routes.UpdateExpense | Routes.UpdateOwnExpense |
