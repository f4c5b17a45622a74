# Budget tracker domain layer in Dafny

This project models the domain layer of a small budget-tracking backend. A
user owns monthly budgets ("monthly expenses", each with a month and a
budget goal), and each budget holds expenses (description, one of nine
categories, a positive amount, a date).

The model has three parts:

- the zod request schemas of `packages/common/src/types.ts`;
- the monthly-budget service, with the cash-on-hand figure
  `budgetGoal − Σ amount`;
- the expense service, which creates, partially updates and deletes one
  expense row.

The ORM is replaced by a store object holding two tables, each a map from
a row's id to the row.

Modules:

- `Results` (`results.dfy`): `Option` and `Result`.
- `Schemas` (`schemas.dfy`):
  - A request body is a JSON object, `map<string, Value>`.
  - Each schema's `parse` returns either the typed record or the list of
    issues, in field order.
  - Parsing keeps only the declared keys, which is zod's default "strip"
    mode.
  - The UUID, email and ISO-datetime checks are parameters
    (`Formats`).
- `Database` (`database.dfy`):
  - the row types and the store failures;
  - the `Store` class, whose invariant says every row sits under its own id
    and every expense names an existing budget;
  - `Rows`, a listing of a table in an unspecified order.
- `ExpenseService` (`expense_service.dfy`): `CreateExpense`, `UpdateExpense`
  and `DeleteExpense` are methods on the store. The patch semantics of the
  update is the function `ApplyPatch`.
- `MonthlyExpenseService` (`monthly_expense_service.dfy`):
  - `CreateMonthlyExpense` is a method;
  - the cash-on-hand fold `Total` is a left fold, like `reduce`;
  - the owner-scoped lookup and the list-by-user are functions of the two
    tables.
- `BudgetProperties` (`budget_properties.dfy`): how each expense operation
  moves the cash on hand of each budget.

`userSchema` declares `mobile` as a plain `z.string()`
(packages/common/src/types.ts:8), which accepts `""`.
`UserNeedsOnlyMobileAndEmail` holds for every `mobile`, the empty string
included.

## Model

| member | source | states |
|---|---|---|
| Schemas.ParseCategory | packages/common/src/types.ts:37-47 | a string is a category exactly when it is one of the nine names, and it parses to the category of that name |
| Schemas.CategoryIsNineValues | packages/common/src/types.ts:37-47 | there are exactly nine distinct names, and names and categories correspond one to one |
| Schemas.ParseUser | packages/common/src/types.ts:4-15 | an accepted user satisfies every field rule and holds exactly the declared keys of the body; a rejection carries at least one issue, each naming a declared field |
| Schemas.AuditFieldIssues | packages/common/src/types.ts:12-14 | the datetime rule of createdAt, updatedAt and deletedAt, one key at a time; every issue it yields is on that key |
| Schemas.UserFieldIssues | packages/common/src/types.ts:5-14 | the rule userSchema gives one key (UUID id, optional names, password and auth0Id, required mobile, required well-formed email, timestamps); every issue it yields is on that key |
| Schemas.UserIssuesByField | packages/common/src/types.ts:4-15 | an issue is among the issues of a user body exactly when it is the issue of a declared key under that key's own rule; the list is empty exactly when every declared key passes its rule |
| Schemas.ParseUserByField | packages/common/src/types.ts:4-15 | a body is accepted exactly when every declared key passes its own rule; a rejection lists exactly the issues of the failing keys, and nothing else |
| Schemas.UserStripsUnknownKeys | packages/common/dist/types.d.ts:13 | keys that userSchema does not declare have no effect on parsing |
| Schemas.UserRoundTrip | packages/common/src/types.ts:4-15 | a valid user written out as a body parses back to itself |
| Schemas.UserNeedsOnlyMobileAndEmail | packages/common/src/types.ts:4-15 | a body with only mobile (any string) and email is accepted exactly when the email is well formed, with every other field absent; otherwise the one issue is on email |
| Schemas.ParseMonthlyExpense | packages/common/src/types.ts:22-30 | an accepted budget has a positive goal, a UUID owner and well-formed optional id and timestamps, and holds exactly the declared keys; a rejection names declared fields |
| Schemas.MonthlyExpenseFieldIssues | packages/common/src/types.ts:23-29 | the rule monthlyExpenseSchema gives one key (optional UUID id, number month, positive budget goal, required UUID userId, timestamps); every issue it yields is on that key |
| Schemas.MonthlyExpenseIssuesByField | packages/common/src/types.ts:22-30 | an issue is among a budget body's issues exactly when it is the issue of a declared key under that key's own rule; the list is empty exactly when every declared key passes |
| Schemas.ParseMonthlyExpenseByField | packages/common/src/types.ts:22-30 | a body is accepted as a budget exactly when every declared key passes its own rule; a rejection lists exactly the issues of the failing keys |
| Schemas.MonthlyExpenseStripsUnknownKeys | packages/common/dist/types.d.ts:47 | undeclared keys have no effect on parsing a budget |
| Schemas.MonthlyExpenseRoundTrip | packages/common/src/types.ts:22-30 | a valid budget written out parses back to itself |
| Schemas.MonthlyExpenseRejectsNonPositiveGoal | packages/common/src/types.ts:25 | a budget goal ≤ 0 is rejected with a too-small issue on budgetGoal |
| Schemas.MonthlyExpenseRequiresUserId | packages/common/src/types.ts:26 | a body without userId is rejected with a required issue on userId |
| Schemas.MonthIsAnyNumber | packages/common/src/types.ts:24 | in an accepted body, month may be replaced by any number, and only the parsed month changes |
| Schemas.ParseExpense | packages/common/src/types.ts:50-60 | an accepted expense has a positive amount, a datetime date, a UUID budget id and well-formed optional id and timestamps, and holds exactly the declared keys; a rejection names declared fields |
| Schemas.ParseExpensePatch | packages/backend/src/routes/expenseRoutes.ts:24 | the partial schema makes every field optional but keeps the rules on the fields present, and also strips undeclared keys |
| Schemas.ExpenseFieldIssues | packages/common/src/types.ts:51-59 | the rule expenseSchema, or its partial form, gives one key (optional UUID id, description, one of the categories, positive amount, datetime date, UUID budget id, timestamps; in the partial form every field may be absent); every issue it yields is on that key |
| Schemas.ExpenseIssuesByField | packages/common/src/types.ts:50-60 | for either form, an issue is among an expense body's issues exactly when it is the issue of a declared key under that key's own rule; the list is empty exactly when every declared key passes |
| Schemas.ParseExpenseByField | packages/common/src/types.ts:50-60 | a body is accepted as an expense exactly when every declared key passes its own rule; a rejection lists exactly the issues of the failing keys |
| Schemas.ParseExpensePatchByField | packages/backend/src/routes/expenseRoutes.ts:24 | the same for the partial schema: accepted exactly when every present key passes its rule; a rejection lists exactly the issues of the failing keys |
| Schemas.ExpenseStripsUnknownKeys | packages/common/dist/types.d.ts:78 | undeclared keys have no effect on either expense schema |
| Schemas.ExpenseRoundTrip | packages/common/src/types.ts:50-60 | a valid expense written out parses back to itself |
| Schemas.ExpensePatchRoundTrip | packages/common/src/types.ts:50-60 | a valid patch, whatever subset of fields it carries, written out parses back to itself |
| Schemas.FullExpenseIsPatch | packages/backend/src/routes/expenseRoutes.ts:24 | whatever the full schema accepts, the partial one accepts as the patch setting every field |
| Schemas.EmptyPatchAccepted | packages/backend/src/routes/expenseRoutes.ts:24 | the partial schema accepts the empty body as the patch that sets nothing |
| Schemas.ExpenseRejectsNonPositiveAmount | packages/common/src/types.ts:54 | an amount ≤ 0 is rejected by the full and the partial schema |
| Schemas.ExpenseRejectsUnknownCategory | packages/common/src/types.ts:53 | a category outside the nine names is rejected by both schemas |
| Schemas.ExpenseRequiresMonthlyExpenseId | packages/common/src/types.ts:56 | the budget id is required by the full schema and optional in the partial one |
| Schemas.MalformedIdRejected | packages/common/src/types.ts:51 | an id that is present but not a UUID is rejected by all four schemas |
| Schemas.MalformedTimestampRejected | packages/common/src/types.ts:57-59 | a createdAt, updatedAt or deletedAt that is present but not a datetime is rejected by all four schemas |
| Schemas.CashOnHandUnconstrained | packages/common/src/types.ts:67-70 | the cash-on-hand view puts no sign constraint on cashOnHand: any figure, a negative one included, keeps a valid view valid |
| Database.Consistent | packages/common/src/types.ts:62-64 | every row sits under its own id, and every expense belongs to a budget that exists: the expense-to-budget relation |
| Database.Store.Valid | packages/backend/src/services/expenseService.ts:5 | the invariant of the store both services share is Consistent of its two tables |
| Database.Store.constructor | packages/backend/src/services/monthlyExpenseService.ts:5 | the store starts with two empty tables, which are consistent |
| Database.Rows | packages/backend/src/services/monthlyExpenseService.ts:38-43 | a `findMany` listing of a table, one entry per key, in an order no query fixes |
| Database.RowsHoldValues | packages/backend/src/services/monthlyExpenseService.ts:38-43 | a listing holds exactly the values of the table |
| Database.RowsRemove | packages/backend/src/services/monthlyExpenseService.ts:38-43 | as a multiset, a listing is any one row plus the listing of the rest |
| Database.RowsInsert | packages/backend/src/services/monthlyExpenseService.ts:38-43 | adding a row adds exactly that row to the listing, as a multiset |
| ExpenseService.NewExpenseRow | packages/backend/src/services/expenseService.ts:8-16 | the row createExpense stores: the five data fields with the date as given, and the store's id and timestamps (CreateCopiesExactlyTheDataFields) |
| ExpenseService.CreateCopiesExactlyTheDataFields | packages/backend/src/services/expenseService.ts:8-16 | two inputs give the same stored row if and only if they agree on description, category, amount, budget id and carry the same date text (the model does not normalise dates as `new Date` does); input id and timestamps are not copied |
| ExpenseService.CreatedRowFromValidInput | packages/backend/src/services/expenseService.ts:7-16 | a schema-valid expense is stored with a positive amount, under the id and timestamps the store generates |
| ExpenseService.CreateExpense | packages/backend/src/services/expenseService.ts:7-17 | inserts exactly the new row under the fresh id and keeps the store invariant; an unknown budget id is a foreign-key failure that changes nothing |
| ExpenseService.ApplyPatch | packages/backend/src/services/expenseService.ts:25 | each field the patch carries (id and timestamps included) overwrites the stored one, each absent field is kept, and the date changes only when a non-empty date is supplied |
| ExpenseService.EmptyPatchChangesNothing | packages/backend/src/services/expenseService.ts:23-26 | a patch carrying no field leaves the row as it was |
| ExpenseService.PatchIsIdempotent | packages/backend/src/services/expenseService.ts:23-26 | applying a patch twice is applying it once |
| ExpenseService.PatchesCompose | packages/backend/src/services/expenseService.ts:23-26 | two updates in a row equal one update in which the later fields win |
| ExpenseService.FullPatchIsCreate | packages/backend/src/services/expenseService.ts:25 | updating with every field of an expense gives the row that creating it under the same id and timestamps would |
| ExpenseService.PatchDateReplacedExactlyWhenSupplied | packages/backend/src/services/expenseService.ts:25 | for a schema-valid patch, the stored date is replaced exactly when a date is supplied |
| ExpenseService.ValidPatchKeepsAmountPositive | packages/backend/src/services/expenseService.ts:19-25 | a schema-valid patch keeps a positive amount positive |
| ExpenseService.UpdateOutcome | packages/backend/src/services/expenseService.ts:23-26 | update succeeds exactly when the row exists, its new id clashes with no other row and its budget exists; a missing row is "not found" |
| ExpenseService.UpdateExpense | packages/backend/src/services/expenseService.ts:19-27 | on success the row is replaced by its patched version under the patched id, and every other row and the budget table stay unchanged; on failure nothing changes |
| ExpenseService.DeleteExpense | packages/backend/src/services/expenseService.ts:29-31 | returns the deleted row, or fails with "not found" for an unknown id; afterwards no row has that id and every other row is unchanged |
| MonthlyExpenseService.NewMonthlyExpenseRow | packages/backend/src/services/monthlyExpenseService.ts:11-17 | the row createMonthlyExpense stores: month and goal from the data, the owner from the argument, id and timestamps from the store (CreateTakesOwnerFromArgument) |
| MonthlyExpenseService.CreateTakesOwnerFromArgument | packages/backend/src/services/monthlyExpenseService.ts:11-17 | the owner is the argument, and two inputs give the same row exactly when month and budget goal agree, whatever their own userId, id and timestamps |
| MonthlyExpenseService.CreateMonthlyExpense | packages/backend/src/services/monthlyExpenseService.ts:7-18 | inserts the new budget under the fresh id, leaves the expense table unchanged and keeps the store invariant |
| MonthlyExpenseService.Total | packages/backend/src/services/monthlyExpenseService.ts:33 | the `reduce` from 0 as a left fold, the last expense added last; it is order-free and additive (TotalIgnoresOrder, TotalAppend) |
| MonthlyExpenseService.CashOnHand | packages/backend/src/services/monthlyExpenseService.ts:31-33 | the goal minus the total of the expenses (CashOnHandSteps) |
| MonthlyExpenseService.TotalAppend | packages/backend/src/services/monthlyExpenseService.ts:33 | the sum over a concatenation is the sum of the sums |
| MonthlyExpenseService.CashOnHandSteps | packages/backend/src/services/monthlyExpenseService.ts:31-33 | with no expense the cash on hand is the goal; one more expense of amount a, anywhere in the list, lowers it by exactly a |
| MonthlyExpenseService.TotalIgnoresOrder | packages/backend/src/services/monthlyExpenseService.ts:33 | lists that are permutations of each other have the same sum |
| MonthlyExpenseService.TotalOfPositiveAmounts | packages/backend/src/services/monthlyExpenseService.ts:33 | with positive amounts the sum is ≥ 0, and > 0 for a non-empty list |
| MonthlyExpenseService.CashOnHandAtMostGoal | packages/backend/src/services/monthlyExpenseService.ts:31-33 | with positive amounts cash on hand ≤ goal, and < goal once there is an expense |
| MonthlyExpenseService.ExpensesOf | packages/backend/src/services/monthlyExpenseService.ts:26 | exactly the stored expense rows whose budget id is the given one, unchanged |
| MonthlyExpenseService.WithExpenses | packages/backend/src/services/monthlyExpenseService.ts:26 | `include: { expenses: true }`: the budget row unchanged, with a listing holding exactly its stored expenses, one entry per row |
| MonthlyExpenseService.GetMonthlyExpense | packages/backend/src/services/monthlyExpenseService.ts:20-35 | a result exactly when the id exists and belongs to that user, otherwise "Not found"; it is the stored budget, unchanged, with exactly its stored expenses, and goal minus their total |
| MonthlyExpenseService.CashOnHandOfAnyListing | packages/backend/src/services/monthlyExpenseService.ts:31-33 | the reported cash on hand does not depend on the order in which the store lists the expenses |
| MonthlyExpenseService.OtherOwnersBudgetIsNotFound | packages/backend/src/services/monthlyExpenseService.ts:21-29 | a budget owned by another user gives "Not found" |
| MonthlyExpenseService.StoredCashOnHandAtMostGoal | packages/backend/src/services/monthlyExpenseService.ts:31-33 | with positive stored amounts, the reported cash on hand ≤ goal, and < goal when the budget has an expense |
| MonthlyExpenseService.OverspentBudgetHasNegativeCashOnHand | packages/backend/src/services/monthlyExpenseService.ts:31-34 | nothing bounds the expenses by the goal: a budget with a positive goal and one larger positive expense is reported with cashOnHand = goal − amount < 0, which the view schema accepts (CashOnHandUnconstrained) |
| MonthlyExpenseService.OwnedBy | packages/backend/src/services/monthlyExpenseService.ts:39-41 | `where: { userId }`: exactly the stored budgets of that user, unchanged |
| MonthlyExpenseService.GetMonthlyExpenses | packages/backend/src/services/monthlyExpenseService.ts:37-43 | corrected list-by-user: each budget of the user appears, nothing else does, each with exactly its expenses and no cashOnHand |
| MonthlyExpenseService.GetMonthlyExpensesAsWritten | packages/backend/src/services/monthlyExpenseService.ts:45-47 | as written: never "Not found", because a list is never falsy; the result is an object whose keys are exactly the positions 0 … n−1 of the list |
| MonthlyExpenseService.NoBudgetsGiveEmptyObject | packages/backend/src/services/monthlyExpenseService.ts:45-47 | as written, a user with no budget receives the empty object, not an error |
| MonthlyExpenseService.FindFirst | packages/backend/src/services/monthlyExpenseService.ts:21-27 | returns a row that meets every condition given, if one exists; an absent condition filters nothing |
| MonthlyExpenseService.GetMonthlyExpenseAsWritten | packages/backend/src/routes/monthlyExpenseRoutes.ts:26-28 | as written, with id and userId taken from the request body: succeeds exactly when some budget meets the conditions that were given |
| MonthlyExpenseService.MissingOwnerReturnsAnyOwnersBudget | packages/backend/src/services/monthlyExpenseService.ts:21-25 | a request naming a budget id and no owner gets that budget, whoever owns it |
| MonthlyExpenseService.MissingOwnerCounterexample | packages/backend/src/routes/monthlyExpenseRoutes.ts:26-28 | concretely: body `{ id: "b1" }` returns alice's budget b1; the corrected lookup refuses it |
| MonthlyExpenseService.GetMonthlyExpenseForRequest | packages/backend/src/services/monthlyExpenseService.ts:20-29 | corrected: a result only when both id and owner are present and match; the returned budget belongs to the requester |
| MonthlyExpenseService.FullRequestAgrees | packages/backend/src/services/monthlyExpenseService.ts:21-27 | when both fields are present, the code as written and the corrected lookup agree |
| BudgetProperties.InsertLowersCashOnHand | packages/backend/src/services/monthlyExpenseService.ts:31-33 | a new expense row lowers its budget's cash on hand by its amount and leaves every other budget unchanged |
| BudgetProperties.RemoveRaisesCashOnHand | packages/backend/src/services/monthlyExpenseService.ts:31-33 | removing an expense row raises its budget's cash on hand by its amount and leaves every other budget unchanged |
| BudgetProperties.CreateExpenseLowersCashOnHand | packages/backend/src/services/expenseService.ts:7-17 | after createExpense, the cash on hand of the expense's budget is lower by the new amount |
| BudgetProperties.DeleteExpenseRaisesCashOnHand | packages/backend/src/services/expenseService.ts:29-31 | after deleteExpense, the cash on hand of the expense's budget is higher by the deleted amount |
| BudgetProperties.UpdateExpenseMovesCashOnHand | packages/backend/src/services/expenseService.ts:19-27 | after updateExpense, each budget gains the old row's share and loses the new row's, so moving an expense shifts its amount between budgets |
| BudgetProperties.OperationsKeepAmountsPositive | packages/common/src/types.ts:54 | creating a valid expense, applying a valid patch and deleting all keep every stored amount positive |

## Left out

- HTTP wiring, rate limiting, static files, logging and the status codes of the route handlers: framework configuration without logic of their own. Only the request fields the routes pass to the services are modelled.
- Registration, bcrypt hashing and the user-synchronising middleware: foreign calls, random UUIDs and ambient request state. There is no user table, and a budget's owner is a plain id.
- The hard-coded owner `'1'` of the list route: a stub, not behaviour.
- The regular expressions behind zod's UUID, email and datetime checks: library internals, so they are the parameters of `Formats`.
- JavaScript `Date` parsing and calendar arithmetic: a date is stored as the text it was built from (`Instant`).
- The automatic `@updatedAt` timestamp of the store: timestamps are whatever the caller or the store passes in (`Stamps`).
- Generated ids and timestamps: they are parameters, and a new id is required to be fresh.
- IEEE-754 rounding in the cash-on-hand sum: amounts are reals.
- The order in which the store lists rows: not specified by any query, so `Rows` picks an arbitrary order and every result is proved for all orders.
- `findFirst` tie-breaking: `FindFirst` returns some matching row.
- CreateMonthlyExpense: the store's foreign-key failure for an owner id that names no user (the budget-to-user relation) is not modelled, because there is no user table; the owner is taken as given.
- Store errors other than a missing row, a duplicate key and a missing budget (connection failures and the like) are not modelled.

## Findings

| source | as written | input that shows it | evidently intended | confidence | as-written member | corrected member |
|---|---|---|---|---|---|---|
| packages/backend/src/services/monthlyExpenseService.ts:45-47 | the list is spread into a plain object keyed by position, and the not-found test before it can never fire | a user with no budget receives `{}`, and a user with two receives `{ "0": …, "1": … }`, not a list (`NoBudgetsGiveEmptyObject`) | return the list itself | not executed; medium | MonthlyExpenseService.GetMonthlyExpensesAsWritten | MonthlyExpenseService.GetMonthlyExpenses |
| packages/backend/src/routes/monthlyExpenseRoutes.ts:26-28 | id and userId come from the request body and go into the where clause unchecked; the ORM drops a condition whose value is undefined | body `{ id: "b1" }` returns budget b1 of user alice to any caller (`MissingOwnerCounterexample`) | an absent id or owner gives "Not found" | not executed; medium | MonthlyExpenseService.GetMonthlyExpenseAsWritten | MonthlyExpenseService.GetMonthlyExpenseForRequest |
