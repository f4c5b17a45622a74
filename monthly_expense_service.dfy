/** The monthly-expense service: create a budget for an owner, read one
    budget of an owner with its expenses and the cash left on it, and list
    an owner's budgets with their expenses. */
module MonthlyExpenseService {
  import opened Results
  import opened Schemas
  import opened Database

  // ---------------------------------------------------------------------
  // createMonthlyExpense

  /** The row createMonthlyExpense hands to the store: month and budget goal
      from the data, the owner from the separate argument, and the id and
      timestamps the store generates. The data's own userId, id and
      timestamps are not used. */
  function NewMonthlyExpenseRow(data: MonthlyExpense, userId: Id, id: Id, stamps: Stamps): MonthlyExpenseRow {
    MonthlyExpenseRow(id, data.month, data.budgetGoal, userId, stamps)
  }

  /** Two inputs make the same row exactly when they agree on month and
      budget goal; the row's owner is always the argument */
  lemma CreateTakesOwnerFromArgument(d1: MonthlyExpense, d2: MonthlyExpense, userId: Id, id: Id, stamps: Stamps)
    ensures NewMonthlyExpenseRow(d1, userId, id, stamps).userId == userId
    ensures NewMonthlyExpenseRow(d1, userId, id, stamps) == NewMonthlyExpenseRow(d2, userId, id, stamps)
            <==> d1.month == d2.month && d1.budgetGoal == d2.budgetGoal
  {
  }

  /** `createMonthlyExpense`. `newId` is the key the store generates. */
  method CreateMonthlyExpense(db: Store, data: MonthlyExpense, userId: Id, newId: Id, stamps: Stamps)
    returns (row: MonthlyExpenseRow)
    requires db.Valid()
    requires newId !in db.monthlyExpenses
    modifies db
    ensures db.Valid()
    ensures row == NewMonthlyExpenseRow(data, userId, newId, stamps)
    ensures db.monthlyExpenses == old(db.monthlyExpenses)[newId := row]
    ensures db.expenses == old(db.expenses)
  {
    row := NewMonthlyExpenseRow(data, userId, newId, stamps);
    db.monthlyExpenses := db.monthlyExpenses[newId := row];
  }

  // ---------------------------------------------------------------------
  // The cash-on-hand fold

  /** `expenses.reduce((sum, e) => sum + e.amount, 0)`: a left fold, so the
      last expense is added last */
  function Total(xs: seq<ExpenseRow>): real
    decreases |xs|
  {
    if xs == [] then 0.0 else Total(xs[..|xs| - 1]) + xs[|xs| - 1].amount
  }

  /** cashOnHand: what is left of the goal once the expenses are paid */
  function CashOnHand(budgetGoal: real, xs: seq<ExpenseRow>): real {
    budgetGoal - Total(xs)
  }

  /** The total of a list is the sum of the totals of its parts */
  lemma {:induction false} TotalAppend(xs: seq<ExpenseRow>, ys: seq<ExpenseRow>)
    ensures Total(xs + ys) == Total(xs) + Total(ys)
    decreases |ys|
  {
    if ys == [] {
      assert xs + ys == xs;
    } else {
      var zs := xs + ys;
      assert zs[..|zs| - 1] == xs + ys[..|ys| - 1];
      TotalAppend(xs, ys[..|ys| - 1]);
    }
  }

  /** With no expenses the cash on hand is the goal; each further expense of
      amount `a` lowers it by exactly `a`, wherever in the list it stands */
  lemma CashOnHandSteps(goal: real, xs: seq<ExpenseRow>, ys: seq<ExpenseRow>, e: ExpenseRow)
    ensures CashOnHand(goal, []) == goal
    ensures CashOnHand(goal, xs + [e] + ys) == CashOnHand(goal, xs + ys) - e.amount
  {
    TotalAppend(xs + [e], ys);
    TotalAppend(xs, [e]);
    TotalAppend(xs, ys);
    assert Total([e]) == Total([]) + e.amount;
  }

  /** The total does not depend on the order of the list */
  lemma {:induction false} TotalIgnoresOrder(xs: seq<ExpenseRow>, ys: seq<ExpenseRow>)
    requires multiset(xs) == multiset(ys)
    ensures Total(xs) == Total(ys)
    decreases |xs|
  {
    if xs != [] {
      var last := xs[|xs| - 1];
      var init := xs[..|xs| - 1];
      assert xs == init + [last];
      assert last in multiset(ys);
      var i :| 0 <= i < |ys| && ys[i] == last;
      var rest := ys[..i] + ys[i + 1..];
      assert ys == ys[..i] + [last] + ys[i + 1..];
      assert multiset(ys) == multiset(ys[..i]) + multiset{last} + multiset(ys[i + 1..]);
      assert multiset(xs) == multiset(init) + multiset{last};
      assert multiset(rest) == multiset(ys[..i]) + multiset(ys[i + 1..]);
      MultisetCancel(multiset(init), multiset(rest), last);
      TotalIgnoresOrder(init, rest);
      CashOnHandSteps(0.0, ys[..i], ys[i + 1..], last);
    }
  }

  lemma MultisetCancel<T>(a: multiset<T>, b: multiset<T>, x: T)
    requires a + multiset{x} == b + multiset{x}
    ensures a == b
  {
    forall z ensures a[z] == b[z] {
      assert (a + multiset{x})[z] == (b + multiset{x})[z];
    }
  }

  /** Positive amounts: the total is not negative, and positive as soon as
      there is one expense */
  lemma {:induction false} TotalOfPositiveAmounts(xs: seq<ExpenseRow>)
    requires forall e :: e in xs ==> e.amount > 0.0
    ensures Total(xs) >= 0.0
    ensures xs != [] ==> Total(xs) > 0.0
    decreases |xs|
  {
    if xs != [] {
      var init := xs[..|xs| - 1];
      assert forall e :: e in init ==> e in xs;
      TotalOfPositiveAmounts(init);
    }
  }

  /** With positive amounts the cash on hand never exceeds the goal, and is
      below it once there is an expense */
  lemma CashOnHandAtMostGoal(goal: real, xs: seq<ExpenseRow>)
    requires forall e :: e in xs ==> e.amount > 0.0
    ensures CashOnHand(goal, xs) <= goal
    ensures xs != [] ==> CashOnHand(goal, xs) < goal
  {
    TotalOfPositiveAmounts(xs);
  }

  // ---------------------------------------------------------------------
  // Reading budgets with their expenses

  /** The rows of the expense table that belong to budget `budgetId` */
  function ExpensesOf(expenses: ExpenseTable, budgetId: Id): (r: ExpenseTable)
    ensures forall k :: k in r <==> k in expenses && expenses[k].monthlyExpenseId == budgetId
    ensures forall k :: k in r ==> r[k] == expenses[k]
  {
    map k | k in expenses && expenses[k].monthlyExpenseId == budgetId :: expenses[k]
  }

  /** A budget row with `include: { expenses: true }` */
  datatype RowWithExpenses = RowWithExpenses(budget: MonthlyExpenseRow, expenses: seq<ExpenseRow>)

  /** What getMonthlyExpense returns: the budget with its expenses, plus cashOnHand */
  datatype RowWithCashOnHand = RowWithCashOnHand(
    budget: MonthlyExpenseRow, expenses: seq<ExpenseRow>, cashOnHand: real)

  ghost function WithExpenses(expenses: ExpenseTable, budget: MonthlyExpenseRow): (r: RowWithExpenses)
    ensures r.budget == budget
    ensures forall e :: e in r.expenses <==> e in expenses.Values && e.monthlyExpenseId == budget.id
    ensures |r.expenses| == |ExpensesOf(expenses, budget.id)|
  {
    var mine := ExpensesOf(expenses, budget.id);
    RowsHoldValues(mine);
    assert forall e :: e in mine.Values <==> e in expenses.Values && e.monthlyExpenseId == budget.id;
    RowWithExpenses(budget, Rows(mine))
  }

  /** `getMonthlyExpense(id, userId)`: the budget with that id, only if it
      belongs to that user, with its expenses as stored and the goal minus
      their total. Any other case is the "Not found" error. */
  ghost function GetMonthlyExpense(budgets: MonthlyExpenseTable, expenses: ExpenseTable, id: Id, userId: Id)
    : (r: Result<RowWithCashOnHand, DbError>)
    ensures r.Success? <==> id in budgets && budgets[id].userId == userId
    ensures r.Failure? ==> r.error == NotFound
    ensures r.Success? ==> r.value.budget == budgets[id]
    ensures r.Success? ==> forall e :: e in r.value.expenses <==> e in expenses.Values && e.monthlyExpenseId == budgets[id].id
    ensures r.Success? ==> |r.value.expenses| == |ExpensesOf(expenses, budgets[id].id)|
    ensures r.Success? ==> r.value.cashOnHand == CashOnHand(budgets[id].budgetGoal, r.value.expenses)
  {
    if id in budgets && budgets[id].userId == userId then
      var found := WithExpenses(expenses, budgets[id]);
      Success(RowWithCashOnHand(found.budget, found.expenses, CashOnHand(found.budget.budgetGoal, found.expenses)))
    else Failure(NotFound)
  }

  /** The cash on hand is the goal minus the total of the budget's
      expenses taken in any order */
  lemma CashOnHandOfAnyListing(budgets: MonthlyExpenseTable, expenses: ExpenseTable, id: Id, userId: Id, listing: seq<ExpenseRow>)
    requires GetMonthlyExpense(budgets, expenses, id, userId).Success?
    requires multiset(listing) == multiset(Rows(ExpensesOf(expenses, budgets[id].id)))
    ensures GetMonthlyExpense(budgets, expenses, id, userId).value.cashOnHand == CashOnHand(budgets[id].budgetGoal, listing)
  {
    TotalIgnoresOrder(listing, Rows(ExpensesOf(expenses, budgets[id].id)));
  }

  /** A budget of another owner is never returned */
  lemma OtherOwnersBudgetIsNotFound(budgets: MonthlyExpenseTable, expenses: ExpenseTable, id: Id, userId: Id)
    requires id in budgets && budgets[id].userId != userId
    ensures GetMonthlyExpense(budgets, expenses, id, userId) == Failure(NotFound)
  {
  }

  /** With positive amounts in the table the cash on hand of a budget is at
      most its goal, and below it when the budget has an expense */
  lemma StoredCashOnHandAtMostGoal(budgets: MonthlyExpenseTable, expenses: ExpenseTable, id: Id, userId: Id)
    requires PositiveAmounts(expenses)
    requires GetMonthlyExpense(budgets, expenses, id, userId).Success?
    ensures GetMonthlyExpense(budgets, expenses, id, userId).value.cashOnHand <= budgets[id].budgetGoal
    ensures ExpensesOf(expenses, budgets[id].id) != map[] ==>
      GetMonthlyExpense(budgets, expenses, id, userId).value.cashOnHand < budgets[id].budgetGoal
  {
    var r := GetMonthlyExpense(budgets, expenses, id, userId).value;
    assert forall e :: e in r.expenses ==> e.amount > 0.0;
    CashOnHandAtMostGoal(budgets[id].budgetGoal, r.expenses);
    if ExpensesOf(expenses, budgets[id].id) != map[] {
      var k :| k in ExpensesOf(expenses, budgets[id].id);
      assert expenses[k] in r.expenses;
    }
  }

  /** Nothing keeps a budget's expenses within its goal: a budget with a
      positive goal holding one positive expense larger than that goal is
      reported with a negative cashOnHand, which the response schema lets
      through (Schemas.CashOnHandUnconstrained) */
  lemma OverspentBudgetHasNegativeCashOnHand(b: MonthlyExpenseRow, e: ExpenseRow)
    requires e.monthlyExpenseId == b.id
    requires 0.0 < b.budgetGoal < e.amount
    ensures var r := GetMonthlyExpense(map[b.id := b], map[e.id := e], b.id, b.userId);
            r.Success? && r.value.cashOnHand == b.budgetGoal - e.amount && r.value.cashOnHand < 0.0
  {
    var expenses := map[e.id := e];
    assert ExpensesOf(expenses, b.id) == expenses;
    RowsHoldValues(expenses);
    var rows := Rows(expenses);
    assert |rows| == 1 && rows[0] in expenses.Values;
    assert rows == [e];
    assert Total([e]) == Total([]) + e.amount;
  }

  // ---------------------------------------------------------------------
  // getMonthlyExpenses

  /** The budgets of `userId` */
  function OwnedBy(budgets: MonthlyExpenseTable, userId: Id): (r: MonthlyExpenseTable)
    ensures forall k :: k in r <==> k in budgets && budgets[k].userId == userId
    ensures forall k :: k in r ==> r[k] == budgets[k]
  {
    map k | k in budgets && budgets[k].userId == userId :: budgets[k]
  }

  /** `getMonthlyExpenses(userId)` as evidently intended: the list
      `findMany({ where: { userId }, include: { expenses: true } })` yields,
      with every budget of the user once, each with its expenses, and no
      cashOnHand */
  ghost function GetMonthlyExpenses(budgets: MonthlyExpenseTable, expenses: ExpenseTable, userId: Id)
    : (r: seq<RowWithExpenses>)
    ensures |r| == |OwnedBy(budgets, userId)|
    ensures forall i :: 0 <= i < |r| ==> r[i] == WithExpenses(expenses, r[i].budget)
    ensures forall b :: b in budgets.Values && b.userId == userId <==> exists i :: 0 <= i < |r| && r[i].budget == b
  {
    var rows := Rows(OwnedBy(budgets, userId));
    var r := seq(|rows|, i requires 0 <= i < |rows| => WithExpenses(expenses, rows[i]));
    ListingHoldsOwned(budgets, expenses, userId, rows, r);
    r
  }

  lemma ListingHoldsOwned(budgets: MonthlyExpenseTable, expenses: ExpenseTable, userId: Id,
                          rows: seq<MonthlyExpenseRow>, r: seq<RowWithExpenses>)
    requires rows == Rows(OwnedBy(budgets, userId))
    requires |r| == |rows| && forall i :: 0 <= i < |r| ==> r[i].budget == rows[i]
    ensures forall b :: b in budgets.Values && b.userId == userId <==> exists i :: 0 <= i < |r| && r[i].budget == b
  {
    var mine := OwnedBy(budgets, userId);
    RowsHoldValues(mine);
    forall b | b in budgets.Values && b.userId == userId ensures exists i :: 0 <= i < |r| && r[i].budget == b {
      assert b in mine.Values;
      var i :| 0 <= i < |rows| && rows[i] == b;
      assert r[i].budget == b;
    }
    forall i | 0 <= i < |r| ensures r[i].budget in budgets.Values && r[i].budget.userId == userId {
      assert rows[i] in Rows(mine);
    }
  }

  /** `getMonthlyExpenses` as written: `{ ...list }` spreads the list into a
      plain object keyed by position, and the not-found test before it sees
      a list, which is never falsy */
  ghost function GetMonthlyExpensesAsWritten(budgets: MonthlyExpenseTable, expenses: ExpenseTable, userId: Id)
    : (r: Result<map<nat, RowWithExpenses>, DbError>)
    ensures r.Success?
    ensures forall i: nat :: i in r.value <==> i < |GetMonthlyExpenses(budgets, expenses, userId)|
    ensures forall i :: i in r.value ==> r.value[i] == GetMonthlyExpenses(budgets, expenses, userId)[i]
  {
    var found := GetMonthlyExpenses(budgets, expenses, userId);
    Success(map i: nat | i < |found| :: found[i])
  }

  /** A user with no budget gets the empty object `{}` rather than an empty
      list, and the "Not found" error is never raised */
  lemma NoBudgetsGiveEmptyObject(budgets: MonthlyExpenseTable, expenses: ExpenseTable, userId: Id)
    requires forall k :: k in budgets ==> budgets[k].userId != userId
    ensures GetMonthlyExpensesAsWritten(budgets, expenses, userId) == Success(map[])
  {
    assert OwnedBy(budgets, userId) == map[];
  }

  // ---------------------------------------------------------------------
  // getMonthlyExpense reached with fields missing from the request

  /** Prisma's `where: { id, userId }` with a field left undefined places no
      condition on that column */
  predicate Matches(b: MonthlyExpenseRow, id: Option<Id>, userId: Option<Id>) {
    (id.None? || b.id == id.value) && (userId.None? || b.userId == userId.value)
  }

  /** `findFirst`: some row meeting the conditions, if there is one */
  ghost function FindFirst(budgets: MonthlyExpenseTable, id: Option<Id>, userId: Option<Id>): (r: Option<MonthlyExpenseRow>)
    ensures r.Some? <==> exists k :: k in budgets && Matches(budgets[k], id, userId)
    ensures r.Some? ==> r.value in budgets.Values && Matches(r.value, id, userId)
  {
    if exists k :: k in budgets && Matches(budgets[k], id, userId) then
      var k :| k in budgets && Matches(budgets[k], id, userId);
      Some(budgets[k])
    else None
  }

  /** getMonthlyExpense as written, given the `id` and `userId` of the request
      body, either of which may be missing */
  ghost function GetMonthlyExpenseAsWritten(budgets: MonthlyExpenseTable, expenses: ExpenseTable, id: Option<Id>, userId: Option<Id>)
    : (r: Result<RowWithCashOnHand, DbError>)
    ensures r.Success? <==> exists k :: k in budgets && Matches(budgets[k], id, userId)
    ensures r.Success? ==> r.value.budget in budgets.Values && Matches(r.value.budget, id, userId)
  {
    match FindFirst(budgets, id, userId)
    case None => Failure(NotFound)
    case Some(b) =>
      var found := WithExpenses(expenses, b);
      Success(RowWithCashOnHand(b, found.expenses, CashOnHand(b.budgetGoal, found.expenses)))
  }

  /** A request naming a budget and no owner gets that budget, whoever owns it */
  lemma MissingOwnerReturnsAnyOwnersBudget(budgets: MonthlyExpenseTable, expenses: ExpenseTable, id: Id)
    requires forall k :: k in budgets ==> budgets[k].id == k
    requires id in budgets
    ensures GetMonthlyExpenseAsWritten(budgets, expenses, Some(id), None) == GetMonthlyExpense(budgets, expenses, id, budgets[id].userId)
  {
  }

  /** Concretely: budget "b1" of user "alice" is returned for the body
      `{ id: "b1" }`, while the owner-checked lookup by "bob" is refused */
  lemma MissingOwnerCounterexample()
    ensures var budgets := map["b1" := MonthlyExpenseRow("b1", 3.0, 100.0, "alice", Stamps(None, None, None))];
            GetMonthlyExpenseAsWritten(budgets, map[], Some("b1"), None).Success?
            && GetMonthlyExpenseAsWritten(budgets, map[], Some("b1"), None).value.budget.userId == "alice"
            && GetMonthlyExpenseForRequest(budgets, map[], Some("b1"), Some("bob")) == Failure(NotFound)
            && GetMonthlyExpenseForRequest(budgets, map[], Some("b1"), None) == Failure(NotFound)
  {
    var budgets := map["b1" := MonthlyExpenseRow("b1", 3.0, 100.0, "alice", Stamps(None, None, None))];
    assert "b1" in budgets && Matches(budgets["b1"], Some("b1"), None);
  }

  /** getMonthlyExpense corrected for requests: a missing id or owner is
      "Not found"; otherwise the owner-checked lookup */
  ghost function GetMonthlyExpenseForRequest(budgets: MonthlyExpenseTable, expenses: ExpenseTable, id: Option<Id>, userId: Option<Id>)
    : (r: Result<RowWithCashOnHand, DbError>)
    ensures r.Success? <==> id.Some? && userId.Some? && id.value in budgets && budgets[id.value].userId == userId.value
    ensures r.Success? ==> r.value.budget.userId == userId.value
  {
    if id.None? || userId.None? then Failure(NotFound)
    else GetMonthlyExpense(budgets, expenses, id.value, userId.value)
  }

  /** When the request carries both fields and rows sit under their own ids,
      the code as written and the corrected lookup agree */
  lemma FullRequestAgrees(budgets: MonthlyExpenseTable, expenses: ExpenseTable, id: Id, userId: Id)
    requires forall k :: k in budgets ==> budgets[k].id == k
    ensures GetMonthlyExpenseAsWritten(budgets, expenses, Some(id), Some(userId))
            == GetMonthlyExpenseForRequest(budgets, expenses, Some(id), Some(userId))
  {
  }
}
