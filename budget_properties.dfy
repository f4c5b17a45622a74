/** How the expense operations move the cash on hand that getMonthlyExpense
    reports: creating an expense lowers its budget's cash by the amount,
    deleting one raises it by the amount, an update does both, and no other
    budget is affected. */
module BudgetProperties {
  import opened Results
  import opened Schemas
  import opened Database
  import opened ExpenseService
  import opened MonthlyExpenseService

  /** Every budget row sits under its own id */
  predicate KeyedById(budgets: MonthlyExpenseTable) {
    forall k :: k in budgets ==> budgets[k].id == k
  }

  /** The amount an expense row contributes to budget `b` */
  function Share(row: ExpenseRow, b: Id): real {
    if row.monthlyExpenseId == b then row.amount else 0.0
  }

  lemma ExpensesOfInsert(expenses: ExpenseTable, k: Id, row: ExpenseRow, b: Id)
    requires k !in expenses
    ensures row.monthlyExpenseId == b ==> ExpensesOf(expenses[k := row], b) == ExpensesOf(expenses, b)[k := row]
    ensures row.monthlyExpenseId != b ==> ExpensesOf(expenses[k := row], b) == ExpensesOf(expenses, b)
  {
  }

  lemma ExpensesOfRemove(expenses: ExpenseTable, k: Id, b: Id)
    ensures ExpensesOf(expenses - {k}, b) == ExpensesOf(expenses, b) - {k}
  {
  }

  /** The total of a budget's listing after one row was added to it */
  lemma TotalAfterInsert(m: ExpenseTable, k: Id, row: ExpenseRow)
    requires k !in m
    ensures Total(Rows(m[k := row])) == Total(Rows(m)) + row.amount
  {
    RowsInsert(m, k, row);
    assert multiset(Rows(m) + [row]) == multiset(Rows(m)) + multiset{row};
    TotalIgnoresOrder(Rows(m[k := row]), Rows(m) + [row]);
    TotalAppend(Rows(m), [row]);
    assert Total([row]) == Total([]) + row.amount;
  }

  /** The total of a budget's listing after one row was taken from it */
  lemma TotalAfterRemove(m: ExpenseTable, k: Id)
    requires k in m
    ensures Total(Rows(m - {k})) == Total(Rows(m)) - m[k].amount
  {
    RowsRemove(m, k);
    assert multiset(Rows(m - {k}) + [m[k]]) == multiset(Rows(m - {k})) + multiset{m[k]};
    TotalIgnoresOrder(Rows(m), Rows(m - {k}) + [m[k]]);
    TotalAppend(Rows(m - {k}), [m[k]]);
    assert Total([m[k]]) == Total([]) + m[k].amount;
  }

  /** Storing a new expense row lowers the cash on hand of its budget by
      its amount and leaves every other budget's as it was */
  lemma InsertLowersCashOnHand(budgets: MonthlyExpenseTable, expenses: ExpenseTable, k: Id, row: ExpenseRow, b: Id, userId: Id)
    requires KeyedById(budgets) && k !in expenses
    ensures GetMonthlyExpense(budgets, expenses[k := row], b, userId).Success?
            == GetMonthlyExpense(budgets, expenses, b, userId).Success?
    ensures GetMonthlyExpense(budgets, expenses, b, userId).Success? ==>
            GetMonthlyExpense(budgets, expenses[k := row], b, userId).value.cashOnHand
            == GetMonthlyExpense(budgets, expenses, b, userId).value.cashOnHand - Share(row, b)
  {
    ExpensesOfInsert(expenses, k, row, b);
    if row.monthlyExpenseId == b {
      TotalAfterInsert(ExpensesOf(expenses, b), k, row);
    }
  }

  /** Deleting an expense row raises the cash on hand of its budget by its
      amount and leaves every other budget's as it was */
  lemma RemoveRaisesCashOnHand(budgets: MonthlyExpenseTable, expenses: ExpenseTable, k: Id, b: Id, userId: Id)
    requires KeyedById(budgets) && k in expenses
    ensures GetMonthlyExpense(budgets, expenses - {k}, b, userId).Success?
            == GetMonthlyExpense(budgets, expenses, b, userId).Success?
    ensures GetMonthlyExpense(budgets, expenses, b, userId).Success? ==>
            GetMonthlyExpense(budgets, expenses - {k}, b, userId).value.cashOnHand
            == GetMonthlyExpense(budgets, expenses, b, userId).value.cashOnHand + Share(expenses[k], b)
  {
    ExpensesOfRemove(expenses, k, b);
    if expenses[k].monthlyExpenseId == b {
      TotalAfterRemove(ExpensesOf(expenses, b), k);
    } else {
      assert ExpensesOf(expenses, b) - {k} == ExpensesOf(expenses, b);
    }
  }

  /** After createExpense succeeds, what getMonthlyExpense reports for the
      new expense's budget has dropped by the new amount */
  lemma CreateExpenseLowersCashOnHand(budgets: MonthlyExpenseTable, expenses: ExpenseTable, data: Expense, newId: Id, stamps: Stamps, userId: Id)
    requires Consistent(budgets, expenses) && newId !in expenses
    requires GetMonthlyExpense(budgets, expenses, data.monthlyExpenseId, userId).Success?
    ensures GetMonthlyExpense(budgets, expenses[newId := NewExpenseRow(data, newId, stamps)], data.monthlyExpenseId, userId).value.cashOnHand
            == GetMonthlyExpense(budgets, expenses, data.monthlyExpenseId, userId).value.cashOnHand - data.amount
  {
    InsertLowersCashOnHand(budgets, expenses, newId, NewExpenseRow(data, newId, stamps), data.monthlyExpenseId, userId);
  }

  /** After deleteExpense succeeds, what getMonthlyExpense reports for the
      deleted expense's budget has risen by its amount */
  lemma DeleteExpenseRaisesCashOnHand(budgets: MonthlyExpenseTable, expenses: ExpenseTable, id: Id, userId: Id)
    requires Consistent(budgets, expenses) && id in expenses
    requires GetMonthlyExpense(budgets, expenses, expenses[id].monthlyExpenseId, userId).Success?
    ensures GetMonthlyExpense(budgets, expenses - {id}, expenses[id].monthlyExpenseId, userId).value.cashOnHand
            == GetMonthlyExpense(budgets, expenses, expenses[id].monthlyExpenseId, userId).value.cashOnHand + expenses[id].amount
  {
    RemoveRaisesCashOnHand(budgets, expenses, id, expenses[id].monthlyExpenseId, userId);
  }

  /** After updateExpense succeeds, every budget's cash on hand has gained
      the old row's share and lost the new row's: the same budget moves by
      the change of amount, and moving an expense to another budget shifts
      its amount from one budget to the other */
  lemma UpdateExpenseMovesCashOnHand(budgets: MonthlyExpenseTable, expenses: ExpenseTable, id: Id, p: ExpensePatch, b: Id, userId: Id)
    requires Consistent(budgets, expenses)
    requires UpdateOutcome(budgets, expenses, id, p).Success?
    requires GetMonthlyExpense(budgets, expenses, b, userId).Success?
    ensures var row := UpdateOutcome(budgets, expenses, id, p).value;
            var after := (expenses - {id})[row.id := row];
            GetMonthlyExpense(budgets, after, b, userId).Success?
            && GetMonthlyExpense(budgets, after, b, userId).value.cashOnHand
               == GetMonthlyExpense(budgets, expenses, b, userId).value.cashOnHand + Share(expenses[id], b) - Share(row, b)
  {
    var row := UpdateOutcome(budgets, expenses, id, p).value;
    RemoveRaisesCashOnHand(budgets, expenses, id, b, userId);
    InsertLowersCashOnHand(budgets, expenses - {id}, row.id, row, b, userId);
  }

  /** Amounts stay positive through every operation the schemas allow:
      creating a valid expense and applying a valid patch */
  lemma OperationsKeepAmountsPositive(f: Formats, expenses: ExpenseTable, budgets: MonthlyExpenseTable,
                                      data: Expense, newId: Id, stamps: Stamps, id: Id, p: ExpensePatch)
    requires PositiveAmounts(expenses)
    requires ValidExpense(f, data) && ValidExpensePatch(f, p)
    ensures PositiveAmounts(expenses[newId := NewExpenseRow(data, newId, stamps)])
    ensures UpdateOutcome(budgets, expenses, id, p).Success? ==>
            PositiveAmounts((expenses - {id})[UpdateOutcome(budgets, expenses, id, p).value.id := UpdateOutcome(budgets, expenses, id, p).value])
    ensures PositiveAmounts(expenses - {id})
  {
    CreatedRowFromValidInput(f, data, newId, stamps);
    if id in expenses {
      ValidPatchKeepsAmountPositive(f, expenses[id], p);
    }
  }
}
