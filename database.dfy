/** The relational store the two services talk to, reduced to what they
    use: a monthly-expense table and an expense table, each a map from a
    row's id to the row. The id and the audit timestamps of a new row are
    generated by the store; the model receives them as arguments. */
module Database {
  import opened Results
  import opened Schemas

  type Id = string

  /** A JavaScript Date built from the ISO-8601 text it was given. Date's
      calendar arithmetic is not modelled. */
  datatype Instant = DateOf(text: string)

  /** A row's createdAt, updatedAt and deletedAt columns */
  datatype Stamps = Stamps(createdAt: Option<Instant>, updatedAt: Option<Instant>, deletedAt: Option<Instant>)

  datatype ExpenseRow = ExpenseRow(
    id: Id, description: string, category: Category, amount: real,
    date: Instant, monthlyExpenseId: Id, stamps: Stamps)

  datatype MonthlyExpenseRow = MonthlyExpenseRow(
    id: Id, month: real, budgetGoal: real, userId: Id, stamps: Stamps)

  /** The store's failures the services can meet: no row with the given id,
      a primary key taken twice, a budget id that names no budget */
  datatype DbError = NotFound | UniqueViolation | ForeignKeyViolation

  type MonthlyExpenseTable = map<Id, MonthlyExpenseRow>
  type ExpenseTable = map<Id, ExpenseRow>

  /** Every row is stored under its own id, and every expense belongs to a
      budget that exists (the relation between the two tables) */
  predicate Consistent(budgets: MonthlyExpenseTable, expenses: ExpenseTable) {
    (forall k :: k in budgets ==> budgets[k].id == k)
    && (forall k :: k in expenses ==> expenses[k].id == k && expenses[k].monthlyExpenseId in budgets)
  }

  /** Every stored amount is positive, as expenseSchema demands of the data
      the routes hand to the service */
  predicate PositiveAmounts(expenses: ExpenseTable) {
    forall k :: k in expenses ==> expenses[k].amount > 0.0
  }

  /** The single store object both services are given */
  class Store {
    var monthlyExpenses: MonthlyExpenseTable
    var expenses: ExpenseTable

    ghost predicate Valid()
      reads this
    {
      Consistent(monthlyExpenses, expenses)
    }

    constructor ()
      ensures Valid()
      ensures monthlyExpenses == map[] && expenses == map[]
    {
      monthlyExpenses := map[];
      expenses := map[];
    }
  }

  // ---------------------------------------------------------------------
  // The rows of a query, in the order the store returns them. No query of
  // the services asks for an order, so the model fixes none: Rows lists a
  // table's rows in an arbitrary order, and everything proved about it
  // holds for any order.

  ghost function Pick<K, V>(m: map<K, V>): (k: K)
    requires |m| > 0
    ensures k in m
  {
    assert m.Keys != {};
    var k :| k in m; k
  }

  /** A listing of the values of `m`, one entry per key */
  ghost function Rows<K, V>(m: map<K, V>): (r: seq<V>)
    ensures |r| == |m|
    decreases |m|
  {
    if |m| == 0 then []
    else
      var j := Pick(m);
      assert (m - {j}).Keys == m.Keys - {j};
      [m[j]] + Rows(m - {j})
  }

  /** The listing of a map holds the entry of any key and, once that is
      taken away, the listing of the rest: it is the map's values counted
      one per key, whatever order it picks. */
  lemma {:induction false} RowsRemove<K, V>(m: map<K, V>, k: K)
    requires k in m
    ensures multiset(Rows(m)) == multiset{m[k]} + multiset(Rows(m - {k}))
    decreases |m|
  {
    var j := Pick(m);
    if j == k {
      RowsRemovePicked(m);
    } else {
      RemoveShrinks(m, j);
      RemoveShrinks(m, k);
      RowsRemove(m - {j}, k);
      RowsRemove(m - {k}, j);
      RowsRemoveOther(m, j, k);
    }
  }

  lemma RowsRemovePicked<K, V>(m: map<K, V>)
    requires |m| > 0
    ensures multiset(Rows(m)) == multiset{m[Pick(m)]} + multiset(Rows(m - {Pick(m)}))
  {
  }

  /** The step of RowsRemove for a key other than the one Rows picked */
  lemma RowsRemoveOther<K, V>(m: map<K, V>, j: K, k: K)
    requires j in m && k in m && j != k && Pick(m) == j
    requires multiset(Rows(m - {j})) == multiset{m[k]} + multiset(Rows(m - {j} - {k}))
    requires multiset(Rows(m - {k})) == multiset{m[j]} + multiset(Rows(m - {k} - {j}))
    ensures multiset(Rows(m)) == multiset{m[k]} + multiset(Rows(m - {k}))
  {
    RowsRemovePicked(m);
    RemoveCommutes(m, j, k);
  }

  lemma RemoveShrinks<K, V>(m: map<K, V>, k: K)
    requires k in m
    ensures |m - {k}| == |m| - 1
    ensures forall j :: j in m && j != k ==> j in m - {k} && (m - {k})[j] == m[j]
  {
    assert (m - {k}).Keys == m.Keys - {k};
  }

  lemma RemoveCommutes<K, V>(m: map<K, V>, j: K, k: K)
    ensures m - {j} - {k} == m - {k} - {j}
  {
  }

  /** Adding a key adds its value to the listing */
  lemma RowsInsert<K, V>(m: map<K, V>, k: K, v: V)
    requires k !in m
    ensures multiset(Rows(m[k := v])) == multiset(Rows(m)) + multiset{v}
  {
    RowsRemove(m[k := v], k);
    assert m[k := v] - {k} == m;
  }

  /** A listing holds exactly the values of the map */
  lemma {:induction false} RowsHoldValues<K, V>(m: map<K, V>)
    ensures forall v :: v in Rows(m) <==> v in m.Values
    decreases |m|
  {
    if |m| > 0 {
      var j := Pick(m);
      RemoveShrinks(m, j);
      RowsHoldValues(m - {j});
      assert Rows(m) == [m[j]] + Rows(m - {j});
      forall v | v in m.Values ensures v in Rows(m) {
        var k :| k in m && m[k] == v;
        if k != j { assert v in (m - {j}).Values; }
      }
    }
  }
}
