/** The expense service: create, partially update and delete one row of
    the expense table, keyed by id. Each operation is one call to the store;
    its failures (no such row, a key taken twice, a budget that does not
    exist) come back as the store reports them. */
module ExpenseService {
  import opened Results
  import opened Schemas
  import opened Database

  /** The row createExpense hands to the store: the five data fields, the
      date turned into a Date, and the id and timestamps the store
      generates. The input's own id and timestamps are not copied. */
  function NewExpenseRow(data: Expense, id: Id, stamps: Stamps): ExpenseRow {
    ExpenseRow(id, data.description, data.category, data.amount, DateOf(data.date), data.monthlyExpenseId, stamps)
  }

  /** The fields of an expense that createExpense stores */
  predicate SameContent(d1: Expense, d2: Expense) {
    d1.description == d2.description && d1.category == d2.category && d1.amount == d2.amount
    && d1.date == d2.date && d1.monthlyExpenseId == d2.monthlyExpenseId
  }

  /** Creating copies exactly the stored fields: two inputs give the same row
      if and only if they agree on those fields, whatever their own id and
      timestamps */
  lemma CreateCopiesExactlyTheDataFields(d1: Expense, d2: Expense, id: Id, stamps: Stamps)
    ensures NewExpenseRow(d1, id, stamps) == NewExpenseRow(d2, id, stamps) <==> SameContent(d1, d2)
  {
  }

  /** An expense the schema accepted is stored with a positive amount and
      under the id and timestamps the store chose */
  lemma CreatedRowFromValidInput(f: Formats, data: Expense, id: Id, stamps: Stamps)
    requires ValidExpense(f, data)
    ensures NewExpenseRow(data, id, stamps).amount > 0.0
    ensures NewExpenseRow(data, id, stamps).id == id && NewExpenseRow(data, id, stamps).stamps == stamps
  {
  }

  /** `createExpense`. `newId` is the key the store generates for the row. */
  method CreateExpense(db: Store, data: Expense, newId: Id, stamps: Stamps) returns (r: Result<ExpenseRow, DbError>)
    requires db.Valid()
    requires newId !in db.expenses
    modifies db
    ensures db.Valid()
    ensures db.monthlyExpenses == old(db.monthlyExpenses)
    ensures r == if data.monthlyExpenseId in old(db.monthlyExpenses)
                 then Success(NewExpenseRow(data, newId, stamps))
                 else Failure(ForeignKeyViolation)
    ensures r.Success? ==> db.expenses == old(db.expenses)[newId := r.value]
    ensures r.Failure? ==> db.expenses == old(db.expenses)
  {
    if data.monthlyExpenseId !in db.monthlyExpenses {
      return Failure(ForeignKeyViolation);
    }
    var row := NewExpenseRow(data, newId, stamps);
    db.expenses := db.expenses[newId := row];
    r := Success(row);
  }

  // ---------------------------------------------------------------------
  // updateExpense

  /** A timestamp field of the patch as the store column it overwrites */
  function PatchStamp(v: Option<string>, stored: Option<Instant>): Option<Instant> {
    if v.Some? then Some(DateOf(v.value)) else stored
  }

  /** The row after `{ ...data, date: data.date ? new Date(data.date) : undefined }`
      is written over it: every field the patch carries replaces the
      stored one, the id and the timestamps included; a field the patch does
      not carry keeps its value. The date is replaced only when it is
      present and not the empty string, which JavaScript treats as false. */
  function ApplyPatch(row: ExpenseRow, p: ExpensePatch): (r: ExpenseRow)
    ensures r.id == p.id.GetOr(row.id)
    ensures r.description == p.description.GetOr(row.description)
    ensures r.category == p.category.GetOr(row.category)
    ensures r.amount == p.amount.GetOr(row.amount)
    ensures r.monthlyExpenseId == p.monthlyExpenseId.GetOr(row.monthlyExpenseId)
    ensures r.date != row.date ==> p.date.Some? && p.date.value != "" && r.date == DateOf(p.date.value)
    ensures p.date.Some? && p.date.value != "" ==> r.date == DateOf(p.date.value)
    ensures r.stamps.createdAt == if p.audit.createdAt.Some? then Some(DateOf(p.audit.createdAt.value)) else row.stamps.createdAt
    ensures r.stamps.updatedAt == if p.audit.updatedAt.Some? then Some(DateOf(p.audit.updatedAt.value)) else row.stamps.updatedAt
    ensures r.stamps.deletedAt == if p.audit.deletedAt.Some? then Some(DateOf(p.audit.deletedAt.value)) else row.stamps.deletedAt
  {
    ExpenseRow(
      p.id.GetOr(row.id),
      p.description.GetOr(row.description),
      p.category.GetOr(row.category),
      p.amount.GetOr(row.amount),
      if p.date.Some? && p.date.value != "" then DateOf(p.date.value) else row.date,
      p.monthlyExpenseId.GetOr(row.monthlyExpenseId),
      Stamps(PatchStamp(p.audit.createdAt, row.stamps.createdAt),
             PatchStamp(p.audit.updatedAt, row.stamps.updatedAt),
             PatchStamp(p.audit.deletedAt, row.stamps.deletedAt)))
  }

  const EmptyPatch := ExpensePatch(None, None, None, None, None, None, NoAudit)

  /** Patch `q` applied after patch `p`: every field `q` sets wins */
  function Then(p: ExpensePatch, q: ExpensePatch): ExpensePatch {
    ExpensePatch(
      if q.id.Some? then q.id else p.id,
      if q.description.Some? then q.description else p.description,
      if q.category.Some? then q.category else p.category,
      if q.amount.Some? then q.amount else p.amount,
      if q.date.Some? && q.date.value != "" then q.date else p.date,
      if q.monthlyExpenseId.Some? then q.monthlyExpenseId else p.monthlyExpenseId,
      Audit(if q.audit.createdAt.Some? then q.audit.createdAt else p.audit.createdAt,
            if q.audit.updatedAt.Some? then q.audit.updatedAt else p.audit.updatedAt,
            if q.audit.deletedAt.Some? then q.audit.deletedAt else p.audit.deletedAt))
  }

  /** A patch that carries nothing changes nothing */
  lemma EmptyPatchChangesNothing(row: ExpenseRow)
    ensures ApplyPatch(row, EmptyPatch) == row
  {
  }

  /** Applying the same patch twice is applying it once */
  lemma PatchIsIdempotent(row: ExpenseRow, p: ExpensePatch)
    ensures ApplyPatch(ApplyPatch(row, p), p) == ApplyPatch(row, p)
  {
  }

  /** Two updates in a row are one update with the later fields winning */
  lemma PatchesCompose(row: ExpenseRow, p: ExpensePatch, q: ExpensePatch)
    ensures ApplyPatch(ApplyPatch(row, p), q) == ApplyPatch(row, Then(p, q))
  {
  }

  /** Updating with every field of an expense (and no id or timestamps) makes
      the row what creating that expense under the row's id would have made */
  lemma FullPatchIsCreate(row: ExpenseRow, data: Expense)
    requires data.id.None? && data.audit == NoAudit && data.date != ""
    ensures ApplyPatch(row, PatchOf(data)) == NewExpenseRow(data, row.id, row.stamps)
  {
  }

  /** With zod's datetime format, which rejects the empty string, a date the
      partial schema accepted always replaces the stored one, and an absent
      date never does */
  lemma PatchDateReplacedExactlyWhenSupplied(f: Formats, row: ExpenseRow, p: ExpensePatch)
    requires !f.datetime("") && ValidExpensePatch(f, p)
    ensures p.date.Some? ==> ApplyPatch(row, p).date == DateOf(p.date.value)
    ensures p.date.None? ==> ApplyPatch(row, p).date == row.date
  {
  }

  /** A patch the schema accepted keeps a positive amount positive */
  lemma ValidPatchKeepsAmountPositive(f: Formats, row: ExpenseRow, p: ExpensePatch)
    requires ValidExpensePatch(f, p) && row.amount > 0.0
    ensures ApplyPatch(row, p).amount > 0.0
  {
  }

  /** What updateExpense returns for a row of `expenses`: no row with that
      id, a new id another row already has, a new budget id naming no
      budget, or the updated row */
  function UpdateOutcome(budgets: MonthlyExpenseTable, expenses: ExpenseTable, id: Id, p: ExpensePatch): (r: Result<ExpenseRow, DbError>)
    ensures r.Success? ==> id in expenses && r.value == ApplyPatch(expenses[id], p)
    ensures r.Success? ==> r.value.monthlyExpenseId in budgets && (r.value.id == id || r.value.id !in expenses)
    ensures id !in expenses ==> r == Failure(NotFound)
    ensures r.Success? <==> id in expenses && (ApplyPatch(expenses[id], p).id == id || ApplyPatch(expenses[id], p).id !in expenses)
                            && ApplyPatch(expenses[id], p).monthlyExpenseId in budgets
  {
    if id !in expenses then Failure(NotFound)
    else
      var row := ApplyPatch(expenses[id], p);
      if row.id != id && row.id in expenses then Failure(UniqueViolation)
      else if row.monthlyExpenseId !in budgets then Failure(ForeignKeyViolation)
      else Success(row)
  }

  /** `updateExpense`: the row keyed `id` is replaced by the patched row,
      under the patched row's id; nothing else in the store changes, and on
      failure nothing changes at all */
  method UpdateExpense(db: Store, id: Id, data: ExpensePatch) returns (r: Result<ExpenseRow, DbError>)
    requires db.Valid()
    modifies db
    ensures db.Valid()
    ensures db.monthlyExpenses == old(db.monthlyExpenses)
    ensures r == UpdateOutcome(old(db.monthlyExpenses), old(db.expenses), id, data)
    ensures r.Success? ==> db.expenses == (old(db.expenses) - {id})[r.value.id := r.value]
    ensures r.Failure? ==> db.expenses == old(db.expenses)
    ensures forall k :: k in old(db.expenses) && k != id ==> k in db.expenses && db.expenses[k] == old(db.expenses)[k]
  {
    r := UpdateOutcome(db.monthlyExpenses, db.expenses, id, data);
    if r.Success? {
      db.expenses := (db.expenses - {id})[r.value.id := r.value];
    }
  }

  // ---------------------------------------------------------------------
  // deleteExpense

  /** `deleteExpense`: the row keyed `id` is removed and returned; every
      other row stays as it was. An id with no row is a failure. */
  method DeleteExpense(db: Store, id: Id) returns (r: Result<ExpenseRow, DbError>)
    requires db.Valid()
    modifies db
    ensures db.Valid()
    ensures db.monthlyExpenses == old(db.monthlyExpenses)
    ensures r == if id in old(db.expenses) then Success(old(db.expenses)[id]) else Failure(NotFound)
    ensures db.expenses == old(db.expenses) - {id}
    ensures id !in db.expenses
    ensures forall k :: k in old(db.expenses) && k != id ==> k in db.expenses && db.expenses[k] == old(db.expenses)[k]
  {
    if id !in db.expenses {
      return Failure(NotFound);
    }
    r := Success(db.expenses[id]);
    db.expenses := db.expenses - {id};
  }
}
