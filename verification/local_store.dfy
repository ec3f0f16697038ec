/** The actions of the local-mode store (03-frontend/src/store/useStore.js:28-84, 167-170).
    The store is an object with plain list fields; every action replaces some of them. Ids
    (`Date.now()`) and timestamps (`new Date().toISOString()`) are parameters. */
module LocalStore {

  import opened Wrappers
  import opened Lists
  import opened Records

  /** `expenses.find(exp => exp.expense_id === id)`: getExpenseById, and the lookup a toggle starts with.
      Among expenses sharing the id, the first in list order is found. */
  function ExpenseById(expenses: seq<Expense>, id: int): (r: Option<Expense>)
    ensures r.None? <==> forall i :: 0 <= i < |expenses| ==> expenses[i].id != id
    ensures r.Some? ==> r.value in expenses && r.value.id == id
    ensures r.Some? ==> exists k :: 0 <= k < |expenses| && expenses[k] == r.value &&
                                    forall j :: 0 <= j < k ==> expenses[j].id != id
  {
    var hasId := (e: Expense) => e.id == id;
    var r := Find(expenses, hasId);
    assert r.Some? ==> var k := FirstIndex(expenses, hasId); forall j :: 0 <= j < k ==> !hasId(expenses[j]);
    r
  }

  /** The pair a history row is unique on. */
  function RowKey(row: HistoryRow): (int, string)
  {
    (row.expenseId, row.yearMonth)
  }

  /** At most one history row per (expense_id, year_month). */
  ghost predicate UniqueKeys(history: seq<HistoryRow>)
  {
    forall i, j :: 0 <= i < j < |history| ==> RowKey(history[i]) != RowKey(history[j])
  }

  /** `expenseHistory.findIndex(h => h.expense_id === expenseId && h.year_month === yearMonth)`. */
  function RowIndex(history: seq<HistoryRow>, expenseId: int, yearMonth: string): (i: int)
    ensures -1 <= i < |history|
    ensures i == -1 <==> forall j :: 0 <= j < |history| ==> RowKey(history[j]) != (expenseId, yearMonth)
    ensures 0 <= i ==> RowKey(history[i]) == (expenseId, yearMonth)
    ensures 0 <= i ==> forall j :: 0 <= j < i ==> RowKey(history[j]) != (expenseId, yearMonth)
  {
    FirstIndex(history, (h: HistoryRow) => h.expenseId == expenseId && h.yearMonth == yearMonth)
  }

  /** `expenseHistory.find(...)` with the same test: the month's row of an expense, if any. */
  function FindRow(history: seq<HistoryRow>, expenseId: int, yearMonth: string): (r: Option<HistoryRow>)
    ensures r.None? <==> forall j :: 0 <= j < |history| ==> RowKey(history[j]) != (expenseId, yearMonth)
    ensures r.Some? ==> r.value in history && RowKey(r.value) == (expenseId, yearMonth)
    ensures r.Some? ==> r.value == history[RowIndex(history, expenseId, yearMonth)]
  {
    var i := RowIndex(history, expenseId, yearMonth);
    if i < 0 then None else Some(history[i])
  }

  /** The test "this row belongs to the key". */
  function HasKey(key: (int, string)): HistoryRow -> bool
  {
    (h: HistoryRow) => RowKey(h) == key
  }

  /** All rows of one (expense, month) pair. */
  function RowsFor(history: seq<HistoryRow>, expenseId: int, yearMonth: string): seq<HistoryRow>
  {
    Filter(history, HasKey((expenseId, yearMonth)))
  }

  /** Every history row belongs to an expense of the list. */
  ghost predicate RowsReferenceExpenses(history: seq<HistoryRow>, expenses: seq<Expense>)
  {
    forall j :: 0 <= j < |history| ==> ExpenseById(expenses, history[j].expenseId).Some?
  }

  /** The paid_date a toggle writes: the current time when paid, null when not. */
  function PaidDate(isPaid: bool, now: string): (r: Option<string>)
    ensures r.Some? <==> isPaid
    ensures r.Some? ==> r.value == now
  {
    if isPaid then Some(now) else None
  }

  /** The history after togglePaymentStatus(expenseId, yearMonth, isPaid) at time `now`;
      `freshId` is the id an appended row gets. An unknown expense leaves the history as it is;
      otherwise it grows by one row exactly when the pair had no row, that row comes last and
      carries the pair, every earlier row keeps its key, and every row of another pair is kept. */
  function ToggledHistory(history: seq<HistoryRow>, expenses: seq<Expense>, expenseId: int,
                          yearMonth: string, isPaid: bool, now: string, freshId: int): (r: seq<HistoryRow>)
    ensures ExpenseById(expenses, expenseId).None? ==> r == history
    ensures |history| <= |r| <= |history| + 1
    ensures |r| == |history| + 1 <==>
              ExpenseById(expenses, expenseId).Some? && FindRow(history, expenseId, yearMonth).None?
    ensures |r| > |history| ==> RowKey(r[|history|]) == (expenseId, yearMonth)
    ensures forall j :: 0 <= j < |history| ==> RowKey(r[j]) == RowKey(history[j])
    ensures forall j :: 0 <= j < |history| && RowKey(history[j]) != (expenseId, yearMonth) ==> r[j] == history[j]
  {
    match ExpenseById(expenses, expenseId)
    case None => history
    case Some(expense) =>
      var i := RowIndex(history, expenseId, yearMonth);
      if i > -1 then
        history[i := history[i].(isPaid := isPaid, paidDate := PaidDate(isPaid, now))]
      else
        history + [HistoryRow(freshId, expenseId, yearMonth, isPaid, PaidDate(isPaid, now), expense.amount)]
  }

  /** `expenses.map(exp => exp.expense_id === id ? { ...exp, ...draft } : exp)`. */
  function Updated(expenses: seq<Expense>, id: int, draft: ExpenseDraft): (r: seq<Expense>)
    ensures |r| == |expenses|
    ensures forall i :: 0 <= i < |r| ==> r[i].id == expenses[i].id
    ensures forall i :: 0 <= i < |r| && expenses[i].id != id ==> r[i] == expenses[i]
    ensures forall i :: 0 <= i < |r| && expenses[i].id == id ==> DraftOf(r[i]) == draft
  {
    seq(|expenses|, i requires 0 <= i < |expenses| =>
      if expenses[i].id == id then FromDraft(draft, id) else expenses[i])
  }

  /** `expenses.filter(exp => exp.expense_id !== id)`. */
  function WithoutExpense(expenses: seq<Expense>, id: int): (r: seq<Expense>)
    ensures forall e :: e in r <==> e in expenses && e.id != id
  {
    Filter(expenses, (e: Expense) => e.id != id)
  }

  /** `expenseHistory.filter(h => h.expense_id !== id)`. */
  function WithoutHistoryOf(history: seq<HistoryRow>, id: int): (r: seq<HistoryRow>)
    ensures forall h :: h in r <==> h in history && h.expenseId != id
  {
    Filter(history, (h: HistoryRow) => h.expenseId != id)
  }

  /** `categories.filter(cat => cat.category_id !== id)`. */
  function WithoutCategory(categories: seq<Category>, id: int): (r: seq<Category>)
    ensures forall c :: c in r <==> c in categories && c.id != id
  {
    Filter(categories, (c: Category) => c.id != id)
  }

  // ---------------------------------------------------------------------------------------
  // What a toggle does

  /** After a toggle of a known expense, its row for the month carries the requested status; an
      existing row keeps its id and amount snapshot, a new row snapshots the expense's amount. */
  lemma ToggleSetsRow(history: seq<HistoryRow>, expenses: seq<Expense>, expenseId: int,
                      yearMonth: string, isPaid: bool, now: string, freshId: int)
    requires ExpenseById(expenses, expenseId).Some?
    ensures var row := FindRow(ToggledHistory(history, expenses, expenseId, yearMonth, isPaid, now, freshId),
                               expenseId, yearMonth);
      && row.Some?
      && row.value.isPaid == isPaid
      && row.value.paidDate == PaidDate(isPaid, now)
      && (row.value.paidDate.None? <==> !isPaid)
      && (FindRow(history, expenseId, yearMonth).Some? ==>
            var before := FindRow(history, expenseId, yearMonth).value;
            row.value == before.(isPaid := isPaid, paidDate := PaidDate(isPaid, now)))
      && (FindRow(history, expenseId, yearMonth).None? ==>
            row.value.historyId == freshId &&
            row.value.amount == ExpenseById(expenses, expenseId).value.amount)
  {
    var r := ToggledHistory(history, expenses, expenseId, yearMonth, isPaid, now, freshId);
    var i := RowIndex(history, expenseId, yearMonth);
    var expense := ExpenseById(expenses, expenseId).value;
    if i > -1 {
      assert r == history[i := history[i].(isPaid := isPaid, paidDate := PaidDate(isPaid, now))];
      assert RowKey(r[i]) == (expenseId, yearMonth);
      assert forall j :: 0 <= j < i ==> r[j] == history[j];
      assert RowIndex(r, expenseId, yearMonth) == i;
    } else {
      assert r == history + [HistoryRow(freshId, expenseId, yearMonth, isPaid, PaidDate(isPaid, now), expense.amount)];
      assert RowKey(r[|history|]) == (expenseId, yearMonth);
      assert forall j :: 0 <= j < |history| ==> r[j] == history[j];
      assert RowIndex(r, expenseId, yearMonth) == |history|;
    }
  }

  /** The row found for a key is the same in a list that keeps the first |history| keys, keeps the
      rows of that key, and adds only rows of other keys. */
  lemma FindRowUnaffected(history: seq<HistoryRow>, r: seq<HistoryRow>, expenseId: int, yearMonth: string)
    requires |history| <= |r|
    requires forall j :: 0 <= j < |history| ==> RowKey(r[j]) == RowKey(history[j])
    requires forall j :: 0 <= j < |history| && RowKey(history[j]) == (expenseId, yearMonth) ==> r[j] == history[j]
    requires forall j :: |history| <= j < |r| ==> RowKey(r[j]) != (expenseId, yearMonth)
    ensures FindRow(r, expenseId, yearMonth) == FindRow(history, expenseId, yearMonth)
  {
    var k := RowIndex(history, expenseId, yearMonth);
    if k >= 0 {
      assert RowIndex(r, expenseId, yearMonth) == k;
    } else {
      assert RowIndex(r, expenseId, yearMonth) == -1;
    }
  }

  /** A toggle leaves the row found for every other (expense, month) pair as it was. */
  lemma ToggleLeavesOtherKeys(history: seq<HistoryRow>, expenses: seq<Expense>, expenseId: int,
                              yearMonth: string, isPaid: bool, now: string, freshId: int,
                              otherId: int, otherMonth: string)
    requires (otherId, otherMonth) != (expenseId, yearMonth)
    ensures FindRow(ToggledHistory(history, expenses, expenseId, yearMonth, isPaid, now, freshId), otherId, otherMonth)
         == FindRow(history, otherId, otherMonth)
  {
    var r := ToggledHistory(history, expenses, expenseId, yearMonth, isPaid, now, freshId);
    FindRowUnaffected(history, r, otherId, otherMonth);
  }

  /** A toggle keeps the history free of two rows for one (expense, month). */
  lemma TogglePreservesUniqueKeys(history: seq<HistoryRow>, expenses: seq<Expense>, expenseId: int,
                                  yearMonth: string, isPaid: bool, now: string, freshId: int)
    requires UniqueKeys(history)
    ensures UniqueKeys(ToggledHistory(history, expenses, expenseId, yearMonth, isPaid, now, freshId))
  {
    var r := ToggledHistory(history, expenses, expenseId, yearMonth, isPaid, now, freshId);
    if ExpenseById(expenses, expenseId).Some? {
      assert forall j :: 0 <= j < |history| ==> RowKey(r[j]) == RowKey(history[j]);
      if RowIndex(history, expenseId, yearMonth) == -1 {
        assert RowKey(r[|history|]) == (expenseId, yearMonth);
      }
    }
  }

  /** With unique keys, the rows for one (expense, month) are the found row or nothing. */
  lemma {:induction false} OneRowPerKey(history: seq<HistoryRow>, expenseId: int, yearMonth: string)
    requires UniqueKeys(history)
    ensures RowsFor(history, expenseId, yearMonth) ==
      match FindRow(history, expenseId, yearMonth)
      case None => []
      case Some(row) => [row]
  {
    var rows := RowsFor(history, expenseId, yearMonth);
    OneRowPerKeyCount(history, expenseId, yearMonth);
    match FindRow(history, expenseId, yearMonth)
    case None =>
      FilterNoneKept(history, HasKey((expenseId, yearMonth)));
    case Some(row) =>
      assert row in rows;
  }

  lemma {:induction false} OneRowPerKeyCount(history: seq<HistoryRow>, expenseId: int, yearMonth: string)
    requires UniqueKeys(history)
    ensures |RowsFor(history, expenseId, yearMonth)| <= 1
  {
    if history != [] {
      var h', last := history[..|history| - 1], history[|history| - 1];
      assert history == h' + [last];
      OneRowPerKeyCount(h', expenseId, yearMonth);
      if RowKey(last) == (expenseId, yearMonth) {
        assert forall i :: 0 <= i < |h'| ==> h'[i] == history[i];
        FilterNoneKept(h', HasKey((expenseId, yearMonth)));
      }
    }
  }

  /** After a toggle of a known expense there is exactly one row for its month. */
  lemma ToggleLeavesOneRow(history: seq<HistoryRow>, expenses: seq<Expense>, expenseId: int,
                           yearMonth: string, isPaid: bool, now: string, freshId: int)
    requires UniqueKeys(history) && ExpenseById(expenses, expenseId).Some?
    ensures |RowsFor(ToggledHistory(history, expenses, expenseId, yearMonth, isPaid, now, freshId),
                     expenseId, yearMonth)| == 1
  {
    TogglePreservesUniqueKeys(history, expenses, expenseId, yearMonth, isPaid, now, freshId);
    ToggleSetsRow(history, expenses, expenseId, yearMonth, isPaid, now, freshId);
    OneRowPerKey(ToggledHistory(history, expenses, expenseId, yearMonth, isPaid, now, freshId), expenseId, yearMonth);
  }

  /** Marking an expense paid and then unpaid for one month leaves one row for it, unpaid, with no paid date. */
  lemma PaidThenUnpaid(history: seq<HistoryRow>, expenses: seq<Expense>, expenseId: int, yearMonth: string,
                       now1: string, id1: int, now2: string, id2: int)
    requires UniqueKeys(history) && ExpenseById(expenses, expenseId).Some?
    ensures var h1 := ToggledHistory(history, expenses, expenseId, yearMonth, true, now1, id1);
            var h2 := ToggledHistory(h1, expenses, expenseId, yearMonth, false, now2, id2);
            var rows := RowsFor(h2, expenseId, yearMonth);
            |rows| == 1 && !rows[0].isPaid && rows[0].paidDate.None?
  {
    var h1 := ToggledHistory(history, expenses, expenseId, yearMonth, true, now1, id1);
    TogglePreservesUniqueKeys(history, expenses, expenseId, yearMonth, true, now1, id1);
    var h2 := ToggledHistory(h1, expenses, expenseId, yearMonth, false, now2, id2);
    TogglePreservesUniqueKeys(h1, expenses, expenseId, yearMonth, false, now2, id2);
    ToggleSetsRow(h1, expenses, expenseId, yearMonth, false, now2, id2);
    OneRowPerKey(h2, expenseId, yearMonth);
  }

  /** The snapshot policy of the local store: once a month's row exists, editing the expense's
      amount and toggling again keeps the amount recorded when the row was created. */
  lemma RetoggleKeepsFirstSnapshot(history: seq<HistoryRow>, expenses: seq<Expense>, e: Expense,
                                   yearMonth: string, draft: ExpenseDraft,
                                   now1: string, id1: int, now2: string, id2: int)
    requires ExpenseById(expenses, e.id) == Some(e)
    requires FindRow(history, e.id, yearMonth).None?
    ensures var h1 := ToggledHistory(history, expenses, e.id, yearMonth, true, now1, id1);
            var edited := Updated(expenses, e.id, draft);
            var h2 := ToggledHistory(h1, edited, e.id, yearMonth, true, now2, id2);
            && FindRow(h2, e.id, yearMonth).Some?
            && FindRow(h2, e.id, yearMonth).value.amount == e.amount
            && ExpenseById(edited, e.id).Some?
            && ExpenseById(edited, e.id).value.amount == draft.amount
  {
    var h1 := ToggledHistory(history, expenses, e.id, yearMonth, true, now1, id1);
    ToggleSetsRow(history, expenses, e.id, yearMonth, true, now1, id1);
    var edited := Updated(expenses, e.id, draft);
    var k :| 0 <= k < |expenses| && expenses[k] == e;
    assert edited[k].id == e.id;
    var found := ExpenseById(edited, e.id).value;
    var i :| 0 <= i < |edited| && edited[i] == found;
    assert DraftOf(edited[i]) == draft;
    ToggleSetsRow(h1, edited, e.id, yearMonth, true, now2, id2);
  }

  // ---------------------------------------------------------------------------------------
  // Deletion

  /** Deleting keeps what survives in its original order. */
  lemma DeletionKeepsOrder(expenses: seq<Expense>, history: seq<HistoryRow>, id: int)
    ensures IsSubsequence(WithoutExpense(expenses, id), expenses)
    ensures IsSubsequence(WithoutHistoryOf(history, id), history)
  {
    FilterIsSubsequence(expenses, (e: Expense) => e.id != id);
    FilterIsSubsequence(history, (h: HistoryRow) => h.expenseId != id);
  }

  /** Deleting an id that nothing carries leaves both lists as they are. */
  lemma {:induction false} DeleteUnknownIdIsIdentity(expenses: seq<Expense>, history: seq<HistoryRow>, id: int)
    requires forall i :: 0 <= i < |expenses| ==> expenses[i].id != id
    requires RowsReferenceExpenses(history, expenses)
    ensures WithoutExpense(expenses, id) == expenses
    ensures WithoutHistoryOf(history, id) == history
  {
    if expenses != [] {
      var e' := expenses[..|expenses| - 1];
      DeleteUnknownIdIsIdentity(e', [], id);
      assert expenses == e' + [expenses[|expenses| - 1]];
    }
    forall j | 0 <= j < |history|
      ensures history[j].expenseId != id
    {
      var e := ExpenseById(expenses, history[j].expenseId).value;
      assert e in expenses;
    }
    UnreferencedHistoryKept(history, id);
  }

  lemma {:induction false} UnreferencedHistoryKept(history: seq<HistoryRow>, id: int)
    requires forall j :: 0 <= j < |history| ==> history[j].expenseId != id
    ensures WithoutHistoryOf(history, id) == history
  {
    if history != [] {
      var h' := history[..|history| - 1];
      UnreferencedHistoryKept(h', id);
      assert history == h' + [history[|history| - 1]];
    }
  }

  lemma {:induction false} FilterKeepsUniqueKeys(history: seq<HistoryRow>, id: int)
    requires UniqueKeys(history)
    ensures UniqueKeys(WithoutHistoryOf(history, id))
  {
    if history != [] {
      var h', last := history[..|history| - 1], history[|history| - 1];
      FilterKeepsUniqueKeys(h', id);
      var r' := WithoutHistoryOf(h', id);
      if last.expenseId != id {
        assert WithoutHistoryOf(history, id) == r' + [last];
        forall i | 0 <= i < |r'|
          ensures RowKey(r'[i]) != RowKey(last)
        {
          assert r'[i] in h';
          var j :| 0 <= j < |h'| && h'[j] == r'[i];
          assert history[j] == h'[j];
        }
      } else {
        assert WithoutHistoryOf(history, id) == r';
      }
    }
  }

  // ---------------------------------------------------------------------------------------
  // The store object

  class Store {
    var expenses: seq<Expense>
    var expenseHistory: seq<HistoryRow>
    var categories: seq<Category>
    var paymentMethods: seq<PaymentMethod>

    /** One history row per (expense, month), and none for an expense that is gone. */
    ghost predicate Valid()
      reads this
    {
      UniqueKeys(expenseHistory) && RowsReferenceExpenses(expenseHistory, expenses)
    }

    constructor ()
      ensures Valid()
      ensures expenses == [] && expenseHistory == []
      ensures categories == DefaultCategories() && paymentMethods == DefaultPaymentMethods()
    {
      expenses := [];
      expenseHistory := [];
      categories := DefaultCategories();
      paymentMethods := DefaultPaymentMethods();
    }

    /** addExpense: appends the draft under the fresh id. */
    method AddExpense(draft: ExpenseDraft, freshId: int)
      requires Valid()
      modifies this
      ensures Valid()
      ensures expenses == old(expenses) + [FromDraft(draft, freshId)]
      ensures expenseHistory == old(expenseHistory)
      ensures categories == old(categories) && paymentMethods == old(paymentMethods)
    {
      var added := expenses + [FromDraft(draft, freshId)];
      forall j | 0 <= j < |expenseHistory|
        ensures ExpenseById(added, expenseHistory[j].expenseId).Some?
      {
        var e := ExpenseById(expenses, expenseHistory[j].expenseId).value;
        assert e in added;
      }
      expenses := added;
    }

    /** updateExpense: overwrites the form fields of the expenses carrying the id. */
    method UpdateExpense(id: int, draft: ExpenseDraft)
      requires Valid()
      modifies this
      ensures Valid()
      ensures expenses == Updated(old(expenses), id, draft)
      ensures expenseHistory == old(expenseHistory)
      ensures categories == old(categories) && paymentMethods == old(paymentMethods)
    {
      var updated := Updated(expenses, id, draft);
      forall j | 0 <= j < |expenseHistory|
        ensures ExpenseById(updated, expenseHistory[j].expenseId).Some?
      {
        var e := ExpenseById(expenses, expenseHistory[j].expenseId).value;
        var k :| 0 <= k < |expenses| && expenses[k] == e;
        assert updated[k].id == e.id;
      }
      expenses := updated;
    }

    /** deleteExpense: drops the expense and, with it, every history row of that expense. */
    method DeleteExpense(id: int)
      requires Valid()
      modifies this
      ensures Valid()
      ensures expenses == WithoutExpense(old(expenses), id)
      ensures expenseHistory == WithoutHistoryOf(old(expenseHistory), id)
      ensures categories == old(categories) && paymentMethods == old(paymentMethods)
    {
      var keptExpenses := WithoutExpense(expenses, id);
      var keptHistory := WithoutHistoryOf(expenseHistory, id);
      FilterKeepsUniqueKeys(expenseHistory, id);
      forall j | 0 <= j < |keptHistory|
        ensures ExpenseById(keptExpenses, keptHistory[j].expenseId).Some?
      {
        assert keptHistory[j] in expenseHistory;
        var k :| 0 <= k < |expenseHistory| && expenseHistory[k] == keptHistory[j];
        var e := ExpenseById(expenses, expenseHistory[k].expenseId).value;
        assert e in keptExpenses;
      }
      expenses := keptExpenses;
      expenseHistory := keptHistory;
    }

    /** togglePaymentStatus: sets the paid status of one expense for one month. */
    method TogglePaymentStatus(expenseId: int, yearMonth: string, isPaid: bool, now: string, freshId: int)
      requires Valid()
      modifies this
      ensures Valid()
      ensures expenseHistory == ToggledHistory(old(expenseHistory), old(expenses), expenseId, yearMonth, isPaid, now, freshId)
      ensures expenses == old(expenses)
      ensures categories == old(categories) && paymentMethods == old(paymentMethods)
    {
      var expense := ExpenseById(expenses, expenseId);
      if expense.None? {
        return;
      }
      TogglePreservesUniqueKeys(expenseHistory, expenses, expenseId, yearMonth, isPaid, now, freshId);
      var existingIndex := RowIndex(expenseHistory, expenseId, yearMonth);
      var newHistory := expenseHistory;
      if existingIndex > -1 {
        newHistory := newHistory[existingIndex := newHistory[existingIndex].(isPaid := isPaid, paidDate := PaidDate(isPaid, now))];
      } else {
        newHistory := newHistory + [HistoryRow(freshId, expenseId, yearMonth, isPaid, PaidDate(isPaid, now), expense.value.amount)];
      }
      expenseHistory := newHistory;
    }

    /** addCategory: appends the category under the fresh id. */
    method AddCategory(category: Category, freshId: int)
      requires Valid()
      modifies this
      ensures Valid()
      ensures categories == old(categories) + [category.(id := freshId)]
      ensures expenses == old(expenses) && expenseHistory == old(expenseHistory)
      ensures paymentMethods == old(paymentMethods)
    {
      categories := categories + [category.(id := freshId)];
    }

    /** deleteCategory: drops the categories carrying the id. */
    method DeleteCategory(id: int)
      requires Valid()
      modifies this
      ensures Valid()
      ensures categories == WithoutCategory(old(categories), id)
      ensures expenses == old(expenses) && expenseHistory == old(expenseHistory)
      ensures paymentMethods == old(paymentMethods)
    {
      categories := WithoutCategory(categories, id);
    }

    /** setCategories: replaces the category list. */
    method SetCategories(newCategories: seq<Category>)
      requires Valid()
      modifies this
      ensures Valid()
      ensures categories == newCategories
      ensures expenses == old(expenses) && expenseHistory == old(expenseHistory)
      ensures paymentMethods == old(paymentMethods)
    {
      categories := newCategories;
    }
  }
}
