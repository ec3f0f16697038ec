/** The derived views of the local-mode store (03-frontend/src/store/useStore.js:99-165): the month's
    summary, the totals per payment method, and the expense list annotated with paid status. Each
    reads the state snapshot that `get()` returns, passed here as arguments. */
module Selectors {

  import opened Wrappers
  import opened Lists
  import opened Records
  import opened MonthKey
  import opened LocalStore

  // ---------------------------------------------------------------------------------------
  // Summary

  /** The sum of the expenses' amounts. */
  function Total(expenses: seq<Expense>): int
  {
    if expenses == [] then 0
    else Total(expenses[..|expenses| - 1]) + expenses[|expenses| - 1].amount
  }

  /** `history && history.is_paid`: whether the month's row of the expense says paid. */
  function IsPaidIn(history: seq<HistoryRow>, expenseId: int, yearMonth: string): bool
  {
    match FindRow(history, expenseId, yearMonth)
    case None => false
    case Some(row) => row.isPaid
  }

  /** The sum of the current amounts of the expenses whose row for the month says paid. */
  function PaidTotal(expenses: seq<Expense>, history: seq<HistoryRow>, yearMonth: string): int
  {
    if expenses == [] then 0
    else
      var last := expenses[|expenses| - 1];
      PaidTotal(expenses[..|expenses| - 1], history, yearMonth)
        + (if IsPaidIn(history, last.id, yearMonth) then last.amount else 0)
  }

  datatype Summary = Summary(totalAmount: int, paidAmount: int, remainingAmount: int)

  /** The forEach callback of getDashboardSummary: adds one expense into the running sums. */
  method AddToSummary(totalAmount: int, paidAmount: int, exp: Expense, expenseHistory: seq<HistoryRow>, yearMonth: string)
    returns (newTotal: int, newPaid: int)
    ensures newTotal == totalAmount + exp.amount
    ensures newPaid == paidAmount + (if IsPaidIn(expenseHistory, exp.id, yearMonth) then exp.amount else 0)
  {
    newTotal, newPaid := totalAmount + exp.amount, paidAmount;
    var history := FindRow(expenseHistory, exp.id, yearMonth);
    if history.Some? && history.value.isPaid {
      newPaid := newPaid + exp.amount;
    }
  }

  /** getDashboardSummary(year, month): the month's key, then the sums over the expenses. */
  method GetDashboardSummary(expenses: seq<Expense>, expenseHistory: seq<HistoryRow>, year: int, month: int)
    returns (summary: Summary)
    ensures summary.totalAmount == Total(expenses)
    ensures summary.paidAmount == PaidTotal(expenses, expenseHistory, YearMonthKey(year, month))
    ensures summary.remainingAmount == summary.totalAmount - summary.paidAmount
  {
    var yearMonth := YearMonthKey(year, month);
    summary := SummaryFor(expenses, expenseHistory, yearMonth);
  }

  /** The forEach of getDashboardSummary over the expenses, for the month key `yearMonth`. */
  method SummaryFor(expenses: seq<Expense>, expenseHistory: seq<HistoryRow>, yearMonth: string)
    returns (summary: Summary)
    ensures summary.totalAmount == Total(expenses)
    ensures summary.paidAmount == PaidTotal(expenses, expenseHistory, yearMonth)
    ensures summary.remainingAmount == summary.totalAmount - summary.paidAmount
  {
    var totalAmount := 0;
    var paidAmount := 0;
    var i := 0;
    while i < |expenses|
      invariant 0 <= i <= |expenses|
      invariant totalAmount == Total(expenses[..i])
      invariant paidAmount == PaidTotal(expenses[..i], expenseHistory, yearMonth)
    {
      SumsStep(expenses, i, expenseHistory, yearMonth);
      totalAmount, paidAmount := AddToSummary(totalAmount, paidAmount, expenses[i], expenseHistory, yearMonth);
      i := i + 1;
    }
    assert expenses[..i] == expenses;
    summary := Summary(totalAmount, paidAmount, totalAmount - paidAmount);
  }

  /** Both sums over one more expense of the list. */
  lemma SumsStep(expenses: seq<Expense>, i: int, history: seq<HistoryRow>, yearMonth: string)
    requires 0 <= i < |expenses|
    ensures Total(expenses[..i + 1]) == Total(expenses[..i]) + expenses[i].amount
    ensures PaidTotal(expenses[..i + 1], history, yearMonth)
            == PaidTotal(expenses[..i], history, yearMonth) + (if IsPaidIn(history, expenses[i].id, yearMonth) then expenses[i].amount else 0)
  {
    assert expenses[..i + 1][..i] == expenses[..i];
  }

  /** The test "this expense is paid for the month". */
  function PaidIn(history: seq<HistoryRow>, yearMonth: string): Expense -> bool
  {
    (e: Expense) => IsPaidIn(history, e.id, yearMonth)
  }

  /** The test "this expense is not paid for the month". */
  function UnpaidIn(history: seq<HistoryRow>, yearMonth: string): Expense -> bool
  {
    (e: Expense) => !IsPaidIn(history, e.id, yearMonth)
  }

  lemma TotalAppend(expenses: seq<Expense>, e: Expense)
    ensures Total(expenses + [e]) == Total(expenses) + e.amount
  {
    assert (expenses + [e])[..|expenses|] == expenses;
  }

  /** Paid is the total of exactly the expenses paid for the month, each counted once. */
  lemma {:induction false} PaidIsTotalOfPaid(expenses: seq<Expense>, history: seq<HistoryRow>, yearMonth: string)
    ensures PaidTotal(expenses, history, yearMonth) == Total(Filter(expenses, PaidIn(history, yearMonth)))
  {
    if expenses != [] {
      var prefix, last := expenses[..|expenses| - 1], expenses[|expenses| - 1];
      PaidIsTotalOfPaid(prefix, history, yearMonth);
      var paid := Filter(prefix, PaidIn(history, yearMonth));
      if IsPaidIn(history, last.id, yearMonth) {
        assert Filter(expenses, PaidIn(history, yearMonth)) == paid + [last];
        TotalAppend(paid, last);
      } else {
        assert Filter(expenses, PaidIn(history, yearMonth)) == paid;
      }
    }
  }

  /** Remaining is the total of exactly the expenses not paid for the month. */
  lemma {:induction false} RemainingIsTotalOfUnpaid(expenses: seq<Expense>, history: seq<HistoryRow>, yearMonth: string)
    ensures Total(expenses) - PaidTotal(expenses, history, yearMonth)
         == Total(Filter(expenses, UnpaidIn(history, yearMonth)))
  {
    if expenses != [] {
      var prefix, last := expenses[..|expenses| - 1], expenses[|expenses| - 1];
      RemainingIsTotalOfUnpaid(prefix, history, yearMonth);
      var unpaid := Filter(prefix, UnpaidIn(history, yearMonth));
      if IsPaidIn(history, last.id, yearMonth) {
        assert Filter(expenses, UnpaidIn(history, yearMonth)) == unpaid;
      } else {
        assert Filter(expenses, UnpaidIn(history, yearMonth)) == unpaid + [last];
        TotalAppend(unpaid, last);
      }
    }
  }

  /** With non-negative amounts the paid part lies between zero and the total. */
  lemma {:induction false} PaidWithinTotal(expenses: seq<Expense>, history: seq<HistoryRow>, yearMonth: string)
    requires forall i :: 0 <= i < |expenses| ==> expenses[i].amount >= 0
    ensures 0 <= PaidTotal(expenses, history, yearMonth) <= Total(expenses)
  {
    if expenses != [] {
      PaidWithinTotal(expenses[..|expenses| - 1], history, yearMonth);
    }
  }

  /** Paid status is month-scoped: a toggle for one month leaves every other month's paid total as it was. */
  lemma {:induction false} ToggleKeepsOtherMonths(expenses: seq<Expense>, history: seq<HistoryRow>, allExpenses: seq<Expense>,
                                                  expenseId: int, yearMonth: string, isPaid: bool, now: string,
                                                  freshId: int, otherMonth: string)
    requires otherMonth != yearMonth
    ensures PaidTotal(expenses, ToggledHistory(history, allExpenses, expenseId, yearMonth, isPaid, now, freshId), otherMonth)
         == PaidTotal(expenses, history, otherMonth)
  {
    if expenses != [] {
      var last := expenses[|expenses| - 1];
      ToggleKeepsOtherMonths(expenses[..|expenses| - 1], history, allExpenses, expenseId, yearMonth, isPaid, now, freshId, otherMonth);
      ToggleLeavesOtherKeys(history, allExpenses, expenseId, yearMonth, isPaid, now, freshId, last.id, otherMonth);
    }
  }

  lemma KeyOfMarch2024()
    ensures YearMonthKey(2024, 3) == "2024-03"
  {
    PaddedMonthDigits(3);
    assert NatToString(2024) == "2024" by {
      assert NatToString(2) == "2";
      assert NatToString(20) == "20";
      assert NatToString(202) == "202";
    }
  }

  /** The worked example: 10000 won due on the 5th and 5000 won due on the 20th, nothing recorded for
      March 2024; after marking the first paid for that month, 10000 of 15000 is paid. */
  lemma SummaryExample(now: string, freshId: int)
    ensures var expenses := [Expense(1, "a", 10000, Day(5), None, None, ""),
                             Expense(2, "b", 5000, Day(20), None, None, "")];
            var yearMonth := YearMonthKey(2024, 3);
            var toggled := ToggledHistory([], expenses, 1, yearMonth, true, now, freshId);
            && yearMonth == "2024-03"
            && Total(expenses) == 15000
            && PaidTotal(expenses, [], yearMonth) == 0
            && PaidTotal(expenses, toggled, yearMonth) == 10000
  {
    var e1, e2 := Expense(1, "a", 10000, Day(5), None, None, ""), Expense(2, "b", 5000, Day(20), None, None, "");
    var expenses := [e1, e2];
    var yearMonth := YearMonthKey(2024, 3);
    KeyOfMarch2024();
    assert expenses[..1] == [e1];
    var toggled := ToggledHistory([], expenses, 1, yearMonth, true, now, freshId);
    var row := HistoryRow(freshId, 1, yearMonth, true, Some(now), 10000);
    assert ExpenseById(expenses, 1) == Some(e1);
    assert toggled == [row];
    assert FindRow(toggled, 1, yearMonth) == Some(row);
    assert FindRow(toggled, 2, yearMonth).None?;
    assert PaidTotal([e1], toggled, yearMonth) == 10000;
    assert PaidTotal([e1], [], yearMonth) == 0;
  }

  // ---------------------------------------------------------------------------------------
  // Totals per payment method

  /** `paymentMethods.find(pm => pm.payment_method_id === Number(methodId))`; an unset id finds nothing.
      Among methods sharing the id, the first in list order is found. */
  function MethodOf(paymentMethods: seq<PaymentMethod>, methodId: Option<int>): (r: Option<PaymentMethod>)
    ensures r.Some? ==> r.value in paymentMethods && methodId == Some(r.value.id)
    ensures methodId.Some? && r.None? ==> forall i :: 0 <= i < |paymentMethods| ==> paymentMethods[i].id != methodId.value
    ensures r.Some? ==> exists k :: 0 <= k < |paymentMethods| && paymentMethods[k] == r.value &&
                                    forall j :: 0 <= j < k ==> paymentMethods[j].id != r.value.id
  {
    match methodId
    case None => None
    case Some(id) =>
      var hasId := (pm: PaymentMethod) => pm.id == id;
      var r := Find(paymentMethods, hasId);
      assert r.Some? ==> var k := FirstIndex(paymentMethods, hasId); forall j :: 0 <= j < k ==> !hasId(paymentMethods[j]);
      r
  }

  /** One value of statsMap; `methodId` is the key it is stored under. */
  datatype MethodStat = MethodStat(methodId: Option<int>, paymentMethodName: string,
                                   paymentMethodColor: string, totalAmount: int)

  /** The distinct payment_method_ids of the expenses in order of first occurrence: the keys of statsMap. */
  function MethodIds(expenses: seq<Expense>): seq<Option<int>>
  {
    if expenses == [] then []
    else
      var ids := MethodIds(expenses[..|expenses| - 1]);
      var id := expenses[|expenses| - 1].paymentMethodId;
      if id in ids then ids else ids + [id]
  }

  /** The sum of the amounts of the expenses with the given payment_method_id. */
  function MethodTotal(expenses: seq<Expense>, methodId: Option<int>): int
  {
    if expenses == [] then 0
    else
      var last := expenses[|expenses| - 1];
      MethodTotal(expenses[..|expenses| - 1], methodId) + (if last.paymentMethodId == methodId then last.amount else 0)
  }

  /** The entry statsMap holds for a key once every expense has been added in. */
  function StatFor(expenses: seq<Expense>, paymentMethods: seq<PaymentMethod>, methodId: Option<int>): MethodStat
  {
    var pm := MethodOf(paymentMethods, methodId);
    MethodStat(methodId,
               if pm.Some? then pm.value.name else "Unknown",
               if pm.Some? then pm.value.color else "#ccc",
               MethodTotal(expenses, methodId))
  }

  /** The sum of the entries' totals. */
  function StatsTotal(stats: seq<MethodStat>): int
  {
    if stats == [] then 0 else StatsTotal(stats[..|stats| - 1]) + stats[|stats| - 1].totalAmount
  }

  /** The entry statsMap starts a payment_method_id with. */
  function EmptyStat(paymentMethods: seq<PaymentMethod>, methodId: Option<int>): MethodStat
  {
    var pm := MethodOf(paymentMethods, methodId);
    MethodStat(methodId,
               if pm.Some? then pm.value.name else "Unknown",
               if pm.Some? then pm.value.color else "#ccc",
               0)
  }

  /** statsMap after the forEach callback has added one expense in. */
  function StatsStep(statsMap: map<Option<int>, MethodStat>, e: Expense, paymentMethods: seq<PaymentMethod>)
    : (r: map<Option<int>, MethodStat>)
    ensures forall k :: k in r <==> k in statsMap || k == e.paymentMethodId
    ensures forall k :: k in statsMap && k != e.paymentMethodId ==> r[k] == statsMap[k]
    ensures e.paymentMethodId in statsMap ==>
              var entry := statsMap[e.paymentMethodId];
              r[e.paymentMethodId] == entry.(totalAmount := entry.totalAmount + e.amount)
    ensures e.paymentMethodId !in statsMap ==>
              r[e.paymentMethodId] == EmptyStat(paymentMethods, e.paymentMethodId).(totalAmount := e.amount)
  {
    var entry := if e.paymentMethodId in statsMap then statsMap[e.paymentMethodId] else EmptyStat(paymentMethods, e.paymentMethodId);
    statsMap[e.paymentMethodId := entry.(totalAmount := entry.totalAmount + e.amount)]
  }

  /** statsMap after the forEach has added in the given expenses, one at a time. */
  function StatsMapFold(expenses: seq<Expense>, paymentMethods: seq<PaymentMethod>): map<Option<int>, MethodStat>
  {
    if expenses == [] then map[]
    else StatsStep(StatsMapFold(expenses[..|expenses| - 1], paymentMethods), expenses[|expenses| - 1], paymentMethods)
  }

  /** The fold holds exactly the distinct payment_method_ids as keys, each with its method's label and
      the sum of its expenses' amounts. */
  lemma {:induction false} StatsMapFoldIsGrouping(expenses: seq<Expense>, paymentMethods: seq<PaymentMethod>)
    ensures forall k :: k in StatsMapFold(expenses, paymentMethods) <==> k in MethodIds(expenses)
    ensures forall k :: k in StatsMapFold(expenses, paymentMethods) ==>
              StatsMapFold(expenses, paymentMethods)[k] == StatFor(expenses, paymentMethods, k)
  {
    if expenses != [] {
      var prefix, e := expenses[..|expenses| - 1], expenses[|expenses| - 1];
      assert expenses == prefix + [e];
      StatsMapFoldIsGrouping(prefix, paymentMethods);
      MethodIdsStep(prefix, e);
      if e.paymentMethodId !in MethodIds(prefix) {
        AbsentMethodTotal(prefix, e.paymentMethodId);
      }
      forall k | k in StatsMapFold(expenses, paymentMethods)
        ensures StatsMapFold(expenses, paymentMethods)[k] == StatFor(expenses, paymentMethods, k)
      {
        MethodTotalStep(prefix, e, k);
      }
    }
  }

  /** The forEach callback of getPaymentStats: adds one expense into statsMap; `keys` records the
      order in which statsMap's keys were added. */
  method AddToStats(statsMap: map<Option<int>, MethodStat>, keys: seq<Option<int>>, exp: Expense,
                    paymentMethods: seq<PaymentMethod>)
    returns (newMap: map<Option<int>, MethodStat>, newKeys: seq<Option<int>>)
    ensures newMap == StatsStep(statsMap, exp, paymentMethods)
    ensures newKeys == if exp.paymentMethodId in statsMap then keys else keys + [exp.paymentMethodId]
  {
    newMap, newKeys := statsMap, keys;
    var methodId := exp.paymentMethodId;
    var pm := MethodOf(paymentMethods, methodId);
    var methodName := if pm.Some? then pm.value.name else "Unknown";
    var methodColor := if pm.Some? then pm.value.color else "#ccc";
    if methodId !in newMap {
      newMap := newMap[methodId := MethodStat(methodId, methodName, methodColor, 0)];
      newKeys := newKeys + [methodId];
    }
    newMap := newMap[methodId := newMap[methodId].(totalAmount := newMap[methodId].totalAmount + exp.amount)];
  }

  /** The `expenses.forEach` pass of getPaymentStats: statsMap, and the order its keys were added in. */
  method CollectStats(expenses: seq<Expense>, paymentMethods: seq<PaymentMethod>)
    returns (statsMap: map<Option<int>, MethodStat>, keys: seq<Option<int>>)
    ensures keys == MethodIds(expenses)
    ensures statsMap == StatsMapFold(expenses, paymentMethods)
    ensures forall k :: k in statsMap <==> k in keys
  {
    statsMap, keys := map[], [];
    var i := 0;
    while i < |expenses|
      invariant 0 <= i <= |expenses|
      invariant keys == MethodIds(expenses[..i])
      invariant statsMap == StatsMapFold(expenses[..i], paymentMethods)
      invariant forall k :: k in statsMap <==> k in keys
    {
      assert expenses[..i + 1][..i] == expenses[..i];
      statsMap, keys := AddToStats(statsMap, keys, expenses[i], paymentMethods);
      i := i + 1;
    }
    assert expenses[..i] == expenses;
  }

  /** One entry per distinct payment_method_id, in order of first occurrence. */
  function PaymentStats(expenses: seq<Expense>, paymentMethods: seq<PaymentMethod>): seq<MethodStat>
  {
    var ids := MethodIds(expenses);
    seq(|ids|, i requires 0 <= i < |ids| => StatFor(expenses, paymentMethods, ids[i]))
  }

  /** getPaymentStats(year, month): `Object.values(statsMap)`. */
  method GetPaymentStats(expenses: seq<Expense>, paymentMethods: seq<PaymentMethod>) returns (stats: seq<MethodStat>)
    ensures stats == PaymentStats(expenses, paymentMethods)
  {
    var statsMap, keys := CollectStats(expenses, paymentMethods);
    stats := [];
    var j := 0;
    while j < |keys|
      invariant 0 <= j <= |keys|
      invariant |stats| == j
      invariant forall t :: 0 <= t < j ==> stats[t] == statsMap[keys[t]]
    {
      stats := stats + [statsMap[keys[j]]];
      j := j + 1;
    }
    StatsMapFoldIsGrouping(expenses, paymentMethods);
    ghost var spec := PaymentStats(expenses, paymentMethods);
    forall t | 0 <= t < |stats|
      ensures stats[t] == spec[t]
    {
      assert keys[t] in statsMap;
    }
  }

  /** The stats list each payment_method_id at most once. */
  lemma StatsIdsDistinct(expenses: seq<Expense>, paymentMethods: seq<PaymentMethod>)
    ensures var stats := PaymentStats(expenses, paymentMethods);
            forall i, j :: 0 <= i < j < |stats| ==> stats[i].methodId != stats[j].methodId
  {
    MethodIdsDistinct(expenses);
  }

  /** Every expense's payment_method_id has its entry in the stats. */
  lemma StatsCoverExpenses(expenses: seq<Expense>, paymentMethods: seq<PaymentMethod>)
    ensures var stats := PaymentStats(expenses, paymentMethods);
            forall e :: e in expenses ==> exists i :: 0 <= i < |stats| && stats[i].methodId == e.paymentMethodId
  {
    var stats := PaymentStats(expenses, paymentMethods);
    var ids := MethodIds(expenses);
    MethodIdsCover(expenses);
    forall e | e in expenses
      ensures exists i :: 0 <= i < |stats| && stats[i].methodId == e.paymentMethodId
    {
      var i :| 0 <= i < |ids| && ids[i] == e.paymentMethodId;
      assert stats[i].methodId == e.paymentMethodId;
    }
  }

  /** The totals of the stats add up to the overall total: no expense is dropped or counted twice. */
  lemma StatsTotalIsTotal(expenses: seq<Expense>, paymentMethods: seq<PaymentMethod>)
    ensures StatsTotal(PaymentStats(expenses, paymentMethods)) == Total(expenses)
  {
    StatsAddUp(PaymentStats(expenses, paymentMethods), MethodIds(expenses), expenses);
    MethodTotalsAddUp(expenses);
  }

  lemma MethodTotalStep(expenses: seq<Expense>, e: Expense, methodId: Option<int>)
    ensures MethodTotal(expenses + [e], methodId)
         == MethodTotal(expenses, methodId) + (if e.paymentMethodId == methodId then e.amount else 0)
  {
    assert (expenses + [e])[..|expenses|] == expenses;
  }

  lemma MethodIdsStep(expenses: seq<Expense>, e: Expense)
    ensures MethodIds(expenses + [e])
         == if e.paymentMethodId in MethodIds(expenses) then MethodIds(expenses) else MethodIds(expenses) + [e.paymentMethodId]
  {
    assert (expenses + [e])[..|expenses|] == expenses;
  }

  lemma {:induction false} AbsentMethodTotal(expenses: seq<Expense>, methodId: Option<int>)
    requires methodId !in MethodIds(expenses)
    ensures MethodTotal(expenses, methodId) == 0
  {
    if expenses != [] {
      AbsentMethodTotal(expenses[..|expenses| - 1], methodId);
    }
  }

  /** No payment_method_id is listed twice. */
  lemma {:induction false} MethodIdsDistinct(expenses: seq<Expense>)
    ensures forall i, j :: 0 <= i < j < |MethodIds(expenses)| ==> MethodIds(expenses)[i] != MethodIds(expenses)[j]
  {
    if expenses != [] {
      var ids := MethodIds(expenses[..|expenses| - 1]);
      var id := expenses[|expenses| - 1].paymentMethodId;
      MethodIdsDistinct(expenses[..|expenses| - 1]);
      if id !in ids {
        var ids' := ids + [id];
        assert MethodIds(expenses) == ids';
        forall i, j | 0 <= i < j < |ids'|
          ensures ids'[i] != ids'[j]
        {
          assert ids'[i] == ids[i];
          if j < |ids| {
            assert ids'[j] == ids[j];
          }
        }
      }
    }
  }

  /** Every expense's payment_method_id is listed, and only those are. */
  lemma {:induction false} MethodIdsCover(expenses: seq<Expense>)
    ensures forall e :: e in expenses ==> e.paymentMethodId in MethodIds(expenses)
    ensures forall id :: id in MethodIds(expenses) ==> exists e :: e in expenses && e.paymentMethodId == id
  {
    if expenses != [] {
      var prefix := expenses[..|expenses| - 1];
      MethodIdsCover(prefix);
      assert expenses == prefix + [expenses[|expenses| - 1]];
    }
  }

  /** The sum of the per-method totals over the listed ids. */
  function SumOfMethodTotals(ids: seq<Option<int>>, expenses: seq<Expense>): int
  {
    if ids == [] then 0 else SumOfMethodTotals(ids[..|ids| - 1], expenses) + MethodTotal(expenses, ids[|ids| - 1])
  }

  lemma {:induction false} SumOfMethodTotalsAppendExpense(ids: seq<Option<int>>, expenses: seq<Expense>, e: Expense)
    requires forall i, j :: 0 <= i < j < |ids| ==> ids[i] != ids[j]
    ensures SumOfMethodTotals(ids, expenses + [e])
         == SumOfMethodTotals(ids, expenses) + (if e.paymentMethodId in ids then e.amount else 0)
  {
    assert (expenses + [e])[..|expenses|] == expenses;
    if ids != [] {
      var ids' := ids[..|ids| - 1];
      SumOfMethodTotalsAppendExpense(ids', expenses, e);
      assert e.paymentMethodId in ids <==> e.paymentMethodId in ids' || e.paymentMethodId == ids[|ids| - 1];
    }
  }

  /** Summed over the distinct ids, the per-method totals give the overall total: no expense is dropped
      or counted twice. */
  lemma {:induction false} MethodTotalsAddUp(expenses: seq<Expense>)
    ensures SumOfMethodTotals(MethodIds(expenses), expenses) == Total(expenses)
  {
    if expenses != [] {
      var prefix, last := expenses[..|expenses| - 1], expenses[|expenses| - 1];
      assert expenses == prefix + [last];
      var ids := MethodIds(prefix);
      MethodTotalsAddUp(prefix);
      MethodIdsDistinct(prefix);
      SumOfMethodTotalsAppendExpense(ids, prefix, last);
      if last.paymentMethodId !in ids {
        AbsentMethodTotal(prefix, last.paymentMethodId);
        assert (ids + [last.paymentMethodId])[..|ids|] == ids;
      }
    }
  }

  lemma {:induction false} StatsAddUp(stats: seq<MethodStat>, ids: seq<Option<int>>, expenses: seq<Expense>)
    requires |stats| == |ids|
    requires forall i :: 0 <= i < |stats| ==> stats[i].totalAmount == MethodTotal(expenses, ids[i])
    ensures StatsTotal(stats) == SumOfMethodTotals(ids, expenses)
  {
    if stats != [] {
      StatsAddUp(stats[..|stats| - 1], ids[..|ids| - 1], expenses);
    }
  }

  // ---------------------------------------------------------------------------------------
  // The expense list

  /** An expense as the list shows it: `{ ...exp, is_paid, paid_date, payment_method_name, payment_method_color }`. */
  datatype ListedExpense = ListedExpense(expense: Expense, isPaid: bool, paidDate: Option<string>,
                                         paymentMethodName: string, paymentMethodColor: string)

  /** One expense annotated for the month. */
  function Listed(e: Expense, history: seq<HistoryRow>, paymentMethods: seq<PaymentMethod>, yearMonth: string): (r: ListedExpense)
    ensures r.expense == e
    ensures r.isPaid == IsPaidIn(history, e.id, yearMonth)
    ensures FindRow(history, e.id, yearMonth).None? ==> !r.isPaid && r.paidDate.None?
    ensures FindRow(history, e.id, yearMonth).Some? ==> r.paidDate == FindRow(history, e.id, yearMonth).value.paidDate
    ensures MethodOf(paymentMethods, e.paymentMethodId).Some? ==>
              var pm := MethodOf(paymentMethods, e.paymentMethodId).value;
              r.paymentMethodName == pm.name && r.paymentMethodColor == pm.color
    ensures MethodOf(paymentMethods, e.paymentMethodId).None? ==>
              r.paymentMethodName == "미지정" && r.paymentMethodColor == "#ccc"
  {
    var row := FindRow(history, e.id, yearMonth);
    var pm := MethodOf(paymentMethods, e.paymentMethodId);
    ListedExpense(e,
                  if row.Some? then row.value.isPaid else false,
                  if row.Some? then row.value.paidDate else None,
                  if pm.Some? then pm.value.name else "미지정",
                  if pm.Some? then pm.value.color else "#ccc")
  }

  /** `expenses.map(...)`: every expense annotated, in store order. */
  function ListAll(expenses: seq<Expense>, history: seq<HistoryRow>, paymentMethods: seq<PaymentMethod>, yearMonth: string)
    : (r: seq<ListedExpense>)
    ensures |r| == |expenses|
    ensures forall i :: 0 <= i < |r| ==> r[i].expense == expenses[i] && r[i].isPaid == IsPaidIn(history, expenses[i].id, yearMonth)
    ensures forall i :: 0 <= i < |r| ==> r[i] == Listed(expenses[i], history, paymentMethods, yearMonth)
  {
    seq(|expenses|, i requires 0 <= i < |expenses| => Listed(expenses[i], history, paymentMethods, yearMonth))
  }

  /** The sort key of a payment day: the day number, or 99 for the variable day. */
  function DayRank(day: PaymentDay): (rank: int)
    ensures day.Day? ==> rank == day.n
    ensures day.Variable? ==> rank == 99
  {
    match day
    case Variable => 99
    case Day(n) => n
  }

  function Rank(x: ListedExpense): int
  {
    DayRank(x.expense.paymentDay)
  }

  ghost predicate SortedByDay(s: seq<ListedExpense>)
  {
    forall i, j :: 0 <= i < j < |s| ==> Rank(s[i]) <= Rank(s[j])
  }

  /** x placed before the first element ranked at or above it. */
  function InsertByDay(x: ListedExpense, s: seq<ListedExpense>): (r: seq<ListedExpense>)
    ensures |r| == |s| + 1
    ensures multiset(r) == multiset(s) + multiset{x}
    ensures r[0] == x || (s != [] && r[0] == s[0])
  {
    if s == [] || Rank(x) <= Rank(s[0]) then [x] + s
    else
      assert s == [s[0]] + s[1..];
      [s[0]] + InsertByDay(x, s[1..])
  }

  lemma {:induction false} InsertKeepsSorted(x: ListedExpense, s: seq<ListedExpense>)
    requires SortedByDay(s)
    ensures SortedByDay(InsertByDay(x, s))
  {
    if s != [] && Rank(x) > Rank(s[0]) {
      var rest := InsertByDay(x, s[1..]);
      InsertKeepsSorted(x, s[1..]);
      assert Rank(s[0]) <= Rank(rest[0]);
      var r := [s[0]] + rest;
      forall i, j | 0 <= i < j < |r|
        ensures Rank(r[i]) <= Rank(r[j])
      {
        if i == 0 {
          assert r[j] == rest[j - 1];
          assert Rank(rest[0]) <= Rank(rest[j - 1]) || j == 1;
        } else {
          assert r[i] == rest[i - 1] && r[j] == rest[j - 1];
        }
      }
    }
  }

  /** `.sort((a, b) => dayA - dayB)`: a stable sort by payment day. */
  function SortByDay(s: seq<ListedExpense>): (r: seq<ListedExpense>)
    ensures multiset(r) == multiset(s)
  {
    if s == [] then []
    else
      assert s == [s[0]] + s[1..];
      InsertByDay(s[0], SortByDay(s[1..]))
  }

  /** The sort orders by payment day. */
  lemma {:induction false} SortIsSorted(s: seq<ListedExpense>)
    ensures SortedByDay(SortByDay(s))
  {
    if s != [] {
      SortIsSorted(s[1..]);
      InsertKeepsSorted(s[0], SortByDay(s[1..]));
    }
  }

  /** getExpenseList(year, month). */
  function GetExpenseList(expenses: seq<Expense>, history: seq<HistoryRow>, paymentMethods: seq<PaymentMethod>,
                          year: int, month: int): (r: seq<ListedExpense>)
    ensures |r| == |expenses|
    ensures multiset(r) == multiset(ListAll(expenses, history, paymentMethods, YearMonthKey(year, month)))
    ensures SortedByDay(r)
  {
    var all := ListAll(expenses, history, paymentMethods, YearMonthKey(year, month));
    assert |multiset(all)| == |all|;
    SortIsSorted(all);
    SortByDay(all)
  }

  /** In the list every '유동' expense comes after every expense due on a day up to 31. */
  lemma VariableDaysLast(expenses: seq<Expense>, history: seq<HistoryRow>, paymentMethods: seq<PaymentMethod>,
                         year: int, month: int)
    ensures var r := GetExpenseList(expenses, history, paymentMethods, year, month);
            forall i, j ::
              (0 <= i < |r| && 0 <= j < |r| && r[i].expense.paymentDay == Variable &&
               r[j].expense.paymentDay.Day? && r[j].expense.paymentDay.n <= 31) ==> j < i
  {
    SortedPutsVariableLast(GetExpenseList(expenses, history, paymentMethods, year, month));
  }

  /** In any list sorted by day, a '유동' element stands after every element due on a day up to 31. */
  lemma SortedPutsVariableLast(s: seq<ListedExpense>)
    requires SortedByDay(s)
    ensures forall i, j ::
              (0 <= i < |s| && 0 <= j < |s| && s[i].expense.paymentDay == Variable &&
               s[j].expense.paymentDay.Day? && s[j].expense.paymentDay.n <= 31) ==> j < i
  {
    forall i, j | 0 <= i < |s| && 0 <= j < |s| && s[i].expense.paymentDay == Variable &&
                  s[j].expense.paymentDay.Day? && s[j].expense.paymentDay.n <= 31
      ensures j < i
    {
      assert Rank(s[j]) < Rank(s[i]);
    }
  }

  /** The test "ranked k". */
  function RankIs(k: int): ListedExpense -> bool
  {
    (x: ListedExpense) => Rank(x) == k
  }

  lemma {:induction false} InsertKeepsTies(x: ListedExpense, s: seq<ListedExpense>, k: int)
    ensures Filter(InsertByDay(x, s), RankIs(k)) == Filter([x], RankIs(k)) + Filter(s, RankIs(k))
  {
    var keep := RankIs(k);
    if s == [] || Rank(x) <= Rank(s[0]) {
      FilterAppend([x], s, keep);
    } else {
      var rest := InsertByDay(x, s[1..]);
      assert InsertByDay(x, s) == [s[0]] + rest;
      assert [s[0]] + s[1..] == s;
      InsertKeepsTies(x, s[1..], k);
      FilterAppend([s[0]], rest, keep);
      FilterAppend([s[0]], s[1..], keep);
      // x ranks above s[0], so at most one of the two is kept and their order does not matter
      FilterSingleton(x, keep);
      FilterSingleton(s[0], keep);
      SwapAroundEmpty(Filter([s[0]], keep), Filter([x], keep), Filter(s[1..], keep));
    }
  }

  lemma SwapAroundEmpty<T>(a: seq<T>, b: seq<T>, c: seq<T>)
    requires a == [] || b == []
    ensures a + (b + c) == b + (a + c)
  {
    if a == [] {
      assert b + ([] + c) == b + c;
    } else {
      assert [] + (a + c) == a + c;
    }
  }

  /** The sort is stable: expenses with the same payment day keep their store order. */
  lemma {:induction false} SortKeepsTies(s: seq<ListedExpense>, k: int)
    ensures Filter(SortByDay(s), RankIs(k)) == Filter(s, RankIs(k))
  {
    if s != [] {
      SortKeepsTies(s[1..], k);
      InsertKeepsTies(s[0], SortByDay(s[1..]), k);
      FilterAppend([s[0]], s[1..], RankIs(k));
      assert s == [s[0]] + s[1..];
    }
  }

  /** The list marks an expense paid exactly when the summary counts it as paid. */
  lemma ListAgreesWithSummary(expenses: seq<Expense>, history: seq<HistoryRow>, paymentMethods: seq<PaymentMethod>,
                              year: int, month: int)
    ensures forall x :: x in GetExpenseList(expenses, history, paymentMethods, year, month) ==>
      x.expense in expenses && x.isPaid == IsPaidIn(history, x.expense.id, YearMonthKey(year, month))
  {
    ListedItemsAgree(GetExpenseList(expenses, history, paymentMethods, year, month),
                     expenses, history, paymentMethods, YearMonthKey(year, month));
  }

  /** Whatever order the annotated expenses are put in, each item is an expense of the store showing
      its paid status for the month. */
  lemma ListedItemsAgree(r: seq<ListedExpense>, expenses: seq<Expense>, history: seq<HistoryRow>,
                         paymentMethods: seq<PaymentMethod>, yearMonth: string)
    requires multiset(r) == multiset(ListAll(expenses, history, paymentMethods, yearMonth))
    ensures forall x :: x in r ==> x.expense in expenses && x.isPaid == IsPaidIn(history, x.expense.id, yearMonth)
    ensures forall x :: x in r ==> x == Listed(x.expense, history, paymentMethods, yearMonth)
  {
    var all := ListAll(expenses, history, paymentMethods, yearMonth);
    forall x | x in r
      ensures x.expense in expenses && x.isPaid == IsPaidIn(history, x.expense.id, yearMonth)
      ensures x == Listed(x.expense, history, paymentMethods, yearMonth)
    {
      assert x in multiset(all);
      var i :| 0 <= i < |all| && all[i] == x;
    }
  }
}
