/** The logic of the dashboard page (03-frontend/src/pages/Dashboard.jsx): the month it shows, the
    month navigation, the toggle button and the progress bar. Rendering is not modelled. */
module DashboardPage {

  import opened Wrappers
  import opened Records
  import opened MonthKey
  import opened LocalStore
  import opened Selectors

  /** The months before (year, month) since the start of year 0: one step per calendar month. */
  function MonthIndex(year: int, month: int): int
  {
    year * 12 + (month - 1)
  }

  /** The month handlePrevMonth moves to. */
  function PrevMonth(year: int, month: int): (r: (int, int))
    ensures 1 <= month <= 12 ==> 1 <= r.1 <= 12 && MonthIndex(r.0, r.1) == MonthIndex(year, month) - 1
    ensures month > 1 ==> r.0 == year
  {
    if month - 1 < 1 then (year - 1, 12) else (year, month - 1)
  }

  /** The month handleNextMonth moves to. */
  function NextMonth(year: int, month: int): (r: (int, int))
    ensures 1 <= month <= 12 ==> 1 <= r.1 <= 12 && MonthIndex(r.0, r.1) == MonthIndex(year, month) + 1
    ensures month < 12 ==> r.0 == year
  {
    if month + 1 > 12 then (year + 1, 1) else (year, month + 1)
  }

  /** Two months in 1..12 with the same index are the same month. */
  lemma MonthIndexInjective(y1: int, m1: int, y2: int, m2: int)
    requires 1 <= m1 <= 12 && 1 <= m2 <= 12
    requires MonthIndex(y1, m1) == MonthIndex(y2, m2)
    ensures y1 == y2 && m1 == m2
  {
  }

  /** From a month in 1..12, next undoes prev and prev undoes next. */
  lemma {:induction false} NavigationRoundTrip(year: int, month: int)
    requires 1 <= month <= 12
    ensures var (py, pm) := PrevMonth(year, month); NextMonth(py, pm) == (year, month)
    ensures var (ny, nm) := NextMonth(year, month); PrevMonth(ny, nm) == (year, month)
  {
    var (py, pm) := PrevMonth(year, month);
    var (qy, qm) := NextMonth(py, pm);
    MonthIndexInjective(qy, qm, year, month);
    var (ny, nm) := NextMonth(year, month);
    var (ry, rm) := PrevMonth(ny, nm);
    MonthIndexInjective(ry, rm, year, month);
  }

  /** `total > 0 ? Math.min(Math.round((paid / total) * 100), 100) : 0`, on exact rationals:
      Math.round(x) is floor(x + 1/2), and (200 * paid + total) / (2 * total) is that floor. */
  function ProgressPercent(total: int, paid: int): (r: int)
    ensures total <= 0 ==> r == 0
    ensures r <= 100
  {
    if total > 0 then
      var rounded := (200 * paid + total) / (2 * total);
      if rounded < 100 then rounded else 100
    else 0
  }

  /** The bar shows paid / total as a percentage rounded to the nearest whole number, halves rounded
      up; it never shows less than 0 for a non-negative paid amount, is full from paid == total on,
      and is full only once the rounded percentage reaches 100. */
  lemma ProgressIsRoundedPercent(total: int, paid: int)
    requires total > 0
    ensures var r := ProgressPercent(total, paid);
            && (paid >= 0 ==> 0 <= r)
            && (paid >= total ==> r == 100)
            && (r < 100 ==> -total <= 2 * (100 * paid - r * total) < total)
            && (r == 100 ==> 200 * paid + total >= 200 * total)
  {
    var n, d := 200 * paid + total, 2 * total;
    var q, rem := n / d, n % d;
    assert n == d * q + rem && 0 <= rem < d;
    if q < 100 {
      assert 2 * (100 * paid - q * total) == rem - total by { assert d * q == 2 * (q * total); }
      if paid >= 0 && q < 0 {
        assert d * q <= d * -1 by { MultiplyMonotone(d, q, -1); }
      }
      if paid >= total {
        assert d * q <= d * 99 by { MultiplyMonotone(d, q, 99); }
      }
    } else {
      assert d * 100 <= d * q by { MultiplyMonotone(d, 100, q); }
    }
  }

  lemma MultiplyMonotone(d: int, a: int, b: int)
    requires d > 0 && a <= b
    ensures d * a <= d * b
  {
    assert d * b - d * a == d * (b - a);
  }

  /** The bar of a month's summary: with non-negative amounts it lies in 0..100, and it is full when
      every expense is paid. */
  lemma ProgressOfSummary(expenses: seq<Expense>, history: seq<HistoryRow>, yearMonth: string)
    requires forall i :: 0 <= i < |expenses| ==> expenses[i].amount >= 0
    ensures var p := ProgressPercent(Total(expenses), PaidTotal(expenses, history, yearMonth));
            && 0 <= p <= 100
            && (Total(expenses) > 0 && PaidTotal(expenses, history, yearMonth) == Total(expenses) ==> p == 100)
  {
    PaidWithinTotal(expenses, history, yearMonth);
    if Total(expenses) > 0 {
      ProgressIsRoundedPercent(Total(expenses), PaidTotal(expenses, history, yearMonth));
    }
  }

  /** The toggle button requests the opposite of what the list shows, so after the toggle the
      expense's status for the shown month is the flipped one. */
  lemma ToggleFlipsListedStatus(expenses: seq<Expense>, history: seq<HistoryRow>, paymentMethods: seq<PaymentMethod>,
                                year: int, month: int, item: ListedExpense, now: string, freshId: int)
    requires item in GetExpenseList(expenses, history, paymentMethods, year, month)
    ensures var yearMonth := YearMonthKey(year, month);
            var toggled := ToggledHistory(history, expenses, item.expense.id, yearMonth, !item.isPaid, now, freshId);
            IsPaidIn(toggled, item.expense.id, yearMonth) == !IsPaidIn(history, item.expense.id, yearMonth)
  {
    ListAgreesWithSummary(expenses, history, paymentMethods, year, month);
    assert ExpenseById(expenses, item.expense.id).Some?;
    ToggleSetsRow(history, expenses, item.expense.id, YearMonthKey(year, month), !item.isPaid, now, freshId);
  }

  /** The dashboard page: the month it shows and the store it reads. */
  class Dashboard {
    var year: int
    var month: int
    const store: Store

    /** Opens on the current month, given as (today's year, today's month). */
    constructor(store: Store, todayYear: int, todayMonth: int)
      ensures this.store == store && year == todayYear && month == todayMonth
    {
      this.store := store;
      year := todayYear;
      month := todayMonth;
    }

    /** handlePrevMonth. */
    method HandlePrevMonth()
      modifies this
      ensures (year, month) == PrevMonth(old(year), old(month))
    {
      var newMonth := month - 1;
      var newYear := year;
      if newMonth < 1 {
        newMonth := 12;
        newYear := newYear - 1;
      }
      year := newYear;
      month := newMonth;
    }

    /** handleNextMonth. */
    method HandleNextMonth()
      modifies this
      ensures (year, month) == NextMonth(old(year), old(month))
    {
      var newMonth := month + 1;
      var newYear := year;
      if newMonth > 12 {
        newMonth := 1;
        newYear := newYear + 1;
      }
      year := newYear;
      month := newMonth;
    }

    /** handleToggleStatus(expense): toggles the shown month's status of a listed expense; `now` and
        `freshId` stand for the clock reads the store makes. */
    method HandleToggleStatus(item: ListedExpense, now: string, freshId: int)
      requires store.Valid()
      modifies store
      ensures store.Valid()
      ensures store.expenseHistory == ToggledHistory(old(store.expenseHistory), old(store.expenses), item.expense.id,
                                                     YearMonthKey(year, month), !item.isPaid, now, freshId)
      ensures store.expenses == old(store.expenses)
      ensures store.categories == old(store.categories) && store.paymentMethods == old(store.paymentMethods)
    {
      var yearMonth := YearMonthKey(year, month);
      store.TogglePaymentStatus(item.expense.id, yearMonth, !item.isPaid, now, freshId);
      assert yearMonth == YearMonthKey(year, month);
    }
  }
}
