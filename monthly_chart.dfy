/** The six-month income/expenses bar chart: a window of the six calendar months
    ending with the current one, and per month the INCOME and EXPENSE totals. */
module MonthlyChart {
  import opened Domain

  /** Months counted from year 0; consecutive months differ by one. */
  function MonthNumber(ym: YearMonth): int
  {
    ym.year * 12 + ym.month
  }

  lemma MonthNumberInjective(a: YearMonth, b: YearMonth)
    ensures MonthNumber(a) == MonthNumber(b) <==> a == b
  {
  }

  /** `new Date(year, month - back, 1)`: a month index outside 0..11 moves the
      year, which is floor division by 12. */
  function MonthsBefore(now: YearMonth, back: int): (ym: YearMonth)
    ensures MonthNumber(ym) == MonthNumber(now) - back
  {
    var n := MonthNumber(now) - back;
    YearMonth(n / 12, n % 12)
  }

  /** The keys the `for (let i = 5; i >= 0; i--)` loop inserts, oldest first. */
  function Window(now: YearMonth): (w: seq<YearMonth>)
    ensures |w| == 6
    ensures forall k :: 0 <= k < 6 ==> MonthNumber(w[k]) == MonthNumber(now) - (5 - k)
  {
    seq(6, k requires 0 <= k < 6 => MonthsBefore(now, 5 - k))
  }

  /** The window ends at the current month, each month follows the previous one,
      and so no month occurs twice. */
  lemma WindowShape(now: YearMonth)
    ensures Window(now)[5] == now
    ensures forall k :: 0 <= k < 5 ==> MonthNumber(Window(now)[k + 1]) == MonthNumber(Window(now)[k]) + 1
    ensures forall i, j :: 0 <= i < j < 6 ==> Window(now)[i] != Window(now)[j]
  {
    MonthNumberInjective(Window(now)[5], now);
    forall i, j | 0 <= i < j < 6 ensures Window(now)[i] != Window(now)[j] {
      MonthNumberInjective(Window(now)[i], Window(now)[j]);
    }
  }

  /** Before June, the window starts in the previous year: `month - i` below 0
      wraps to December and back. */
  lemma WindowAcrossYears(now: YearMonth)
    ensures now.month < 5 ==> Window(now)[0] == YearMonth(now.year - 1, now.month + 7)
    ensures now.month >= 5 ==> Window(now)[0] == YearMonth(now.year, now.month - 5)
  {
    var w0 := Window(now)[0];
    if now.month < 5 {
      MonthNumberInjective(w0, YearMonth(now.year - 1, now.month + 7));
    } else {
      MonthNumberInjective(w0, YearMonth(now.year, now.month - 5));
    }
  }

  /** `monthlyData.get(key)`: the slot of month `ym` in the window, or -1. */
  method FindSlot(window: seq<YearMonth>, ym: YearMonth) returns (j: int)
    ensures -1 <= j < |window|
    ensures 0 <= j ==> window[j] == ym
    ensures j == -1 ==> ym !in window
  {
    j := 0;
    while j < |window| && window[j] != ym
      invariant 0 <= j <= |window|
      invariant ym !in window[..j]
    {
      j := j + 1;
    }
    if j == |window| {
      assert window[..j] == window;
      j := -1;
    }
  }

  /** The bucket map after seeding and the `forEach`: the window's months, and per
      month the INCOME total and the EXPENSE total of the transactions dated in it.
      The map's entries live in three arrays indexed by insertion order. */
  method Buckets(ts: seq<Transaction>, now: YearMonth) returns (months: seq<YearMonth>, income: seq<real>, expenses: seq<real>)
    ensures months == Window(now) && |income| == 6 && |expenses| == 6
    ensures forall k :: 0 <= k < 6 ==> income[k] == MonthTotal(ts, Income, months[k])
    ensures forall k :: 0 <= k < 6 ==> expenses[k] == MonthTotal(ts, Expense, months[k])
  {
    var keys := new YearMonth[6](_ => now);
    var inc := new real[6];
    var exp := new real[6];
    for i := 0 to 6
      invariant forall k :: 0 <= k < i ==> keys[k] == MonthsBefore(now, 5 - k) && inc[k] == 0.0 && exp[k] == 0.0
    {
      keys[i], inc[i], exp[i] := MonthsBefore(now, 5 - i), 0.0, 0.0;
    }
    months := keys[..];
    assert months == Window(now);
    WindowShape(now);
    for n := 0 to |ts|
      invariant keys[..] == months
      invariant forall k :: 0 <= k < 6 ==> inc[k] == MonthTotal(ts[..n], Income, months[k])
      invariant forall k :: 0 <= k < 6 ==> exp[k] == MonthTotal(ts[..n], Expense, months[k])
    {
      var t := ts[n];
      assert ts[..n + 1][..n] == ts[..n] && ts[..n + 1][n] == t;
      var j := FindSlot(months, MonthOf(t.transactionDate));
      if 0 <= j {
        if t.txType == Income {
          inc[j] := inc[j] + t.amount;
        } else if t.txType == Expense {
          exp[j] := exp[j] + t.amount;
        }
      }
    }
    assert ts[..|ts|] == ts;
    income, expenses := inc[..], exp[..];
  }

  datatype MonthRow = MonthRow(month: YearMonth, income: real, expenses: real)

  /** The `chartData` memo: one row per window month, oldest first, each holding
      the sum of that month's INCOME amounts and of its EXPENSE amounts. */
  method MonthlyIncomeExpenses(ts: seq<Transaction>, now: YearMonth) returns (rows: seq<MonthRow>)
    ensures |rows| == 6
    ensures forall k :: 0 <= k < 6 ==>
      rows[k] == MonthRow(Window(now)[k], MonthTotal(ts, Income, Window(now)[k]), MonthTotal(ts, Expense, Window(now)[k]))
  {
    var months, income, expenses := Buckets(ts, now);
    rows := seq(6, k requires 0 <= k < 6 => MonthRow(months[k], income[k], expenses[k]));
  }

  /** A TRANSFER, or a transaction dated outside the window, changes no bucket;
      an INCOME or EXPENSE inside the window adds its amount to exactly its own
      month's income or expenses. */
  lemma OneMoreTransaction(ts: seq<Transaction>, now: YearMonth, t: Transaction, k: nat)
    requires k < 6
    ensures MonthTotal(ts + [t], Income, Window(now)[k]) == MonthTotal(ts, Income, Window(now)[k]) +
      (if t.txType == Income && MonthOf(t.transactionDate) == Window(now)[k] then t.amount else 0.0)
    ensures MonthTotal(ts + [t], Expense, Window(now)[k]) == MonthTotal(ts, Expense, Window(now)[k]) +
      (if t.txType == Expense && MonthOf(t.transactionDate) == Window(now)[k] then t.amount else 0.0)
    ensures t.txType == Transfer || MonthOf(t.transactionDate) !in Window(now) ==>
      MonthTotal(ts + [t], Income, Window(now)[k]) == MonthTotal(ts, Income, Window(now)[k]) &&
      MonthTotal(ts + [t], Expense, Window(now)[k]) == MonthTotal(ts, Expense, Window(now)[k])
  {
    assert (ts + [t])[..|ts|] == ts;
  }
}
