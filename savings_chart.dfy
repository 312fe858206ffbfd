/** The six-month savings trend: per window month the savings (income minus
    expenses) and the running total of those savings. */
module SavingsChart {
  import opened Domain
  import opened MonthlyChart

  datatype SavingsRow = SavingsRow(month: YearMonth, savings: real, cumulative: real)

  /** What one month saved: its INCOME total minus its EXPENSE total. */
  function MonthSavings(ts: seq<Transaction>, ym: YearMonth): real
  {
    MonthTotal(ts, Income, ym) - MonthTotal(ts, Expense, ym)
  }

  /** The savings of the months `w`, added up in order. */
  function WindowSavings(ts: seq<Transaction>, w: seq<YearMonth>): real
  {
    if |w| == 0 then 0.0 else WindowSavings(ts, w[..|w| - 1]) + MonthSavings(ts, w[|w| - 1])
  }

  /** The `chartData` memo: the buckets, then a `map` that keeps `cumulative`
      across rows, so row k holds the savings of month k and the sum of the
      savings of months 0..k. */
  method SavingsTrend(ts: seq<Transaction>, now: YearMonth) returns (rows: seq<SavingsRow>)
    ensures |rows| == 6
    ensures forall k :: 0 <= k < 6 ==> rows[k].month == Window(now)[k]
    ensures forall k :: 0 <= k < 6 ==> rows[k].savings == MonthSavings(ts, Window(now)[k])
    ensures forall k :: 0 <= k < 6 ==> rows[k].cumulative == WindowSavings(ts, Window(now)[..k + 1])
  {
    var months, income, expenses := Buckets(ts, now);
    var cumulative := 0.0;
    rows := [];
    for k := 0 to 6
      invariant |rows| == k
      invariant cumulative == WindowSavings(ts, months[..k])
      invariant forall i :: 0 <= i < k ==> rows[i] == SavingsRow(months[i], MonthSavings(ts, months[i]), WindowSavings(ts, months[..i + 1]))
    {
      var savings := income[k] - expenses[k];
      cumulative := cumulative + savings;
      assert months[..k + 1][..k] == months[..k];
      rows := rows + [SavingsRow(months[k], savings, cumulative)];
    }
  }

  predicate Distinct(w: seq<YearMonth>)
  {
    forall i, j :: 0 <= i < j < |w| ==> w[i] != w[j]
  }

  /** The `ty` amounts of the transactions dated in any month of `w`. */
  function InWindowTotal(ts: seq<Transaction>, ty: TxType, w: seq<YearMonth>): real
  {
    if |ts| == 0 then 0.0
    else
      var t := ts[|ts| - 1];
      InWindowTotal(ts[..|ts| - 1], ty, w) + (if t.txType == ty && MonthOf(t.transactionDate) in w then t.amount else 0.0)
  }

  /** The `ty` totals of the months of `w`, added up. */
  function SumOverMonths(ts: seq<Transaction>, ty: TxType, w: seq<YearMonth>): real
  {
    if |w| == 0 then 0.0 else SumOverMonths(ts, ty, w[..|w| - 1]) + MonthTotal(ts, ty, w[|w| - 1])
  }

  lemma {:induction false} SumOverNoTransactions(ty: TxType, w: seq<YearMonth>)
    ensures SumOverMonths([], ty, w) == 0.0
    decreases |w|
  {
    if |w| > 0 {
      SumOverNoTransactions(ty, w[..|w| - 1]);
    }
  }

  /** A further transaction adds its amount to the sum over distinct months
      once if its month is among them, and not at all otherwise. */
  lemma {:induction false} SumOverOneMore(ts: seq<Transaction>, t: Transaction, ty: TxType, w: seq<YearMonth>)
    requires Distinct(w)
    ensures SumOverMonths(ts + [t], ty, w) ==
      SumOverMonths(ts, ty, w) + (if t.txType == ty && MonthOf(t.transactionDate) in w then t.amount else 0.0)
    decreases |w|
  {
    if |w| > 0 {
      var w' := w[..|w| - 1];
      assert Distinct(w');
      SumOverOneMore(ts, t, ty, w');
      assert (ts + [t])[..|ts|] == ts;
      assert w == w' + [w[|w| - 1]];
      assert MonthOf(t.transactionDate) in w <==> MonthOf(t.transactionDate) in w' || MonthOf(t.transactionDate) == w[|w| - 1];
      assert !(w[|w| - 1] in w');
    }
  }

  /** Over distinct months, adding month by month equals adding transaction by
      transaction those dated in one of the months. */
  lemma {:induction false} SumOverMonthsIsWindowTotal(ts: seq<Transaction>, ty: TxType, w: seq<YearMonth>)
    requires Distinct(w)
    ensures SumOverMonths(ts, ty, w) == InWindowTotal(ts, ty, w)
    decreases |ts|
  {
    if |ts| == 0 {
      SumOverNoTransactions(ty, w);
    } else {
      var init := ts[..|ts| - 1];
      SumOverMonthsIsWindowTotal(init, ty, w);
      SumOverOneMore(init, ts[|ts| - 1], ty, w);
      assert init + [ts[|ts| - 1]] == ts;
    }
  }

  lemma {:induction false} WindowSavingsSplit(ts: seq<Transaction>, w: seq<YearMonth>)
    ensures WindowSavings(ts, w) == SumOverMonths(ts, Income, w) - SumOverMonths(ts, Expense, w)
    decreases |w|
  {
    if |w| > 0 {
      WindowSavingsSplit(ts, w[..|w| - 1]);
    }
  }

  /** The last point of the trend is everything earned minus everything spent
      in the six months shown; transfers and transactions outside the window
      never count. */
  lemma FinalCumulative(ts: seq<Transaction>, now: YearMonth)
    ensures WindowSavings(ts, Window(now)[..6]) ==
      InWindowTotal(ts, Income, Window(now)) - InWindowTotal(ts, Expense, Window(now))
  {
    var w := Window(now);
    WindowShape(now);
    assert w[..6] == w;
    WindowSavingsSplit(ts, w);
    SumOverMonthsIsWindowTotal(ts, Income, w);
    SumOverMonthsIsWindowTotal(ts, Expense, w);
  }
}
