/** The expenses-by-category pie chart: the EXPENSE entries of the category
    breakdown, coloured from a fixed palette, and the legend configuration. */
module ExpenseChart {
  import opened Domain
  import opened Dashboard

  const COLORS: seq<string> := ["#ef4444", "#f97316", "#f59e0b", "#84cc16", "#10b981", "#06b6d4", "#3b82f6", "#6366f1", "#8b5cf6"]

  /** `COLORS[index % COLORS.length]`. */
  function Color(index: nat): string
  {
    COLORS[index % |COLORS|]
  }

  /** The nine palette colours are pairwise different. */
  lemma PaletteDistinct()
    ensures forall i, j :: 0 <= i < j < |COLORS| ==> COLORS[i] != COLORS[j]
  {
  }

  datatype Slice = Slice(name: string, value: real, fill: string)

  /** `categoryStats.filter(cat => cat.type === 'EXPENSE')`. */
  function ExpenseOnly(stats: seq<CategoryStat>): seq<CategoryStat>
  {
    if |stats| == 0 then []
    else
      var last := stats[|stats| - 1];
      ExpenseOnly(stats[..|stats| - 1]) + (if last.txType == Expense then [last] else [])
  }

  /** The filter keeps exactly the EXPENSE entries, and never reorders. */
  lemma {:induction false} ExpenseOnlyMembers(stats: seq<CategoryStat>)
    ensures forall c :: c in ExpenseOnly(stats) <==> c in stats && c.txType == Expense
    ensures |ExpenseOnly(stats)| <= |stats|
    decreases |stats|
  {
    if |stats| > 0 {
      var init := stats[..|stats| - 1];
      ExpenseOnlyMembers(init);
      assert stats == init + [stats[|stats| - 1]];
    }
  }

  /** The filter applied to a concatenation is the concatenation of the
      filtered halves: the kept entries stay in their original order. */
  lemma {:induction false} ExpenseOnlyConcat(a: seq<CategoryStat>, b: seq<CategoryStat>)
    ensures ExpenseOnly(a + b) == ExpenseOnly(a) + ExpenseOnly(b)
    decreases |b|
  {
    if |b| == 0 {
      assert a + b == a;
    } else {
      var b' := b[..|b| - 1];
      assert (a + b)[..|a + b| - 1] == a + b';
      assert (a + b)[|a + b| - 1] == b[|b| - 1];
      ExpenseOnlyConcat(a, b');
    }
  }

  /** The `chartData` memo: one slice per EXPENSE entry, in order, with the
      entry's name and amount and the palette colour of its position. */
  function ChartData(stats: seq<CategoryStat>): seq<Slice>
  {
    var e := ExpenseOnly(stats);
    seq(|e|, i requires 0 <= i < |e| => Slice(e[i].name, e[i].amount, Color(i)))
  }

  /** Every slice shows an EXPENSE entry of the input, and every EXPENSE entry
      is shown. */
  lemma ChartDataEntries(stats: seq<CategoryStat>)
    ensures forall s :: s in ChartData(stats) ==> exists c :: c in stats && c.txType == Expense && s.name == c.name && s.value == c.amount
    ensures forall c :: c in stats && c.txType == Expense ==> exists s :: s in ChartData(stats) && s.name == c.name && s.value == c.amount
  {
    var e := ExpenseOnly(stats);
    var d := ChartData(stats);
    ExpenseOnlyMembers(stats);
    forall s | s in d
      ensures exists c :: c in stats && c.txType == Expense && s.name == c.name && s.value == c.amount
    {
      var i :| 0 <= i < |d| && d[i] == s;
      assert e[i] in e;
    }
    forall c | c in stats && c.txType == Expense
      ensures exists s :: s in d && s.name == c.name && s.value == c.amount
    {
      var i :| 0 <= i < |e| && e[i] == c;
      assert d[i] in d;
    }
  }

  /** Slices fewer than nine apart never share a colour, and the palette
      starts over every nine slices. */
  lemma ChartDataColors(stats: seq<CategoryStat>)
    ensures forall i, j :: 0 <= i < j < |ChartData(stats)| && j - i < 9 ==> ChartData(stats)[i].fill != ChartData(stats)[j].fill
    ensures forall i :: 0 <= i < |ChartData(stats)| - 9 ==> ChartData(stats)[i].fill == ChartData(stats)[i + 9].fill
  {
    var d := ChartData(stats);
    PaletteDistinct();
    forall i, j | 0 <= i < j < |d| && j - i < 9
      ensures d[i].fill != d[j].fill
    {
      ColorsApart(i, j);
    }
    forall i | 0 <= i < |d| - 9
      ensures d[i].fill == d[i + 9].fill
    {
      assert (i + 9) % 9 == i % 9;
    }
  }

  lemma ColorsApart(i: nat, j: nat)
    requires i < j < i + 9
    ensures Color(i) != Color(j)
  {
    PaletteDistinct();
  }

  /** The empty state ("no data") shows exactly when no entry is an EXPENSE. */
  lemma EmptyStateIff(stats: seq<CategoryStat>)
    ensures |ChartData(stats)| == 0 <==> forall c :: c in stats ==> c.txType != Expense
  {
    ExpenseOnlyMembers(stats);
    if |ExpenseOnly(stats)| > 0 {
      assert ExpenseOnly(stats)[0] in ExpenseOnly(stats);
    }
  }

  datatype ConfigEntry = ConfigEntry(legendLabel: string, color: string)

  function Names(data: seq<Slice>): set<string>
  {
    set i | 0 <= i < |data| :: data[i].name
  }

  /** The position of the last slice named `name`. */
  function LastIndex(data: seq<Slice>, name: string): (r: nat)
    requires name in Names(data)
    ensures r < |data| && data[r].name == name
    ensures forall j :: r < j < |data| ==> data[j].name != name
  {
    var last := |data| - 1;
    if data[last].name == name then last
    else
      assert name in Names(data[..last]) by {
        var i :| 0 <= i < |data| && data[i].name == name;
        assert data[..last][i].name == name;
      }
      LastIndex(data[..last], name)
  }

  /** One more slice adds its name to the names seen. */
  lemma NamesStep(data: seq<Slice>, n: nat)
    requires n < |data|
    ensures Names(data[..n + 1]) == Names(data[..n]) + {data[n].name}
  {
    assert data[..n + 1][..n] == data[..n];
    forall x | x in Names(data[..n + 1]) ensures x in Names(data[..n]) + {data[n].name} {
      var i :| 0 <= i < n + 1 && data[..n + 1][i].name == x;
      if i < n { assert data[..n][i].name == x; }
    }
    forall x | x in Names(data[..n]) ensures x in Names(data[..n + 1]) {
      var i :| 0 <= i < n && data[..n][i].name == x;
      assert data[..n + 1][i].name == x;
    }
    assert data[..n + 1][n].name == data[n].name;
  }

  /** One more slice becomes the last of its name and leaves the other
      names' last slices where they were. */
  lemma LastIndexStep(data: seq<Slice>, n: nat, name: string)
    requires n < |data| && name in Names(data[..n + 1])
    ensures name == data[n].name ==> LastIndex(data[..n + 1], name) == n
    ensures name != data[n].name ==> name in Names(data[..n]) && LastIndex(data[..n + 1], name) == LastIndex(data[..n], name)
  {
    assert data[..n + 1][..n] == data[..n];
    NamesStep(data, n);
  }

  /** The `chartConfig` memo: `config[item.name] = ...` for each slice in turn,
      so the legend has one entry per distinct name, labelled with the name, and
      a name shared by several slices keeps the colour of the last of them. */
  method ChartConfig(data: seq<Slice>) returns (config: map<string, ConfigEntry>)
    ensures config.Keys == Names(data)
    ensures forall name :: name in config ==> config[name] == ConfigEntry(name, Color(LastIndex(data, name)))
  {
    config := map[];
    for n := 0 to |data|
      invariant config.Keys == Names(data[..n])
      invariant forall name :: name in config ==> config[name] == ConfigEntry(name, Color(LastIndex(data[..n], name)))
    {
      var item := data[n];
      NamesStep(data, n);
      forall name | name in Names(data[..n + 1])
        ensures name == item.name ==> LastIndex(data[..n + 1], name) == n
        ensures name != item.name ==> name in Names(data[..n]) && LastIndex(data[..n + 1], name) == LastIndex(data[..n], name)
      {
        LastIndexStep(data, n, name);
      }
      config := config[item.name := ConfigEntry(item.name, Color(n))];
    }
    assert data[..|data|] == data;
  }

  /** Where names are distinct, each legend entry has the colour of its slice. */
  lemma LegendMatchesSlices(stats: seq<CategoryStat>, name: string)
    requires name in Names(ChartData(stats))
    requires forall i, j :: 0 <= i < j < |ChartData(stats)| ==> ChartData(stats)[i].name != ChartData(stats)[j].name
    ensures forall i :: 0 <= i < |ChartData(stats)| && ChartData(stats)[i].name == name ==>
      Color(LastIndex(ChartData(stats), name)) == ChartData(stats)[i].fill
  {
    var d := ChartData(stats);
    var r := LastIndex(d, name);
    forall i | 0 <= i < |d| && d[i].name == name
      ensures Color(r) == d[i].fill
    {
      assert i == r;
    }
  }
}
