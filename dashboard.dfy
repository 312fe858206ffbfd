/** The figures the dashboard page derives from the account, transaction and
    budget lists: the summary statistics of the current month, the top five
    category totals, and the five most recent transactions. */
module Dashboard {
  import opened Wrappers
  import opened Domain
  import Sorting

  // ---------------------------------------------------------------- stats

  /** Sum of the balances, left to right (`accounts.reduce(..., 0)`). */
  function TotalBalance(accounts: seq<Account>): real
  {
    if accounts == [] then 0.0
    else TotalBalance(accounts[..|accounts| - 1]) + accounts[|accounts| - 1].balance
  }

  datatype Stats = Stats(
    totalBalance: real,
    totalIncome: real,
    totalExpenses: real,
    netSavings: real,
    savingsRate: real,
    accountCount: nat,
    transactionCount: nat,
    budgetCount: nat)

  /** The `stats` memo; `now` is the month of `new Date()`. */
  function ComputeStats(accounts: seq<Account>, ts: seq<Transaction>, budgets: seq<Budget>, now: YearMonth): (st: Stats)
    ensures st.totalBalance == TotalBalance(accounts)
    ensures st.totalIncome == MonthTotal(ts, Income, now) && st.totalExpenses == MonthTotal(ts, Expense, now)
    ensures st.netSavings == st.totalIncome - st.totalExpenses
    ensures st.totalIncome <= 0.0 ==> st.savingsRate == 0.0
    ensures st.totalIncome > 0.0 ==> st.savingsRate * st.totalIncome == st.netSavings * 100.0
    ensures st.accountCount == |accounts| && st.transactionCount == |ts| && st.budgetCount == |budgets|
  {
    var income := MonthTotal(ts, Income, now);
    var expenses := MonthTotal(ts, Expense, now);
    var net := income - expenses;
    Stats(TotalBalance(accounts), income, expenses, net,
          if income > 0.0 then (net / income) * 100.0 else 0.0,
          |accounts|, |ts|, |budgets|)
  }

  /** The balance total of two lists is the sum of their totals; with no
      accounts it is 0. */
  lemma {:induction false} TotalBalanceConcat(a: seq<Account>, b: seq<Account>)
    ensures TotalBalance(a + b) == TotalBalance(a) + TotalBalance(b)
    ensures TotalBalance([]) == 0.0
  {
    if b != [] {
      assert (a + b)[..|a + b| - 1] == a + b[..|b| - 1];
      TotalBalanceConcat(a, b[..|b| - 1]);
    } else {
      assert a + b == a;
    }
  }

  /** One more transaction changes the month's income only if it is an INCOME
      dated in the month, and its expenses only if it is an EXPENSE dated in the
      month; a TRANSFER or a transaction of another month changes neither. */
  lemma StatsAfterOneMore(accounts: seq<Account>, ts: seq<Transaction>, budgets: seq<Budget>, now: YearMonth, t: Transaction)
    ensures ComputeStats(accounts, ts + [t], budgets, now).totalIncome ==
      ComputeStats(accounts, ts, budgets, now).totalIncome +
        (if t.txType == Income && MonthOf(t.transactionDate) == now then t.amount else 0.0)
    ensures ComputeStats(accounts, ts + [t], budgets, now).totalExpenses ==
      ComputeStats(accounts, ts, budgets, now).totalExpenses +
        (if t.txType == Expense && MonthOf(t.transactionDate) == now then t.amount else 0.0)
  {
    MonthTotalConcat(ts, [t], Income, now);
    MonthTotalConcat(ts, [t], Expense, now);
    assert [t][..0] == [];
  }

  // ------------------------------------------------------ category breakdown

  /** The map key `${category.id}-${type}`; the text is injective in the pair. */
  datatype GroupKey = GroupKey(categoryId: int, txType: TxType)

  datatype CategoryStat = CategoryStat(name: string, amount: real, count: nat, txType: TxType)

  /** One entry of the insertion-ordered map: its key and its value. */
  datatype Group = Group(key: GroupKey, stat: CategoryStat)

  function KeyOf(t: Transaction): Option<GroupKey>
  {
    if t.category.None? then None else Some(GroupKey(t.category.value.id, t.txType))
  }

  /** Sum of the amounts of the transactions with key `k`. */
  function SumForKey(ts: seq<Transaction>, k: GroupKey): real
  {
    if ts == [] then 0.0
    else SumForKey(ts[..|ts| - 1], k) + (if KeyOf(ts[|ts| - 1]) == Some(k) then ts[|ts| - 1].amount else 0.0)
  }

  /** Number of transactions with key `k`. */
  function CountForKey(ts: seq<Transaction>, k: GroupKey): nat
  {
    if ts == [] then 0
    else CountForKey(ts[..|ts| - 1], k) + (if KeyOf(ts[|ts| - 1]) == Some(k) then 1 else 0)
  }

  /** The category name of the earliest transaction with key `k` ("" if none). */
  function FirstName(ts: seq<Transaction>, k: GroupKey): string
  {
    if ts == [] then ""
    else if CountForKey(ts[..|ts| - 1], k) > 0 then FirstName(ts[..|ts| - 1], k)
    else if KeyOf(ts[|ts| - 1]) == Some(k) then ts[|ts| - 1].category.value.name
    else ""
  }

  /** What the map holds for key `k` once every transaction has been seen. */
  function StatFor(ts: seq<Transaction>, k: GroupKey): CategoryStat
  {
    CategoryStat(FirstName(ts, k), SumForKey(ts, k), CountForKey(ts, k), k.txType)
  }

  /** The position of key `k` in the map's entries, or -1 (`categoryMap.get`). */
  function IndexOfKey(groups: seq<Group>, k: GroupKey): (i: int)
    ensures -1 <= i < |groups|
    ensures 0 <= i ==> groups[i].key == k && forall j :: 0 <= j < i ==> groups[j].key != k
    ensures i == -1 ==> forall j :: 0 <= j < |groups| ==> groups[j].key != k
  {
    if groups == [] then -1
    else if groups[0].key == k then 0
    else
      var i := IndexOfKey(groups[1..], k);
      if i == -1 then -1 else i + 1
  }

  /** One step of the `forEach`: skip a transaction without a category, bump an
      existing entry, or append a new one. */
  function AddToGroups(groups: seq<Group>, t: Transaction): seq<Group>
  {
    match KeyOf(t)
    case None => groups
    case Some(k) =>
      var i := IndexOfKey(groups, k);
      if 0 <= i then
        var s := groups[i].stat;
        groups[i := Group(k, s.(amount := s.amount + t.amount, count := s.count + 1))]
      else
        groups + [Group(k, CategoryStat(t.category.value.name, t.amount, 1, t.txType))]
  }

  /** The map's entries, in insertion order, after the whole `forEach`. */
  function Grouped(ts: seq<Transaction>): seq<Group>
  {
    if ts == [] then [] else AddToGroups(Grouped(ts[..|ts| - 1]), ts[|ts| - 1])
  }

  /** The map summarises `ts`: one entry per key that occurs, none for a key
      that does not, and each entry holds that key's name, total and count. */
  ghost predicate Summarises(groups: seq<Group>, ts: seq<Transaction>)
  {
    && (forall i, j :: 0 <= i < j < |groups| ==> groups[i].key != groups[j].key)
    && (forall i :: 0 <= i < |groups| ==> CountForKey(ts, groups[i].key) > 0 && groups[i].stat == StatFor(ts, groups[i].key))
    && (forall k :: CountForKey(ts, k) > 0 ==> exists i :: 0 <= i < |groups| && groups[i].key == k)
  }

  lemma {:induction false} GroupedSummarises(ts: seq<Transaction>)
    ensures Summarises(Grouped(ts), ts)
  {
    if ts != [] {
      var init, t := ts[..|ts| - 1], ts[|ts| - 1];
      assert ts == init + [t];
      GroupedSummarises(init);
      AddPreservesSummary(Grouped(init), init, t);
    }
  }

  /** Appending `t` changes nothing recorded for a key other than its own. */
  lemma OtherKeysUnchanged(init: seq<Transaction>, t: Transaction, k: GroupKey)
    requires KeyOf(t) != Some(k)
    ensures CountForKey(init + [t], k) == CountForKey(init, k)
    ensures StatFor(init + [t], k) == StatFor(init, k)
  {
    assert (init + [t])[..|init|] == init;
  }

  /** The `forEach` step keeps the map a summary of the transactions seen. */
  lemma AddPreservesSummary(g: seq<Group>, init: seq<Transaction>, t: Transaction)
    requires Summarises(g, init)
    ensures Summarises(AddToGroups(g, t), init + [t])
  {
    var ts := init + [t];
    assert ts[..|ts| - 1] == init;
    forall k | KeyOf(t) != Some(k)
      ensures CountForKey(ts, k) == CountForKey(init, k) && StatFor(ts, k) == StatFor(init, k)
    {
      OtherKeysUnchanged(init, t, k);
    }
    if KeyOf(t).Some? {
      var kt := KeyOf(t).value;
      if 0 <= IndexOfKey(g, kt) {
        BumpPreservesSummary(g, init, t);
      } else {
        AppendPreservesSummary(g, init, t);
      }
    }
  }

  lemma BumpPreservesSummary(g: seq<Group>, init: seq<Transaction>, t: Transaction)
    requires Summarises(g, init)
    requires KeyOf(t).Some? && 0 <= IndexOfKey(g, KeyOf(t).value)
    requires forall k :: KeyOf(t) != Some(k) ==>
      CountForKey(init + [t], k) == CountForKey(init, k) && StatFor(init + [t], k) == StatFor(init, k)
    ensures Summarises(AddToGroups(g, t), init + [t])
  {
    var ts := init + [t];
    assert ts[..|ts| - 1] == init;
    var kt := KeyOf(t).value;
    var i := IndexOfKey(g, kt);
    var r := AddToGroups(g, t);
    assert CountForKey(init, kt) > 0;
    assert r[i].stat == StatFor(ts, kt);
    assert forall j :: 0 <= j < |r| ==> r[j].key == g[j].key;
    forall j | 0 <= j < |r| ensures CountForKey(ts, r[j].key) > 0 && r[j].stat == StatFor(ts, r[j].key) {
      if j != i {
        assert r[j] == g[j];
      }
    }
  }

  lemma AppendPreservesSummary(g: seq<Group>, init: seq<Transaction>, t: Transaction)
    requires Summarises(g, init)
    requires KeyOf(t).Some? && IndexOfKey(g, KeyOf(t).value) == -1
    requires forall k :: KeyOf(t) != Some(k) ==>
      CountForKey(init + [t], k) == CountForKey(init, k) && StatFor(init + [t], k) == StatFor(init, k)
    ensures Summarises(AddToGroups(g, t), init + [t])
  {
    var ts := init + [t];
    assert ts[..|ts| - 1] == init;
    var kt := KeyOf(t).value;
    var r := AddToGroups(g, t);
    assert CountForKey(init, kt) == 0;
    NoCountNoSum(init, kt);
    assert r == g + [r[|g|]];
    assert r[|g|].stat == StatFor(ts, kt);
    forall k | CountForKey(ts, k) > 0 ensures exists j :: 0 <= j < |r| && r[j].key == k {
      if k == kt {
        assert r[|g|].key == k;
      } else {
        var j :| 0 <= j < |g| && g[j].key == k;
        assert r[j].key == k;
      }
    }
  }

  lemma {:induction false} NoCountNoSum(ts: seq<Transaction>, k: GroupKey)
    requires CountForKey(ts, k) == 0
    ensures SumForKey(ts, k) == 0.0
  {
    if ts != [] {
      NoCountNoSum(ts[..|ts| - 1], k);
    }
  }

  /** `categoryMap.get(key)`: the first entry with key `k`, or -1. */
  method FindGroup(groups: seq<Group>, k: GroupKey) returns (j: int)
    ensures j == IndexOfKey(groups, k)
  {
    j := 0;
    while j < |groups| && groups[j].key != k
      invariant 0 <= j <= |groups|
      invariant forall i :: 0 <= i < j ==> groups[i].key != k
    {
      j := j + 1;
    }
    if j == |groups| {
      j := -1;
    }
  }

  function StatsOf(groups: seq<Group>): (r: seq<CategoryStat>)
    ensures |r| == |groups| && forall i :: 0 <= i < |groups| ==> r[i] == groups[i].stat
  {
    seq(|groups|, i requires 0 <= i < |groups| => groups[i].stat)
  }

  function AmountOf(s: CategoryStat): real
  {
    s.amount
  }

  /** `Array.from(categoryMap.values()).sort(by amount, descending).slice(0, 5)`. */
  function CategoryBreakdown(ts: seq<Transaction>): seq<CategoryStat>
  {
    Sorting.TopByKey(StatsOf(Grouped(ts)), 5, AmountOf)
  }

  /** The `categoryStats` memo: a `forEach` that updates the map's entries in
      place, then the sort and the slice. */
  method CategoryStats(ts: seq<Transaction>) returns (top: seq<CategoryStat>)
    ensures top == CategoryBreakdown(ts)
  {
    var groups: seq<Group> := [];
    var n := 0;
    while n < |ts|
      invariant 0 <= n <= |ts|
      invariant groups == Grouped(ts[..n])
    {
      var t := ts[n];
      assert ts[..n + 1][..n] == ts[..n];
      if t.category.Some? {
        var k := GroupKey(t.category.value.id, t.txType);
        var j := FindGroup(groups, k);
        if 0 <= j {
          var existing := groups[j].stat;
          groups := groups[j := Group(k, existing.(amount := existing.amount + t.amount, count := existing.count + 1))];
        } else {
          groups := groups + [Group(k, CategoryStat(t.category.value.name, t.amount, 1, t.txType))];
        }
      }
      n := n + 1;
    }
    assert ts[..|ts|] == ts;
    top := Sorting.TopByKey(StatsOf(groups), 5, AmountOf);
  }

  /** Every entry of the breakdown is the full summary of a key that occurs. */
  lemma BreakdownEntries(ts: seq<Transaction>, s: CategoryStat)
    requires s in CategoryBreakdown(ts)
    ensures exists k :: CountForKey(ts, k) > 0 && s == StatFor(ts, k)
  {
    var groups := Grouped(ts);
    var all := StatsOf(groups);
    GroupedSummarises(ts);
    Sorting.TopByKeyProperties(all, 5, AmountOf);
    assert s in multiset(CategoryBreakdown(ts));
    assert s in multiset(all);
    var i :| 0 <= i < |all| && all[i] == s;
    assert CountForKey(ts, groups[i].key) > 0 && s == StatFor(ts, groups[i].key);
  }

  /** A key that occurs but whose summary is not in the breakdown has a total no
      larger than any entry that is. */
  lemma BreakdownDropsOnlySmaller(ts: seq<Transaction>, s: CategoryStat, k: GroupKey)
    requires s in CategoryBreakdown(ts)
    requires CountForKey(ts, k) > 0 && StatFor(ts, k) !in CategoryBreakdown(ts)
    ensures s.amount >= SumForKey(ts, k)
  {
    var groups := Grouped(ts);
    var all := StatsOf(groups);
    var top := CategoryBreakdown(ts);
    GroupedSummarises(ts);
    Sorting.TopByKeyProperties(all, 5, AmountOf);
    var i :| 0 <= i < |groups| && groups[i].key == k;
    var y := all[i];
    assert y == StatFor(ts, k);
    assert y in multiset(all);
    assert y !in multiset(top);
    assert y in multiset(all) - multiset(top);
    assert AmountOf(s) >= AmountOf(y);
  }

  /** The breakdown has at most five entries (fewer only when fewer keys occur),
      sorted by non-increasing amount. */
  lemma BreakdownShape(ts: seq<Transaction>)
    ensures |CategoryBreakdown(ts)| == Sorting.Min(5, |Grouped(ts)|) <= 5
    ensures Sorting.NonIncreasing(CategoryBreakdown(ts), AmountOf)
  {
    Sorting.TopByKeyProperties(StatsOf(Grouped(ts)), 5, AmountOf);
  }

  /** Two transactions of the same category and the same type share one entry;
      the same category with different types gives two entries. */
  lemma SameKeyMerges(ts: seq<Transaction>, a: nat, b: nat)
    requires a < |ts| && b < |ts| && ts[a].category.Some? && ts[b].category.Some?
    requires ts[a].category.value.id == ts[b].category.value.id
    ensures ts[a].txType == ts[b].txType ==>
      exists i :: 0 <= i < |Grouped(ts)| && Grouped(ts)[i].key == KeyOf(ts[a]).value == KeyOf(ts[b]).value
    ensures ts[a].txType != ts[b].txType ==>
      exists i, j :: 0 <= i < |Grouped(ts)| && 0 <= j < |Grouped(ts)| && i != j &&
        Grouped(ts)[i].key == KeyOf(ts[a]).value && Grouped(ts)[j].key == KeyOf(ts[b]).value
  {
    GroupedSummarises(ts);
    CountPositive(ts, a);
    CountPositive(ts, b);
  }

  lemma {:induction false} CountPositive(ts: seq<Transaction>, a: nat)
    requires a < |ts| && ts[a].category.Some?
    ensures CountForKey(ts, KeyOf(ts[a]).value) > 0
  {
    if a < |ts| - 1 {
      assert ts[..|ts| - 1][a] == ts[a];
      CountPositive(ts[..|ts| - 1], a);
    }
  }

  lemma {:induction false} CountZero(ts: seq<Transaction>, k: GroupKey)
    requires forall j :: 0 <= j < |ts| ==> KeyOf(ts[j]) != Some(k)
    ensures CountForKey(ts, k) == 0
  {
    if ts != [] {
      CountZero(ts[..|ts| - 1], k);
    }
  }

  /** An entry's name is the category name of the earliest transaction with its
      key: later transactions with the same key only add to amount and count. */
  lemma {:induction false} FirstNameIsEarliest(ts: seq<Transaction>, k: GroupKey, i: nat)
    requires i < |ts| && KeyOf(ts[i]) == Some(k)
    requires forall j :: 0 <= j < i ==> KeyOf(ts[j]) != Some(k)
    ensures FirstName(ts, k) == ts[i].category.value.name
  {
    var init := ts[..|ts| - 1];
    if i < |ts| - 1 {
      assert init[i] == ts[i];
      CountPositive(init, i);
      FirstNameIsEarliest(init, k, i);
    } else {
      CountZero(init, k);
    }
  }

  // --------------------------------------------------- recent transactions

  function DateKey(t: Transaction): real
  {
    DayOrdinal(t.transactionDate) as real
  }

  /** `[...transactions].sort(newest first).slice(0, 5)`. */
  function RecentTransactions(ts: seq<Transaction>): seq<Transaction>
  {
    Sorting.TopByKey(ts, 5, DateKey)
  }

  /** At most five transactions, taken from the list, newest first, and none of
      the transactions left out is newer than one that is shown. */
  lemma RecentProperties(ts: seq<Transaction>)
    ensures |RecentTransactions(ts)| == Sorting.Min(5, |ts|)
    ensures multiset(RecentTransactions(ts)) <= multiset(ts)
    ensures Sorting.NonIncreasing(RecentTransactions(ts), DateKey)
    ensures forall x, y :: x in RecentTransactions(ts) && y in multiset(ts) - multiset(RecentTransactions(ts))
              ==> DateKey(x) >= DateKey(y)
  {
    Sorting.TopByKeyProperties(ts, 5, DateKey);
  }
}
