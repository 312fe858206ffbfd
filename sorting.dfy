/** `Array.prototype.sort` with a comparator `(a, b) => key(b) - key(a)`: a
    stable sort into non-increasing key order, written as insertion sort. */
module Sorting {

  predicate NonIncreasing<T>(s: seq<T>, key: T -> real)
  {
    forall i, j :: 0 <= i < j < |s| ==> key(s[i]) >= key(s[j])
  }

  /** Puts `x` in front of the first element whose key is not above its own, so
      that `x` stays ahead of elements with an equal key. */
  function Insert<T>(x: T, s: seq<T>, key: T -> real): (r: seq<T>)
    ensures multiset(r) == multiset(s) + multiset{x}
  {
    if s == [] || key(s[0]) <= key(x) then
      [x] + s
    else
      assert s == [s[0]] + s[1..];
      [s[0]] + Insert(x, s[1..], key)
  }

  lemma {:induction false} InsertMembers<T>(x: T, s: seq<T>, key: T -> real, y: T)
    ensures y in Insert(x, s, key) <==> y == x || y in s
  {
    assert y in Insert(x, s, key) <==> y in multiset(Insert(x, s, key));
    assert y in s <==> y in multiset(s);
  }

  lemma {:induction false} InsertSorted<T>(x: T, s: seq<T>, key: T -> real)
    requires NonIncreasing(s, key)
    ensures NonIncreasing(Insert(x, s, key), key)
  {
    if s != [] && key(s[0]) > key(x) {
      var tail := Insert(x, s[1..], key);
      InsertSorted(x, s[1..], key);
      var r := [s[0]] + tail;
      assert Insert(x, s, key) == r;
      forall j | 0 <= j < |tail| ensures key(s[0]) >= key(tail[j]) {
        InsertMembers(x, s[1..], key, tail[j]);
      }
      forall i, j | 0 <= i < j < |r| ensures key(r[i]) >= key(r[j]) {
        if i > 0 {
          assert r[i] == tail[i - 1] && r[j] == tail[j - 1];
        }
      }
    }
  }

  /** The stable descending sort. */
  function SortDesc<T>(s: seq<T>, key: T -> real): (r: seq<T>)
    ensures multiset(r) == multiset(s)
    ensures |r| == |s|
  {
    if s == [] then []
    else
      assert s == [s[0]] + s[1..];
      var r := Insert(s[0], SortDesc(s[1..], key), key);
      assert |r| == |multiset(r)| == |multiset(s)|;
      r
  }

  lemma {:induction false} SortDescProperties<T>(s: seq<T>, key: T -> real)
    ensures NonIncreasing(SortDesc(s, key), key)
  {
    if s != [] {
      SortDescProperties(s[1..], key);
      InsertSorted(s[0], SortDesc(s[1..], key), key);
    }
  }

  function Min(a: int, b: int): int
  {
    if a < b then a else b
  }

  /** The first `k` elements of the descending sort (`.sort(...).slice(0, k)`). */
  function TopByKey<T>(s: seq<T>, k: nat, key: T -> real): (r: seq<T>)
  {
    SortDesc(s, key)[..Min(k, |s|)]
  }

  /** In a non-increasing sequence, everything in front of position `n` has a
      key at least as large as everything from `n` on. */
  lemma {:induction false} SplitOrdered<T>(sorted: seq<T>, n: nat, key: T -> real, x: T, y: T)
    requires NonIncreasing(sorted, key) && n <= |sorted|
    requires x in sorted[..n] && y in sorted[n..]
    ensures key(x) >= key(y)
  {
    var i :| 0 <= i < n && sorted[..n][i] == x;
    var j :| 0 <= j < |sorted| - n && sorted[n..][j] == y;
    assert sorted[i] == x && sorted[n + j] == y;
  }

  lemma {:induction false} PrefixOrdered<T>(sorted: seq<T>, n: nat, key: T -> real)
    requires NonIncreasing(sorted, key) && n <= |sorted|
    ensures NonIncreasing(sorted[..n], key)
  {
    var top := sorted[..n];
    forall i, j | 0 <= i < j < |top| ensures key(top[i]) >= key(top[j]) {
      assert top[i] == sorted[i] && top[j] == sorted[j];
    }
  }

  /** `.sort(...).slice(0, k)` keeps `min(k, |s|)` elements of the input, in
      non-increasing key order, and no element it drops has a larger key than
      an element it keeps. */
  lemma {:induction false} TopByKeyProperties<T>(s: seq<T>, k: nat, key: T -> real)
    ensures |TopByKey(s, k, key)| == Min(k, |s|)
    ensures multiset(TopByKey(s, k, key)) <= multiset(s)
    ensures NonIncreasing(TopByKey(s, k, key), key)
    ensures forall x, y :: x in TopByKey(s, k, key) && y in multiset(s) - multiset(TopByKey(s, k, key))
              ==> key(x) >= key(y)
  {
    var sorted := SortDesc(s, key);
    SortDescProperties(s, key);
    var n := Min(k, |s|);
    var top, rest := sorted[..n], sorted[n..];
    assert TopByKey(s, k, key) == top;
    PrefixOrdered(sorted, n, key);
    assert sorted == top + rest;
    assert multiset(s) - multiset(top) == multiset(rest) by {
      assert multiset(sorted) == multiset(top) + multiset(rest);
    }
    forall x, y | x in top && y in multiset(s) - multiset(top) ensures key(x) >= key(y) {
      assert y in rest;
      SplitOrdered(sorted, n, key, x, y);
    }
  }
}
