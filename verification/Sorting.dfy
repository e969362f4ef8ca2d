/** Sorting and order statistics over any total order: what sort.Slice leaves in a
    slice, and how the k-th smallest and k-th largest element count the rest. */
module Sorting {

  ghost predicate TotalOrder<T(!new)>(le: (T, T) -> bool) {
    && (forall a, b :: le(a, b) || le(b, a))
    && (forall a, b, c :: le(a, b) && le(b, c) ==> le(a, c))
  }

  ghost predicate Ascending<T>(s: seq<T>, le: (T, T) -> bool) { forall i, j :: 0 <= i <= j < |s| ==> le(s[i], s[j]) }

  function Insert<T>(x: T, s: seq<T>, le: (T, T) -> bool): (r: seq<T>)
    ensures |r| == |s| + 1
    ensures multiset(r) == multiset(s) + multiset{x}
  {
    if s == [] then [x]
    else
      var n := |s| - 1;
      assert s == s[..n] + [s[n]];
      if le(s[n], x) then s + [x] else Insert(x, s[..n], le) + [s[n]]
  }

  /** The sorted list; it holds the same elements. */
  function Sorted<T>(s: seq<T>, le: (T, T) -> bool): (r: seq<T>)
    ensures |r| == |s|
    ensures multiset(r) == multiset(s)
  {
    if s == [] then []
    else
      assert s == s[..|s| - 1] + [s[|s| - 1]];
      Insert(s[|s| - 1], Sorted(s[..|s| - 1], le), le)
  }

  lemma AppendKeepsOrder<T>(s: seq<T>, y: T, le: (T, T) -> bool)
    requires Ascending(s, le) && le(y, y) && forall i :: 0 <= i < |s| ==> le(s[i], y)
    ensures Ascending(s + [y], le)
  {
  }

  lemma BelowLast<T(!new)>(s: seq<T>, y: T, le: (T, T) -> bool)
    requires TotalOrder(le) && Ascending(s, le) && s != [] && le(s[|s| - 1], y)
    ensures forall i :: 0 <= i < |s| ==> le(s[i], y)
  {
    forall i | 0 <= i < |s|
      ensures le(s[i], y)
    {
      assert le(s[i], s[|s| - 1]);
    }
  }

  lemma {:induction false} InsertKeepsOrder<T(!new)>(x: T, s: seq<T>, le: (T, T) -> bool)
    requires TotalOrder(le) && Ascending(s, le)
    ensures Ascending(Insert(x, s, le), le)
  {
    assert le(x, x);
    if s == [] {
    } else if le(s[|s| - 1], x) {
      BelowLast(s, x, le);
      AppendKeepsOrder(s, x, le);
    } else {
      var shorter, last := s[..|s| - 1], s[|s| - 1];
      InsertKeepsOrder(x, shorter, le);
      InsertBelow(x, s, le, Insert(x, shorter, le));
      AppendKeepsOrder(Insert(x, shorter, le), last, le);
    }
  }

  lemma InsertBelow<T(!new)>(x: T, s: seq<T>, le: (T, T) -> bool, t: seq<T>)
    requires TotalOrder(le) && Ascending(s, le) && s != [] && !le(s[|s| - 1], x) && t == Insert(x, s[..|s| - 1], le)
    ensures le(s[|s| - 1], s[|s| - 1]) && forall i :: 0 <= i < |t| ==> le(t[i], s[|s| - 1])
  {
    forall i | 0 <= i < |t|
      ensures le(t[i], s[|s| - 1])
    {
      InsertedFrom(x, s[..|s| - 1], le, i);
    }
  }

  lemma InsertedFrom<T>(x: T, s: seq<T>, le: (T, T) -> bool, i: nat)
    requires i < |Insert(x, s, le)|
    ensures Insert(x, s, le)[i] == x || Insert(x, s, le)[i] in s
  {
    assert Insert(x, s, le)[i] in multiset(Insert(x, s, le));
  }

  /** Sorting sorts. */
  lemma {:induction false} SortedAscends<T(!new)>(s: seq<T>, le: (T, T) -> bool)
    requires TotalOrder(le)
    ensures Ascending(Sorted(s, le), le)
  {
    if s != [] {
      SortedAscends(s[..|s| - 1], le);
      InsertKeepsOrder(s[|s| - 1], Sorted(s[..|s| - 1], le), le);
    }
  }

  predicate Side<T>(y: T, x: T, le: (T, T) -> bool, below: bool) { if below then le(y, x) else le(x, y) }

  /** How many elements are at most x (below) or at least x. */
  function Count<T>(s: seq<T>, x: T, le: (T, T) -> bool, below: bool): (c: nat)
    ensures c <= |s|
  {
    if s == [] then 0 else Count(s[..|s| - 1], x, le, below) + if Side(s[|s| - 1], x, le, below) then 1 else 0
  }

  lemma CountAppend<T>(s: seq<T>, y: T, x: T, le: (T, T) -> bool, below: bool)
    ensures Count(s + [y], x, le, below) == Count(s, x, le, below) + if Side(y, x, le, below) then 1 else 0
  {
    assert (s + [y])[..|s|] == s;
  }

  lemma {:induction false} CountInsert<T>(y: T, s: seq<T>, x: T, le: (T, T) -> bool, below: bool)
    ensures Count(Insert(y, s, le), x, le, below) == Count(s, x, le, below) + if Side(y, x, le, below) then 1 else 0
  {
    if s == [] {
      CountAppend([], y, x, le, below);
      assert [y] == [] + [y];
    } else {
      var n := |s| - 1;
      if le(s[n], y) {
        CountAppend(s, y, x, le, below);
      } else {
        CountInsert(y, s[..n], x, le, below);
        CountAppend(Insert(y, s[..n], le), s[n], x, le, below);
      }
    }
  }

  /** Sorting keeps every such count. */
  lemma {:induction false} CountSorted<T>(s: seq<T>, x: T, le: (T, T) -> bool, below: bool)
    ensures Count(Sorted(s, le), x, le, below) == Count(s, x, le, below)
  {
    if s != [] {
      var n := |s| - 1;
      CountSorted(s[..n], x, le, below);
      CountInsert(s[n], Sorted(s[..n], le), x, le, below);
    }
  }

  lemma {:induction false} CountAll<T>(s: seq<T>, x: T, le: (T, T) -> bool, below: bool)
    ensures Count(s, x, le, below) == |s| <==> forall i :: 0 <= i < |s| ==> Side(s[i], x, le, below)
  {
    if s != [] {
      var n := |s| - 1;
      CountAll(s[..n], x, le, below);
      assert forall i :: 0 <= i < n ==> s[..n][i] == s[i];
    }
  }

  /** In a sorted list the k-th smallest is at most x exactly when k elements are. */
  lemma {:induction false} RankBelow<T(!new)>(s: seq<T>, x: T, le: (T, T) -> bool, k: nat)
    requires TotalOrder(le) && Ascending(s, le) && 1 <= k <= |s|
    ensures le(s[k - 1], x) <==> Count(s, x, le, true) >= k
  {
    var n := |s| - 1;
    if le(s[n], x) {
      CountAll(s, x, le, true);
    } else if k <= n {
      RankBelow(s[..n], x, le, k);
    }
  }

  lemma {:induction false} NoneAbove<T(!new)>(s: seq<T>, x: T, le: (T, T) -> bool)
    requires TotalOrder(le) && Ascending(s, le) && s != [] && !le(x, s[|s| - 1])
    ensures Count(s, x, le, false) == 0
  {
    var n := |s| - 1;
    if n > 0 {
      assert le(s[n - 1], s[n]);
      NoneAbove(s[..n], x, le);
    } else {
      assert s[..0] == [];
    }
  }

  /** And the k-th largest is at least x exactly when k elements are. */
  lemma {:induction false} RankAbove<T(!new)>(s: seq<T>, x: T, le: (T, T) -> bool, k: nat)
    requires TotalOrder(le) && Ascending(s, le) && 1 <= k <= |s|
    ensures le(x, s[|s| - k]) <==> Count(s, x, le, false) >= k
  {
    var n := |s| - 1;
    if le(x, s[n]) {
      if k > 1 {
        RankAbove(s[..n], x, le, k - 1);
      }
    } else {
      NoneAbove(s, x, le);
      assert le(s[|s| - k], s[n]);
    }
  }

  /** The ranks, read on the unsorted list. */
  lemma RanksOnUnsorted<T(!new)>(s: seq<T>, x: T, le: (T, T) -> bool, k: nat)
    requires TotalOrder(le) && 1 <= k <= |s|
    ensures le(Sorted(s, le)[k - 1], x) <==> Count(s, x, le, true) >= k
    ensures le(x, Sorted(s, le)[|s| - k]) <==> Count(s, x, le, false) >= k
  {
    SortedAscends(s, le);
    CountSorted(s, x, le, true);
    CountSorted(s, x, le, false);
    RankBelow(Sorted(s, le), x, le, k);
    RankAbove(Sorted(s, le), x, le, k);
  }

  /** Which elements are above x. */
  function Above<T>(s: seq<T>, x: T, le: (T, T) -> bool): (p: seq<bool>)
    ensures |p| == |s|
    ensures forall i :: 0 <= i < |s| ==> p[i] == !le(s[i], x)
  {
    if s == [] then [] else Above(s[..|s| - 1], x, le) + [!le(s[|s| - 1], x)]
  }
}
