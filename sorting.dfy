/**
 * Python's `sorted(rows, key=...)` and `list.sort()` as used by the
 * loaders: a stable sort by a key.
 */
module Sorting {

  predicate SortedBy<T>(s: seq<T>, key: T -> real)
  {
    forall i, j :: 0 <= i < j < |s| ==> key(s[i]) <= key(s[j])
  }

  /** x inserted after every element whose key is not greater than its own. */
  function Insert<T>(s: seq<T>, x: T, key: T -> real): (r: seq<T>)
    requires SortedBy(s, key)
    ensures SortedBy(r, key)
    ensures multiset(r) == multiset(s) + multiset{x}
    ensures |r| == |s| + 1
  {
    if |s| == 0 then [x]
    else if key(s[|s| - 1]) <= key(x) then s + [x]
    else
      var init := s[..|s| - 1];
      var last := s[|s| - 1];
      assert s == init + [last];
      var r := Insert(init, x, key) + [last];
      assert forall i :: 0 <= i < |r| - 1 ==> r[i] in multiset(init) + multiset{x};
      assert forall i :: 0 <= i < |init| ==> key(init[i]) <= key(last);
      r
  }

  /** sorted(s, key=key). */
  function SortBy<T>(s: seq<T>, key: T -> real): (r: seq<T>)
    ensures SortedBy(r, key)
    ensures multiset(r) == multiset(s)
    ensures |r| == |s|
  {
    if |s| == 0 then []
    else
      assert s == s[..|s| - 1] + [s[|s| - 1]];
      Insert(SortBy(s[..|s| - 1], key), s[|s| - 1], key)
  }

  /**
   * bisect.bisect_left by halving [lo, hi): below(e) says that e sorts
   * before the searched value. Like Python's, it assumes nothing of s.
   */
  function BisectLeft<T>(s: seq<T>, below: T -> bool, lo: int, hi: int): (i: int)
    requires 0 <= lo <= hi <= |s|
    ensures lo <= i <= hi
    decreases hi - lo
  {
    if lo == hi then lo
    else
      var mid := (lo + hi) / 2;
      if below(s[mid]) then BisectLeft(s, below, mid + 1, hi) else BisectLeft(s, below, lo, mid)
  }

  /** below holds of a prefix of s and of nothing after it: what sortedness gives the search. */
  predicate Partitioned<T>(s: seq<T>, below: T -> bool)
  {
    forall i, j :: 0 <= i < j < |s| && below(s[j]) ==> below(s[i])
  }

  /** On a partitioned sequence the search returns the length of that prefix. */
  lemma {:induction false} BisectLeftSplits<T>(s: seq<T>, below: T -> bool, lo: int, hi: int)
    requires 0 <= lo <= hi <= |s| && Partitioned(s, below)
    requires forall k :: 0 <= k < lo ==> below(s[k])
    requires forall k :: hi <= k < |s| ==> !below(s[k])
    ensures var i := BisectLeft(s, below, lo, hi);
            (forall k :: 0 <= k < i ==> below(s[k])) && (forall k :: i <= k < |s| ==> !below(s[k]))
    decreases hi - lo
  {
    if lo < hi {
      var mid := (lo + hi) / 2;
      if below(s[mid]) {
        BisectLeftSplits(s, below, mid + 1, hi);
      } else {
        BisectLeftSplits(s, below, lo, mid);
      }
    }
  }

  /** The whole-sequence search. */
  function Bisect<T>(s: seq<T>, below: T -> bool): (i: int)
    ensures 0 <= i <= |s|
  {
    BisectLeft(s, below, 0, |s|)
  }

  lemma BisectSplits<T>(s: seq<T>, below: T -> bool)
    requires Partitioned(s, below)
    ensures forall k :: 0 <= k < Bisect(s, below) ==> below(s[k])
    ensures forall k :: Bisect(s, below) <= k < |s| ==> !below(s[k])
  {
    BisectLeftSplits(s, below, 0, |s|);
  }

  predicate SortedInts(s: seq<int>)
  {
    forall i, j :: 0 <= i < j < |s| ==> s[i] <= s[j]
  }

  /** all[:bisect_left(all, x)]: the entries before x. */
  function Earlier(s: seq<int>, x: int): (r: seq<int>)
    ensures |r| <= |s| && r == s[..|r|]
  {
    s[..Bisect(s, d => d < x)]
  }

  /** On a sorted list the prefix is exactly the entries smaller than x, in order. */
  lemma EarlierIsPrefix(s: seq<int>, x: int)
    requires SortedInts(s)
    ensures forall k :: 0 <= k < |Earlier(s, x)| ==> Earlier(s, x)[k] < x
    ensures forall k :: |Earlier(s, x)| <= k < |s| ==> s[k] >= x
  {
    var below := (d: int) => d < x;
    assert Partitioned(s, below);
    BisectSplits(s, below);
  }

  /** Whatever the order of s, the search stops at lo or just after an element below the value. */
  lemma {:induction false} BisectLeftStopsAfterBelow<T>(s: seq<T>, below: T -> bool, lo: int, hi: int)
    requires 0 <= lo <= hi <= |s|
    ensures var i := BisectLeft(s, below, lo, hi); i == lo || below(s[i - 1])
    decreases hi - lo
  {
    if lo < hi {
      var mid := (lo + hi) / 2;
      if below(s[mid]) {
        BisectLeftStopsAfterBelow(s, below, mid + 1, hi);
      } else {
        BisectLeftStopsAfterBelow(s, below, lo, mid);
      }
    }
  }

  /** Even on an unsorted list, a non-empty prefix the search keeps ends with an entry smaller than x. */
  lemma EarlierEndsBelow(s: seq<int>, x: int)
    ensures |Earlier(s, x)| > 0 ==> Earlier(s, x)[|Earlier(s, x)| - 1] < x
  {
    var below := (d: int) => d < x;
    BisectLeftStopsAfterBelow(s, below, 0, |s|);
  }

  function IntKey(d: int): real { d as real }

  /** list.sort() on a list of timestamps. */
  function SortInts(s: seq<int>): (r: seq<int>)
    ensures SortedInts(r) && multiset(r) == multiset(s) && |r| == |s|
  {
    var r := SortBy(s, IntKey);
    assert forall i, j :: 0 <= i < j < |r| ==> IntKey(r[i]) <= IntKey(r[j]);
    r
  }

  /** Every list of the map sorted in place, each keeping its elements. */
  function SortEach<K>(m: map<K, seq<int>>): (r: map<K, seq<int>>)
    ensures r.Keys == m.Keys
    ensures forall k :: k in r ==> SortedInts(r[k]) && multiset(r[k]) == multiset(m[k])
  {
    map k | k in m :: SortInts(m[k])
  }

  /** Sorting neither adds nor drops a value. */
  lemma SortIntsMembers(s: seq<int>)
    ensures forall d :: d in SortInts(s) <==> d in s
  {
    assert forall d :: d in s <==> d in multiset(s);
    assert forall d :: d in SortInts(s) <==> d in multiset(SortInts(s));
  }
}
