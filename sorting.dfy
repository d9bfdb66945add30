/**
 * The stable sort that `Array.prototype.sort` performs with a comparator of
 * the form `(a, b) => rank(b) - rank(a)`: elements end up in non-increasing
 * order of `rank`, and elements of equal rank keep their input order.
 */
module Sorting {

  /** `s` is in non-increasing order of `rank`. */
  ghost predicate NonIncreasing<T>(s: seq<T>, rank: T -> real) {
    forall i, j :: 0 <= i < j < |s| ==> rank(s[i]) >= rank(s[j])
  }

  /** Insert `x` before the first element that does not outrank it. */
  function Insert<T>(x: T, s: seq<T>, rank: T -> real): (r: seq<T>)
    ensures |r| == |s| + 1
  {
    if s == [] || rank(x) >= rank(s[0]) then [x] + s
    else
      assert s == [s[0]] + s[1..];
      [s[0]] + Insert(x, s[1..], rank)
  }

  /** Insertion sort, non-increasing in `rank`, stable. */
  function SortDesc<T>(s: seq<T>, rank: T -> real): (r: seq<T>)
    ensures |r| == |s|
  {
    if s == [] then []
    else
      assert s == [s[0]] + s[1..];
      Insert(s[0], SortDesc(s[1..], rank), rank)
  }

  /** Inserting adds exactly `x`. */
  lemma {:induction false} InsertPermutes<T>(x: T, s: seq<T>, rank: T -> real)
    ensures multiset(Insert(x, s, rank)) == multiset(s) + multiset{x}
  {
    if s != [] && rank(x) < rank(s[0]) {
      InsertPermutes(x, s[1..], rank);
      assert s == [s[0]] + s[1..];
    }
  }

  /** Sorting permutes. */
  lemma {:induction false} SortDescPermutes<T>(s: seq<T>, rank: T -> real)
    ensures multiset(SortDesc(s, rank)) == multiset(s)
  {
    if s != [] {
      SortDescPermutes(s[1..], rank);
      InsertPermutes(s[0], SortDesc(s[1..], rank), rank);
      assert s == [s[0]] + s[1..];
    }
  }

  /** The elements of `s` whose rank is exactly `k`, in their order in `s`. */
  function WithRank<T>(s: seq<T>, rank: T -> real, k: real): seq<T> {
    if s == [] then []
    else (if rank(s[0]) == k then [s[0]] else []) + WithRank(s[1..], rank, k)
  }

  lemma {:induction false} InsertKeepsOrder<T>(x: T, s: seq<T>, rank: T -> real)
    requires NonIncreasing(s, rank)
    ensures NonIncreasing(Insert(x, s, rank), rank)
  {
    if s == [] || rank(x) >= rank(s[0]) {
    } else {
      var t := Insert(x, s[1..], rank);
      InsertKeepsOrder(x, s[1..], rank);
      InsertPermutes(x, s[1..], rank);
      forall k | 0 <= k < |t| ensures rank(s[0]) >= rank(t[k]) {
        assert t[k] in multiset(t);
        assert t[k] == x || t[k] in multiset(s[1..]);
        if t[k] != x {
          var m :| 0 <= m < |s[1..]| && s[1..][m] == t[k];
          assert s[m + 1] == t[k];
        }
      }
      assert Insert(x, s, rank) == [s[0]] + t;
    }
  }

  /** The result of `SortDesc` is ordered. */
  lemma {:induction false} SortDescOrdered<T>(s: seq<T>, rank: T -> real)
    ensures NonIncreasing(SortDesc(s, rank), rank)
  {
    if s != [] {
      SortDescOrdered(s[1..], rank);
      InsertKeepsOrder(s[0], SortDesc(s[1..], rank), rank);
    }
  }

  lemma {:induction false} WithRankAppend<T>(a: seq<T>, b: seq<T>, rank: T -> real, k: real)
    ensures WithRank(a + b, rank, k) == WithRank(a, rank, k) + WithRank(b, rank, k)
  {
    if a == [] {
      assert a + b == b;
    } else {
      assert (a + b)[1..] == a[1..] + b;
      WithRankAppend(a[1..], b, rank, k);
    }
  }

  lemma {:induction false} InsertWithRank<T>(x: T, s: seq<T>, rank: T -> real, k: real)
    ensures WithRank(Insert(x, s, rank), rank, k)
         == (if rank(x) == k then [x] else []) + WithRank(s, rank, k)
  {
    if s == [] || rank(x) >= rank(s[0]) {
      WithRankAppend([x], s, rank, k);
      assert WithRank([x], rank, k) == (if rank(x) == k then [x] else []) + WithRank([], rank, k);
    } else {
      InsertWithRank(x, s[1..], rank, k);
      WithRankAppend([s[0]], Insert(x, s[1..], rank), rank, k);
      assert WithRank([s[0]], rank, k) == (if rank(s[0]) == k then [s[0]] else []) + WithRank([], rank, k);
    }
  }

  /** Stability: elements of equal rank leave the sort in the order they entered it. */
  lemma {:induction false} SortDescStable<T>(s: seq<T>, rank: T -> real, k: real)
    ensures WithRank(SortDesc(s, rank), rank, k) == WithRank(s, rank, k)
  {
    if s != [] {
      SortDescStable(s[1..], rank, k);
      InsertWithRank(s[0], SortDesc(s[1..], rank), rank, k);
    }
  }

  /** Everything `SortDesc` promises, in one place: ordered, a permutation, stable. */
  lemma SortDescSorts<T>(s: seq<T>, rank: T -> real)
    ensures NonIncreasing(SortDesc(s, rank), rank)
    ensures multiset(SortDesc(s, rank)) == multiset(s)
    ensures forall x {:trigger x in SortDesc(s, rank)} :: x in SortDesc(s, rank) <==> x in s
    ensures forall k :: WithRank(SortDesc(s, rank), rank, k) == WithRank(s, rank, k)
  {
    SortDescOrdered(s, rank);
    SortDescPermutes(s, rank);
    forall x ensures x in SortDesc(s, rank) <==> x in s {
      assert x in SortDesc(s, rank) <==> x in multiset(SortDesc(s, rank));
    }
    forall k ensures WithRank(SortDesc(s, rank), rank, k) == WithRank(s, rank, k) {
      SortDescStable(s, rank, k);
    }
  }

  /** The first two elements of the sorted sequence carry the two highest ranks. */
  lemma SortDescFirstTwo<T>(s: seq<T>, rank: T -> real)
    requires |s| >= 2
    ensures forall x :: x in s ==> rank(x) <= rank(SortDesc(s, rank)[0])
    ensures forall x :: x in multiset(s) - multiset{SortDesc(s, rank)[0]} ==> rank(x) <= rank(SortDesc(s, rank)[1])
  {
    var r := SortDesc(s, rank);
    SortDescOrdered(s, rank);
    SortDescPermutes(s, rank);
    forall x | x in s ensures rank(x) <= rank(r[0]) {
      assert x in multiset(r);
      var j :| 0 <= j < |r| && r[j] == x;
      if j > 0 { assert rank(r[0]) >= rank(r[j]); }
    }
    assert r == [r[0]] + r[1..];
    assert multiset(s) - multiset{r[0]} == multiset(r[1..]);
    forall x | x in multiset(s) - multiset{r[0]} ensures rank(x) <= rank(r[1]) {
      var j :| 0 <= j < |r[1..]| && r[1..][j] == x;
      if j > 0 { assert rank(r[1]) >= rank(r[j + 1]); }
    }
  }

  /** The first two elements of the sorted sequence are two distinct entries of the input. */
  lemma SortDescFirstTwoDistinct<T>(s: seq<T>, rank: T -> real)
    requires |s| >= 2
    ensures multiset{SortDesc(s, rank)[0], SortDesc(s, rank)[1]} <= multiset(s)
  {
    SortDescPermutes(s, rank);
    FirstTwoEntries(SortDesc(s, rank));
  }

  lemma FirstTwoEntries<T>(r: seq<T>)
    requires |r| >= 2
    ensures multiset{r[0], r[1]} <= multiset(r)
  {
    assert r == [r[0], r[1]] + r[2..];
  }
}
