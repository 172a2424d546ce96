/** Python's stable sort with a key function (sorted(xs, key=...) and
    list.sort(key=...)), as the assistant uses it: on the classified intents
    by (priority, -confidence) and on the queued messages by timestamp. */
module Sorting {

  /** A sort key: a pair compared as a Python tuple. */
  datatype Rank = Rank(major: int, minor: real)

  /** Tuple order on sort keys. */
  predicate RankLe(a: Rank, b: Rank)
  {
    a.major < b.major || (a.major == b.major && a.minor <= b.minor)
  }

  /** Puts x in front of the first element that does not rank before it. */
  function Insert<T>(x: T, s: seq<T>, rank: T -> Rank): (r: seq<T>)
    ensures multiset(r) == multiset(s) + multiset{x}
  {
    if s == [] then [x]
    else if RankLe(rank(x), rank(s[0])) then [x] + s
    else
      assert s == [s[0]] + s[1..];
      [s[0]] + Insert(x, s[1..], rank)
  }

  /** The stable sort by rank, as insertion sort. */
  function SortBy<T>(xs: seq<T>, rank: T -> Rank): (r: seq<T>)
    ensures multiset(r) == multiset(xs)
    ensures |r| == |xs|
  {
    if xs == [] then []
    else
      assert xs == [xs[0]] + xs[1..];
      Insert(xs[0], SortBy(xs[1..], rank), rank)
  }

  predicate Ordered<T>(s: seq<T>, rank: T -> Rank)
  {
    forall i, j :: 0 <= i < j < |s| ==> RankLe(rank(s[i]), rank(s[j]))
  }

  lemma {:induction false} InsertOrdered<T>(x: T, s: seq<T>, rank: T -> Rank)
    requires Ordered(s, rank)
    ensures Ordered(Insert(x, s, rank), rank)
  {
    if s != [] && !RankLe(rank(x), rank(s[0])) {
      var rest := Insert(x, s[1..], rank);
      InsertOrdered(x, s[1..], rank);
      forall j | 0 <= j < |rest|
        ensures RankLe(rank(s[0]), rank(rest[j]))
      {
        assert rest[j] in multiset(rest);
        if rest[j] != x {
          assert rest[j] in multiset(s[1..]);
          var k :| 0 <= k < |s[1..]| && s[1..][k] == rest[j];
          assert s[k + 1] == rest[j];
        }
      }
    }
  }

  /** Sorting lists every element once, in rank order. */
  lemma {:induction false} SortBySorted<T>(xs: seq<T>, rank: T -> Rank)
    ensures Ordered(SortBy(xs, rank), rank)
    ensures multiset(SortBy(xs, rank)) == multiset(xs)
  {
    if xs != [] {
      SortBySorted(xs[1..], rank);
      InsertOrdered(xs[0], SortBy(xs[1..], rank), rank);
      assert xs == [xs[0]] + xs[1..];
    }
  }

  /** The elements of one rank, in their order. */
  function WithRank<T>(s: seq<T>, k: Rank, rank: T -> Rank): (r: seq<T>)
    ensures |r| <= |s|
  {
    if s == [] then []
    else (if rank(s[0]) == k then [s[0]] else []) + WithRank(s[1..], k, rank)
  }

  lemma {:induction false} WithRankInsert<T>(x: T, s: seq<T>, k: Rank, rank: T -> Rank)
    ensures WithRank(Insert(x, s, rank), k, rank) == (if rank(x) == k then [x] else []) + WithRank(s, k, rank)
  {
    if s == [] {
    } else if RankLe(rank(x), rank(s[0])) {
      var r := [x] + s;
      assert r[1..] == s;
    } else {
      WithRankInsert(x, s[1..], k, rank);
      WithRankPassed(x, s, k, rank);
    }
  }

  /** Inserting past the head: the head keeps its place in front of the
      insertion into the rest. */
  lemma WithRankPassed<T>(x: T, s: seq<T>, k: Rank, rank: T -> Rank)
    requires s != [] && !RankLe(rank(x), rank(s[0]))
    requires WithRank(Insert(x, s[1..], rank), k, rank) == (if rank(x) == k then [x] else []) + WithRank(s[1..], k, rank)
    ensures WithRank(Insert(x, s, rank), k, rank) == (if rank(x) == k then [x] else []) + WithRank(s, k, rank)
  {
    var tail := Insert(x, s[1..], rank);
    var r := [s[0]] + tail;
    assert Insert(x, s, rank) == r;
    assert r[1..] == tail;
    var mine := if rank(x) == k then [x] else [];
    var first := if rank(s[0]) == k then [s[0]] else [];
    assert WithRank(r, k, rank) == first + (mine + WithRank(s[1..], k, rank));
    // x and s[0] cannot both have rank k, since x does not rank before s[0]
    assert mine == [] || first == [];
    var rest := WithRank(s[1..], k, rank);
    assert WithRank(s, k, rank) == first + rest;
    if mine == [] {
      assert mine + rest == rest;
      assert mine + (first + rest) == first + rest;
    } else {
      assert first + (mine + rest) == mine + rest;
      assert first + rest == rest;
    }
  }

  /** The sort is stable: elements of equal rank keep their order. */
  lemma {:induction false} SortByStable<T>(xs: seq<T>, k: Rank, rank: T -> Rank)
    ensures WithRank(SortBy(xs, rank), k, rank) == WithRank(xs, k, rank)
  {
    if xs != [] {
      SortByStable(xs[1..], k, rank);
      WithRankInsert(xs[0], SortBy(xs[1..], rank), k, rank);
    }
  }
}
