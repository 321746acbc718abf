/** `Array.prototype.sort` with a comparator, as the catalogue scripts use
    it. Every comparator in the scripts orders vehicles by at most two
    integer criteria, so a comparison is modelled as the lexicographic order
    on a `Rank` pair; the sort is a stable insertion sort (ECMAScript requires
    `sort` to be stable). */
module StableSort {

  datatype Rank = Rank(major: int, minor: int)

  /** `cmp(a, b) < 0`: `a` must come before `b`. */
  predicate RankLess(a: Rank, b: Rank) {
    a.major < b.major || (a.major == b.major && a.minor < b.minor)
  }

  /** No element is ranked strictly before an element that precedes it. */
  predicate Sorted<T>(s: seq<T>, rank: T -> Rank) {
    forall i, j :: 0 <= i < j < |s| ==> !RankLess(rank(s[j]), rank(s[i]))
  }

  /** Places `x` after every element not ranked after it. */
  function Insert<T>(x: T, s: seq<T>, rank: T -> Rank): seq<T>
  {
    if s == [] then [x]
    else if RankLess(rank(x), rank(s[0])) then [x] + s
    else [s[0]] + Insert(x, s[1..], rank)
  }

  /** The array after `sort`: each element, in input order, is inserted
      behind the elements already placed that it does not precede. */
  function Sort<T>(s: seq<T>, rank: T -> Rank): seq<T>
  {
    if s == [] then [] else Insert(s[|s| - 1], Sort(s[..|s| - 1], rank), rank)
  }

  lemma {:induction false} InsertPermutes<T>(x: T, s: seq<T>, rank: T -> Rank)
    ensures multiset(Insert(x, s, rank)) == multiset(s) + multiset{x}
  {
    if s != [] && !RankLess(rank(x), rank(s[0])) {
      InsertPermutes(x, s[1..], rank);
      assert s == [s[0]] + s[1..];
    }
  }

  /** Sorting only reorders: the result is a permutation of the input. */
  lemma {:induction false} SortPermutes<T>(s: seq<T>, rank: T -> Rank)
    ensures multiset(Sort(s, rank)) == multiset(s)
    ensures |Sort(s, rank)| == |s|
  {
    if s != [] {
      SortPermutes(s[..|s| - 1], rank);
      InsertPermutes(s[|s| - 1], Sort(s[..|s| - 1], rank), rank);
      assert s == s[..|s| - 1] + [s[|s| - 1]];
    }
  }

  lemma {:induction false} InsertSorted<T>(x: T, s: seq<T>, rank: T -> Rank)
    requires Sorted(s, rank)
    ensures Sorted(Insert(x, s, rank), rank)
  {
    if s == [] {
    } else if RankLess(rank(x), rank(s[0])) {
      var r := [x] + s;
      forall i, j | 0 <= i < j < |r| ensures !RankLess(rank(r[j]), rank(r[i])) {
        if i == 0 {
          assert r[j] == s[j - 1];
          if j > 1 { assert !RankLess(rank(s[j - 1]), rank(s[0])); }
        } else {
          assert r[i] == s[i - 1] && r[j] == s[j - 1];
        }
      }
    } else {
      var tail := Insert(x, s[1..], rank);
      InsertSorted(x, s[1..], rank);
      InsertPermutes(x, s[1..], rank);
      var r := [s[0]] + tail;
      forall i, j | 0 <= i < j < |r| ensures !RankLess(rank(r[j]), rank(r[i])) {
        if i == 0 {
          var e := tail[j - 1];
          assert e in multiset(tail);
          if e != x {
            assert e in multiset(s[1..]);
            var k :| 0 <= k < |s[1..]| && s[1..][k] == e;
            assert s[k + 1] == e;
          }
        } else {
          assert r[i] == tail[i - 1] && r[j] == tail[j - 1];
        }
      }
    }
  }

  /** The result is in comparator order. */
  lemma {:induction false} SortSorted<T>(s: seq<T>, rank: T -> Rank)
    ensures Sorted(Sort(s, rank), rank)
  {
    if s != [] {
      SortSorted(s[..|s| - 1], rank);
      InsertSorted(s[|s| - 1], Sort(s[..|s| - 1], rank), rank);
    }
  }

  lemma {:induction false} InsertAtEnd<T>(x: T, s: seq<T>, rank: T -> Rank)
    requires forall i :: 0 <= i < |s| ==> !RankLess(rank(x), rank(s[i]))
    ensures Insert(x, s, rank) == s + [x]
  {
    if s != [] {
      InsertAtEnd(x, s[1..], rank);
    }
  }

  /** An input already in order is left exactly as it is: equally ranked
      elements keep their relative order. */
  lemma {:induction false} SortKeepsSorted<T>(s: seq<T>, rank: T -> Rank)
    requires Sorted(s, rank)
    ensures Sort(s, rank) == s
  {
    if s != [] {
      var init := s[..|s| - 1];
      assert Sorted(init, rank);
      SortKeepsSorted(init, rank);
      InsertAtEnd(s[|s| - 1], init, rank);
      assert init + [s[|s| - 1]] == s;
    }
  }

  /** The elements ranked exactly `r`, in their order in `s`. */
  function SameRank<T>(s: seq<T>, rank: T -> Rank, r: Rank): (e: seq<T>)
    ensures |e| <= |s|
  {
    if s == [] then []
    else (if rank(s[0]) == r then [s[0]] else []) + SameRank(s[1..], rank, r)
  }

  lemma {:induction false} SameRankAppend<T>(a: seq<T>, b: seq<T>, rank: T -> Rank, r: Rank)
    ensures SameRank(a + b, rank, r) == SameRank(a, rank, r) + SameRank(b, rank, r)
  {
    if a != [] {
      SameRankAppend(a[1..], b, rank, r);
      assert (a + b)[1..] == a[1..] + b;
    } else {
      assert a + b == b;
    }
  }

  /** In sorted order, nothing after an element ranked above `r` is ranked `r`. */
  lemma {:induction false} SameRankEmptyAbove<T>(t: seq<T>, rank: T -> Rank, r: Rank)
    requires Sorted(t, rank) && t != [] && RankLess(r, rank(t[0]))
    ensures SameRank(t, rank, r) == []
  {
    var rest := t[1..];
    if rest != [] {
      assert rest[0] == t[1];
      assert !RankLess(rank(t[1]), rank(t[0]));
      SameRankEmptyAbove(rest, rank, r);
    }
  }

  lemma SameRankCons<T>(y: T, t: seq<T>, rank: T -> Rank, r: Rank)
    ensures SameRank([y] + t, rank, r) == (if rank(y) == r then [y] else []) + SameRank(t, rank, r)
  {
    assert ([y] + t)[1..] == t;
  }

  lemma SortedTail<T>(t: seq<T>, rank: T -> Rank)
    requires Sorted(t, rank) && t != []
    ensures Sorted(t[1..], rank)
  {
    forall i, j | 0 <= i < j < |t[1..]| ensures !RankLess(rank(t[1..][j]), rank(t[1..][i])) {
      assert t[1..][i] == t[i + 1] && t[1..][j] == t[j + 1];
    }
  }

  /** Inserting into sorted order puts `x` behind every element ranked like it. */
  lemma {:induction false} InsertSameRank<T>(x: T, t: seq<T>, rank: T -> Rank, r: Rank)
    requires Sorted(t, rank)
    ensures SameRank(Insert(x, t, rank), rank, r)
      == SameRank(t, rank, r) + (if rank(x) == r then [x] else [])
  {
    if t == [] {
      SameRankCons(x, [], rank, r);
    } else if RankLess(rank(x), rank(t[0])) {
      SameRankCons(x, t, rank, r);
      if rank(x) == r {
        SameRankEmptyAbove(t, rank, r);
      }
    } else {
      var tail := Insert(x, t[1..], rank);
      SortedTail(t, rank);
      InsertSameRank(x, t[1..], rank, r);
      SameRankCons(t[0], tail, rank, r);
      SameRankCons(t[0], t[1..], rank, r);
      assert [t[0]] + t[1..] == t;
    }
  }

  /** The sort is stable: the elements of any one rank come out in their
      input order. */
  lemma {:induction false} SortStable<T>(s: seq<T>, rank: T -> Rank, r: Rank)
    ensures SameRank(Sort(s, rank), rank, r) == SameRank(s, rank, r)
  {
    if s != [] {
      var init := s[..|s| - 1];
      var last := s[|s| - 1];
      SortStable(init, rank, r);
      SortSorted(init, rank);
      InsertSameRank(last, Sort(init, rank), rank, r);
      assert s == init + [last];
      SameRankAppend(init, [last], rank, r);
      SameRankCons(last, [], rank, r);
      assert [last] + [] == [last];
    }
  }
}
