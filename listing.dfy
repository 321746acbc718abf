/** The array idioms the catalogue scripts share: `Array.prototype.filter`
    with a predicate, and `slice(0, n)` for the visible page. */
module Listing {

  /** `s.filter(p)`: the elements that pass, in their original order. */
  function Keep<T>(s: seq<T>, p: T -> bool): (r: seq<T>)
    ensures |r| <= |s|
    ensures forall k :: 0 <= k < |r| ==> p(r[k])
    ensures multiset(r) <= multiset(s)
  {
    if s == [] then []
    else
      assert s == s[..|s| - 1] + [s[|s| - 1]];
      if p(s[|s| - 1]) then Keep(s[..|s| - 1], p) + [s[|s| - 1]]
      else Keep(s[..|s| - 1], p)
  }

  /** Nothing that passes is dropped: every passing element is kept. */
  lemma {:induction false} KeepKeepsPassing<T>(s: seq<T>, p: T -> bool, i: int)
    requires 0 <= i < |s| && p(s[i])
    ensures s[i] in Keep(s, p)
    decreases |s|
  {
    if i < |s| - 1 {
      KeepKeepsPassing(s[..|s| - 1], p, i);
    }
  }

  /** An element is kept exactly when it is in the input and passes. */
  lemma KeepMembership<T>(s: seq<T>, p: T -> bool, x: T)
    ensures x in Keep(s, p) <==> x in s && p(x)
  {
    if x in Keep(s, p) {
      assert x in multiset(Keep(s, p));
    }
    if x in s && p(x) {
      var i :| 0 <= i < |s| && s[i] == x;
      KeepKeepsPassing(s, p, i);
    }
  }

  /** An appended element is kept at the end exactly when it passes. */
  lemma KeepSnoc<T>(s: seq<T>, p: T -> bool, x: T)
    ensures Keep(s + [x], p) == if p(x) then Keep(s, p) + [x] else Keep(s, p)
  {
    assert (s + [x])[..|s|] == s;
  }

  /** When everything passes, nothing is removed. */
  lemma {:induction false} KeepAll<T>(s: seq<T>, p: T -> bool)
    requires forall k :: 0 <= k < |s| ==> p(s[k])
    ensures Keep(s, p) == s
    decreases |s|
  {
    if s != [] {
      KeepAll(s[..|s| - 1], p);
    }
  }

  /** `s.slice(0, n)` for `n >= 0`. */
  function Take<T>(s: seq<T>, n: int): (r: seq<T>)
    requires n >= 0
    ensures |r| == if n < |s| then n else |s|
    ensures r == s[..|r|]
  {
    if n < |s| then s[..n] else s
  }

  /** Where `s.splice(index, 1)` starts: a negative index counts from the
      end (and stops at 0), a large one stops at the length. */
  function SpliceStart(len: nat, index: int): (start: nat)
    ensures start <= len
    ensures 0 <= index <= len ==> start == index
    ensures index < 0 && len + index >= 0 ==> start == len + index
  {
    if index < 0 then (if len + index < 0 then 0 else len + index)
    else if index > len then len
    else index
  }

  /** `s.splice(index, 1)` on an array: the element at the start position
      is removed when there is one, the array is unchanged otherwise. */
  function SpliceOne<T>(s: seq<T>, index: int): (r: seq<T>)
    ensures SpliceStart(|s|, index) < |s| ==> |r| == |s| - 1
    ensures SpliceStart(|s|, index) == |s| ==> r == s
  {
    var i := SpliceStart(|s|, index);
    if i < |s| then s[..i] + s[i + 1..] else s
  }

  /** Removing position `i` keeps everything before it in place, shifts
      everything after it down by one, and loses exactly the one element. */
  lemma SpliceOneRemovesAt<T>(s: seq<T>, i: int)
    requires 0 <= i < |s|
    ensures |SpliceOne(s, i)| == |s| - 1
    ensures forall k :: 0 <= k < i ==> SpliceOne(s, i)[k] == s[k]
    ensures forall k :: i <= k < |s| - 1 ==> SpliceOne(s, i)[k] == s[k + 1]
    ensures multiset(SpliceOne(s, i)) + multiset{s[i]} == multiset(s)
  {
    var r := SpliceOne(s, i);
    assert r == s[..i] + s[i + 1..];
    assert s == s[..i] + [s[i]] + s[i + 1..];
  }

  /** A negative index counts from the end: `splice(-1, 1)` drops the last
      element. */
  lemma SpliceOneFromEnd<T>(s: seq<T>)
    requires |s| > 0
    ensures SpliceOne(s, -1) == s[..|s| - 1]
  {
  }

  /** An index at or past the end removes nothing. */
  lemma SpliceOnePastEnd<T>(s: seq<T>, index: int)
    requires index >= |s|
    ensures SpliceOne(s, index) == s
  {
  }
}
