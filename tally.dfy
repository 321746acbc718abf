/** The counting idiom of the catalogue scripts' category counters:
    `counts[key] = (counts[key] || 0) + 1` for every vehicle, in order,
    on a plain object used as a dictionary. */
module Tally {

  /** How many positions of `keys` hold `k`. */
  function Occurrences(keys: seq<string>, k: string): (n: nat)
    ensures n <= |keys|
  {
    if keys == [] then 0
    else Occurrences(keys[..|keys| - 1], k) + (if keys[|keys| - 1] == k then 1 else 0)
  }

  lemma {:induction false} OccurrencesZero(keys: seq<string>, k: string)
    ensures Occurrences(keys, k) == 0 <==> k !in keys
    decreases |keys|
  {
    if keys != [] {
      var init := keys[..|keys| - 1];
      OccurrencesZero(init, k);
      assert keys == init + [keys[|keys| - 1]];
    }
  }

  /** Runs the idiom over `keys` starting from the object `start`: each key
      ends up with its starting count (0 when absent) plus its number of
      occurrences, and no other key appears. */
  method CountInto(start: map<string, int>, keys: seq<string>) returns (counts: map<string, int>)
    ensures forall k :: k in counts <==> k in start || k in keys
    ensures forall k :: k in counts ==> counts[k] == (if k in start then start[k] else 0) + Occurrences(keys, k)
  {
    counts := start;
    var i := 0;
    while i < |keys|
      invariant 0 <= i <= |keys|
      invariant forall k :: k in counts <==> k in start || k in keys[..i]
      invariant forall k :: k in counts ==> counts[k] == (if k in start then start[k] else 0) + Occurrences(keys[..i], k)
    {
      var key := keys[i];
      assert keys[..i + 1][..i] == keys[..i];
      forall k | k !in counts && k != key ensures Occurrences(keys[..i + 1], k) == 0 {
        OccurrencesZero(keys[..i], k);
      }
      if key !in counts {
        OccurrencesZero(keys[..i], key);
      }
      counts := counts[key := (if key in counts then counts[key] else 0) + 1];
      i := i + 1;
    }
    assert keys[..i] == keys;
  }

  /** The counts of the categories `cats`, added up. */
  function SumOver(keys: seq<string>, cats: seq<string>): nat {
    if cats == [] then 0 else SumOver(keys, cats[..|cats| - 1]) + Occurrences(keys, cats[|cats| - 1])
  }

  predicate Distinct(cats: seq<string>) {
    forall i, j :: 0 <= i < j < |cats| ==> cats[i] != cats[j]
  }

  lemma {:induction false} SumOverSnoc(keys: seq<string>, x: string, cats: seq<string>)
    ensures SumOver(keys + [x], cats) == SumOver(keys, cats) + Occurrences(cats, x)
    decreases |cats|
  {
    if cats != [] {
      SumOverSnoc(keys, x, cats[..|cats| - 1]);
      assert (keys + [x])[..|keys + [x]| - 1] == keys;
    }
  }

  lemma {:induction false} OccursOnce(cats: seq<string>, x: string)
    requires Distinct(cats) && x in cats
    ensures Occurrences(cats, x) == 1
    decreases |cats|
  {
    var init := cats[..|cats| - 1];
    assert cats == init + [cats[|cats| - 1]];
    if cats[|cats| - 1] == x {
      OccurrencesZero(init, x);
    } else {
      OccursOnce(init, x);
    }
  }

  /** When every key is one of the listed categories, and they are
      distinct, the per-category counts add up to the number of keys. */
  lemma {:induction false} CountsAddUp(keys: seq<string>, cats: seq<string>)
    requires Distinct(cats)
    requires forall i :: 0 <= i < |keys| ==> keys[i] in cats
    ensures SumOver(keys, cats) == |keys|
    decreases |keys|
  {
    if keys == [] {
      ZeroSum(cats);
    } else {
      var init := keys[..|keys| - 1];
      var x := keys[|keys| - 1];
      CountsAddUp(init, cats);
      assert init + [x] == keys;
      SumOverSnoc(init, x, cats);
      OccursOnce(cats, x);
    }
  }

  lemma {:induction false} ZeroSum(cats: seq<string>)
    ensures SumOver([], cats) == 0
    decreases |cats|
  {
    if cats != [] {
      ZeroSum(cats[..|cats| - 1]);
    }
  }
}
