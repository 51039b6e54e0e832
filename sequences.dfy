/**
 * Sequence notions the dashboard's aggregation rests on: counting
 * occurrences, the first-seen deduplication that `[...new Set(xs)]`
 * performs, the first position of a value, sums, and subsequences.
 */
module Sequences {

  /** No value occurs twice in `xs`. */
  predicate NoDuplicates<T(==)>(xs: seq<T>) {
    forall i, j :: 0 <= i < j < |xs| ==> xs[i] != xs[j]
  }

  /** The number of positions of `xs` that hold `v`, counted left to right. */
  function Occurrences<T(==)>(xs: seq<T>, v: T): (n: nat)
    ensures n <= |xs|
    ensures n == 0 <==> v !in xs
  {
    if xs == [] then 0
    else
      var prefix := xs[..|xs| - 1];
      assert xs == prefix + [xs[|xs| - 1]];
      Occurrences(prefix, v) + (if xs[|xs| - 1] == v then 1 else 0)
  }

  /**
   * The distinct values of `xs`, in the order in which a left-to-right scan
   * first meets them; this is what spreading a JavaScript `Set` built from
   * `xs` yields, since a `Set` iterates in insertion order.
   */
  function Distinct<T(==,!new)>(xs: seq<T>): (d: seq<T>)
    ensures NoDuplicates(d)
    ensures forall v :: v in d <==> v in xs
    ensures |d| <= |xs|
  {
    if xs == [] then []
    else
      var prefix := xs[..|xs| - 1];
      assert xs == prefix + [xs[|xs| - 1]];
      var seen := Distinct(prefix);
      if xs[|xs| - 1] in seen then seen else seen + [xs[|xs| - 1]]
  }

  /** The position at which `v` first occurs in `xs`. */
  function FirstIndex<T(==)>(xs: seq<T>, v: T): (i: nat)
    requires v in xs
    ensures i < |xs| && xs[i] == v
    ensures v !in xs[..i]
  {
    if xs[0] == v then 0
    else
      var k := FirstIndex(xs[1..], v);
      assert xs[..1 + k] == [xs[0]] + xs[1..][..k];
      1 + k
  }

  /** The sum of a sequence of counts. */
  function Sum(s: seq<nat>): nat {
    if s == [] then 0 else Sum(s[..|s| - 1]) + s[|s| - 1]
  }

  /** For each element of `keys`, the number of times it occurs in `xs`. */
  function CountsIn<T(==)>(keys: seq<T>, xs: seq<T>): seq<nat> {
    seq(|keys|, i requires 0 <= i < |keys| => Occurrences(xs, keys[i]))
  }

  /** `a` is `b` with some elements dropped and the rest kept in order. */
  predicate IsSubsequence<T(==)>(a: seq<T>, b: seq<T>)
    decreases |b|
  {
    if a == [] then true
    else if b == [] then false
    else (a[0] == b[0] && IsSubsequence(a[1..], b[1..])) || IsSubsequence(a, b[1..])
  }

  /** Appending one element to `xs` adds one to its count and no other. */
  lemma OccurrencesSnoc<T>(xs: seq<T>, x: T, v: T)
    ensures Occurrences(xs + [x], v) == Occurrences(xs, v) + (if x == v then 1 else 0)
  {
    assert (xs + [x])[..|xs|] == xs;
  }

  /** Seeing one more value appends it to the distinct values unless it was seen before. */
  lemma DistinctSnoc<T(!new)>(xs: seq<T>, x: T)
    ensures Distinct(xs + [x]) == if x in Distinct(xs) then Distinct(xs) else Distinct(xs) + [x]
  {
    assert (xs + [x])[..|xs|] == xs;
  }

  /** In a sequence without duplicates a member occurs exactly once. */
  lemma {:induction false} OccurrencesOnce<T>(xs: seq<T>, v: T)
    requires NoDuplicates(xs) && v in xs
    ensures Occurrences(xs, v) == 1
  {
    var prefix := xs[..|xs| - 1];
    assert xs == prefix + [xs[|xs| - 1]];
    if xs[|xs| - 1] == v {
      assert forall k :: 0 <= k < |prefix| ==> prefix[k] == xs[k] != v;
    } else {
      OccurrencesOnce(prefix, v);
    }
  }

  /** Counting the keys against `xs + [x]`: the sum grows by how often `x` is a key. */
  lemma {:induction false} SumCountsSnoc<T>(keys: seq<T>, xs: seq<T>, x: T)
    ensures Sum(CountsIn(keys, xs + [x])) == Sum(CountsIn(keys, xs)) + Occurrences(keys, x)
  {
    if keys != [] {
      var front := keys[..|keys| - 1];
      var k := keys[|keys| - 1];
      assert keys == front + [k];
      assert CountsIn(keys, xs + [x]) == CountsIn(front, xs + [x]) + [Occurrences(xs + [x], k)];
      assert CountsIn(keys, xs) == CountsIn(front, xs) + [Occurrences(xs, k)];
      SumCountsSnoc(front, xs, x);
      OccurrencesSnoc(xs, x, k);
      OccurrencesSnoc(front, k, x);
    }
  }

  /**
   * Count conservation: counting every distinct value of `xs` against `xs`
   * accounts for every position of `xs` exactly once.
   */
  lemma {:induction false} CountsOfDistinctSumToLength<T(!new)>(xs: seq<T>)
    ensures Sum(CountsIn(Distinct(xs), xs)) == |xs|
  {
    if xs != [] {
      var prefix := xs[..|xs| - 1];
      var x := xs[|xs| - 1];
      assert xs == prefix + [x];
      var seen := Distinct(prefix);
      CountsOfDistinctSumToLength(prefix);
      SumCountsSnoc(seen, prefix, x);
      if x in seen {
        OccurrencesOnce(seen, x);
      } else {
        var d := seen + [x];
        assert CountsIn(d, xs) == CountsIn(seen, xs) + [Occurrences(xs, x)];
        OccurrencesSnoc(prefix, x, x);
      }
    }
  }

  /** Every value of `xs` occurs in `xs + [x]` where it first occurred in `xs`. */
  lemma FirstIndexSnoc<T>(xs: seq<T>, x: T, v: T)
    requires v in xs
    ensures FirstIndex(xs + [x], v) == FirstIndex(xs, v)
  {
    if xs[0] != v {
      assert (xs + [x])[1..] == xs[1..] + [x];
      FirstIndexSnoc(xs[1..], x, v);
    }
  }

  /**
   * First-seen order: the distinct values appear in the order of their first
   * occurrences in `xs`.
   */
  lemma {:induction false} DistinctIsFirstSeenOrder<T(!new)>(xs: seq<T>, i: nat, j: nat)
    requires i < j < |Distinct(xs)|
    ensures FirstIndex(xs, Distinct(xs)[i]) < FirstIndex(xs, Distinct(xs)[j])
  {
    var prefix := xs[..|xs| - 1];
    var x := xs[|xs| - 1];
    assert xs == prefix + [x];
    var seen := Distinct(prefix);
    var d := Distinct(xs);
    assert d[i] in seen;
    FirstIndexSnoc(prefix, x, d[i]);
    if j < |seen| {
      DistinctIsFirstSeenOrder(prefix, i, j);
      FirstIndexSnoc(prefix, x, d[j]);
    } else {
      assert d[j] == x && x !in prefix;
      assert forall k :: 0 <= k < |prefix| ==> xs[k] == prefix[k] != x;
    }
  }

  /** A duplicate-free sequence has as many elements as its set of values. */
  lemma {:induction false} NoDuplicatesCardinality<T>(xs: seq<T>)
    requires NoDuplicates(xs)
    ensures |set v | v in xs| == |xs|
  {
    if xs != [] {
      var prefix := xs[..|xs| - 1];
      var x := xs[|xs| - 1];
      assert xs == prefix + [x];
      NoDuplicatesCardinality(prefix);
      assert forall k :: 0 <= k < |prefix| ==> prefix[k] == xs[k] != x;
      assert (set v | v in xs) == (set v | v in prefix) + {x};
    }
  }

  /** The number of distinct values is the number of values in the set of `xs`. */
  lemma DistinctCardinality<T(!new)>(xs: seq<T>)
    ensures |Distinct(xs)| == |set v | v in xs|
  {
    var d := Distinct(xs);
    NoDuplicatesCardinality(d);
    assert (set v | v in d) == (set v | v in xs);
  }

  /** The first index is the one position holding `v` with no `v` before it. */
  lemma FirstIndexUnique<T>(xs: seq<T>, v: T, k: nat)
    requires k < |xs| && xs[k] == v && v !in xs[..k]
    ensures FirstIndex(xs, v) == k
  {
    var i := FirstIndex(xs, v);
    assert forall m :: 0 <= m < k ==> xs[m] == xs[..k][m] != v;
    assert forall m :: 0 <= m < i ==> xs[m] == xs[..i][m] != v;
  }
}
