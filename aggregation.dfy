/**
 * The group-and-count behind the doughnut (country), polar-area (topic),
 * radar (region) and pie (sector) charts. Each chart takes its labels from
 * `[...new Set(...)]` over the filtered records and, separately, its counts
 * from a `reduce` that grows an accumulator of key/count buckets: a linear
 * `findIndex` for the record's key, then a `push` of a new bucket or an
 * in-place `count++`.
 */
module Aggregation {
  import opened Sequences
  import opened Records

  /** One accumulator entry of the `reduce`: a category value and how often it was seen. */
  datatype Bucket = Bucket(key: string, count: nat)

  /** The keys of the accumulator, in accumulator order. */
  function Keys(acc: seq<Bucket>): seq<string> {
    seq(|acc|, i requires 0 <= i < |acc| => acc[i].key)
  }

  /** `acc.map(item => item.count)`. */
  function Counts(acc: seq<Bucket>): seq<nat> {
    seq(|acc|, i requires 0 <= i < |acc| => acc[i].count)
  }

  /** `acc.findIndex(obj => obj.key === key)`: the first bucket with that key, or -1. */
  method FindIndex(acc: seq<Bucket>, key: string) returns (index: int)
    ensures key !in Keys(acc) ==> index == -1
    ensures key in Keys(acc) ==> index == FirstIndex(Keys(acc), key)
  {
    index := 0;
    while index < |acc|
      invariant 0 <= index <= |acc|
      invariant key !in Keys(acc)[..index]
    {
      if acc[index].key == key {
        FirstIndexUnique(Keys(acc), key, index);
        return;
      }
      assert Keys(acc)[..index + 1] == Keys(acc)[..index] + [acc[index].key];
      index := index + 1;
    }
    assert Keys(acc)[..index] == Keys(acc);
    index := -1;
  }

  /**
   * The accumulator after the `reduce` callback has seen one more key: a new
   * bucket with count one when no bucket has the key, else that bucket's
   * count one higher. This is the specification of `Bump`, with the first
   * position of the key in place of the `findIndex` scan.
   */
  function Bumped(acc: seq<Bucket>, key: string): seq<Bucket> {
    if key in Keys(acc) then
      var index := FirstIndex(Keys(acc), key);
      acc[index := acc[index].(count := acc[index].count + 1)]
    else acc + [Bucket(key, 1)]
  }

  /** The `reduce` callback: `findIndex`, then `push` or `count++` in place. */
  method Bump(acc: seq<Bucket>, key: string) returns (next: seq<Bucket>)
    ensures next == Bumped(acc, key)
  {
    var index := FindIndex(acc, key);
    if index == -1 {
      next := acc + [Bucket(key, 1)];
    } else {
      next := acc[index := acc[index].(count := acc[index].count + 1)];
    }
  }

  /**
   * One step of the `reduce` keeps its invariant: buckets for the distinct
   * keys seen so far in first-seen order, each counting its own key.
   */
  lemma BumpedCounts(acc: seq<Bucket>, seen: seq<string>, key: string)
    requires Keys(acc) == Distinct(seen)
    requires forall i :: 0 <= i < |acc| ==> acc[i].count == Occurrences(seen, acc[i].key)
    ensures Keys(Bumped(acc, key)) == Distinct(seen + [key])
    ensures forall i :: 0 <= i < |Bumped(acc, key)| ==>
      Bumped(acc, key)[i].count == Occurrences(seen + [key], Bumped(acc, key)[i].key)
  {
    DistinctSnoc(seen, key);
    if key in Keys(acc) {
      BumpedExisting(acc, seen, key);
    } else {
      BumpedNew(acc, seen, key);
    }
  }

  /** A key already in the accumulator: only its own bucket grows. */
  lemma BumpedExisting(acc: seq<Bucket>, seen: seq<string>, key: string)
    requires Keys(acc) == Distinct(seen) && key in Keys(acc)
    requires forall i :: 0 <= i < |acc| ==> acc[i].count == Occurrences(seen, acc[i].key)
    ensures Keys(Bumped(acc, key)) == Keys(acc)
    ensures forall i :: 0 <= i < |acc| ==>
      Bumped(acc, key)[i].count == Occurrences(seen + [key], acc[i].key)
  {
    var index := FirstIndex(Keys(acc), key);
    var next := Bumped(acc, key);
    assert |next| == |acc|;
    assert forall i :: 0 <= i < |acc| ==> next[i].key == acc[i].key;
    forall i | 0 <= i < |acc|
      ensures next[i].count == Occurrences(seen + [key], acc[i].key)
    {
      OccurrencesSnoc(seen, key, acc[i].key);
      if i != index {
        assert Keys(acc)[i] != Keys(acc)[index];
      }
    }
  }

  /** A key not yet in the accumulator: a new bucket with count one at the end. */
  lemma BumpedNew(acc: seq<Bucket>, seen: seq<string>, key: string)
    requires Keys(acc) == Distinct(seen) && key !in Keys(acc)
    requires forall i :: 0 <= i < |acc| ==> acc[i].count == Occurrences(seen, acc[i].key)
    ensures Keys(Bumped(acc, key)) == Keys(acc) + [key]
    ensures forall i :: 0 <= i < |Bumped(acc, key)| ==>
      Bumped(acc, key)[i].count == Occurrences(seen + [key], Bumped(acc, key)[i].key)
  {
    var next := acc + [Bucket(key, 1)];
    assert Bumped(acc, key) == next;
    assert Keys(next) == Keys(acc) + [key];
    forall i | 0 <= i < |next|
      ensures next[i].count == Occurrences(seen + [key], next[i].key)
    {
      OccurrencesSnoc(seen, key, next[i].key);
      if i < |acc| {
        assert next[i] == acc[i] && Keys(acc)[i] == acc[i].key;
      } else {
        assert next[i] == Bucket(key, 1);
      }
    }
  }

  /**
   * The `reduce` over the records: after it, the buckets' keys are the
   * distinct values of the field in first-seen order, and each bucket's count
   * is the number of records holding its key.
   */
  method Tally(c: Category, rows: seq<Record>) returns (acc: seq<Bucket>)
    ensures Keys(acc) == Distinct(Column(c, rows))
    ensures Counts(acc) == CountsIn(Keys(acc), Column(c, rows))
  {
    acc := [];
    var n := 0;
    ghost var seen: seq<string> := [];
    while n < |rows|
      invariant 0 <= n <= |rows|
      invariant |seen| == n && forall i :: 0 <= i < n ==> seen[i] == Value(rows[i], c)
      invariant Keys(acc) == Distinct(seen)
      invariant forall i :: 0 <= i < |acc| ==> acc[i].count == Occurrences(seen, acc[i].key)
    {
      var key := Value(rows[n], c);
      BumpedCounts(acc, seen, key);
      acc := Bump(acc, key);
      seen := seen + [key];
      n := n + 1;
    }
    assert seen == Column(c, rows);
    CountsAgree(acc, seen);
  }

  /** Buckets that each count their own key give the counts of their keys. */
  lemma CountsAgree(acc: seq<Bucket>, xs: seq<string>)
    requires forall i :: 0 <= i < |acc| ==> acc[i].count == Occurrences(xs, acc[i].key)
    ensures Counts(acc) == CountsIn(Keys(acc), xs)
  {
  }

  /**
   * The labels and data of one category chart over the filtered records: the
   * labels are the distinct values of the field in first-seen order, the `""`
   * value included; the data line up with them index by index, each count at
   * least one, and all counts together add up to the number of records.
   */
  method CategoryChart(c: Category, rows: seq<Record>) returns (labels: seq<string>, data: seq<nat>)
    ensures labels == Distinct(Column(c, rows))
    ensures |labels| == |set v | v in Column(c, rows)|
    ensures |data| == |labels|
    ensures forall i :: 0 <= i < |labels| ==> data[i] == Occurrences(Column(c, rows), labels[i]) >= 1
    ensures Sum(data) == |rows|
  {
    labels := Distinct(Column(c, rows));
    var acc := Tally(c, rows);
    data := Counts(acc);
    CountsOfDistinctSumToLength(Column(c, rows));
    DistinctCardinality(Column(c, rows));
  }

  /** The doughnut chart: records grouped by country. */
  method DoughnutChart(rows: seq<Record>) returns (labels: seq<string>, data: seq<nat>)
    ensures labels == Distinct(Column(Country, rows))
    ensures |labels| == |set v | v in Column(Country, rows)|
    ensures |data| == |labels|
    ensures forall i :: 0 <= i < |labels| ==> data[i] == Occurrences(Column(Country, rows), labels[i]) >= 1
    ensures Sum(data) == |rows|
  {
    labels, data := CategoryChart(Country, rows);
  }

  /** The polar-area chart: records grouped by topic. */
  method PolarAreaChart(rows: seq<Record>) returns (labels: seq<string>, data: seq<nat>)
    ensures labels == Distinct(Column(Topic, rows))
    ensures |labels| == |set v | v in Column(Topic, rows)|
    ensures |data| == |labels|
    ensures forall i :: 0 <= i < |labels| ==> data[i] == Occurrences(Column(Topic, rows), labels[i]) >= 1
    ensures Sum(data) == |rows|
  {
    labels, data := CategoryChart(Topic, rows);
  }

  /** The radar chart: records grouped by region. */
  method RadarChart(rows: seq<Record>) returns (labels: seq<string>, data: seq<nat>)
    ensures labels == Distinct(Column(Region, rows))
    ensures |labels| == |set v | v in Column(Region, rows)|
    ensures |data| == |labels|
    ensures forall i :: 0 <= i < |labels| ==> data[i] == Occurrences(Column(Region, rows), labels[i]) >= 1
    ensures Sum(data) == |rows|
  {
    labels, data := CategoryChart(Region, rows);
  }

  /** The pie chart: records grouped by sector. */
  method PieChart(rows: seq<Record>) returns (labels: seq<string>, data: seq<nat>)
    ensures labels == Distinct(Column(Sector, rows))
    ensures |labels| == |set v | v in Column(Sector, rows)|
    ensures |data| == |labels|
    ensures forall i :: 0 <= i < |labels| ==> data[i] == Occurrences(Column(Sector, rows), labels[i]) >= 1
    ensures Sum(data) == |rows|
  {
    labels, data := CategoryChart(Sector, rows);
  }
}
