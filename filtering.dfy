/**
 * The conjunctive filter the page re-runs whenever the data or one of the
 * eight filter values changes.
 */
module Filtering {
  import opened Sequences
  import opened Records

  /**
   * The filter's predicate on one record: for each of the eight categories,
   * either the record's value equals the selected one or nothing is selected.
   */
  predicate Matches(r: Record, sel: Selection) {
    && (r.endYear == sel.endYear || sel.endYear == "")
    && (r.topic == sel.topic || sel.topic == "")
    && (r.sector == sel.sector || sel.sector == "")
    && (r.region == sel.region || sel.region == "")
    && (r.pestle == sel.pestle || sel.pestle == "")
    && (r.source == sel.source || sel.source == "")
    && (r.swot == sel.swot || sel.swot == "")
    && (r.country == sel.country || sel.country == "")
  }

  /** `data.filter(item => Matches(item, sel))`, keeping the records' order. */
  function Filter(data: seq<Record>, sel: Selection): (kept: seq<Record>)
    ensures |kept| <= |data|
    ensures forall i :: 0 <= i < |kept| ==> kept[i] in data && Matches(kept[i], sel)
  {
    if data == [] then []
    else (if Matches(data[0], sel) then [data[0]] else []) + Filter(data[1..], sel)
  }

  /** The predicate is one equality test per category with a non-empty filter. */
  lemma MatchesEveryCategory(r: Record, sel: Selection)
    ensures Matches(r, sel) <==> forall c :: Get(sel, c) == "" || Value(r, c) == Get(sel, c)
  {
    if forall c :: Get(sel, c) == "" || Value(r, c) == Get(sel, c) {
      assert Get(sel, EndYear) == "" || Value(r, EndYear) == Get(sel, EndYear);
      assert Get(sel, Topic) == "" || Value(r, Topic) == Get(sel, Topic);
      assert Get(sel, Sector) == "" || Value(r, Sector) == Get(sel, Sector);
      assert Get(sel, Region) == "" || Value(r, Region) == Get(sel, Region);
      assert Get(sel, Pestle) == "" || Value(r, Pestle) == Get(sel, Pestle);
      assert Get(sel, Source) == "" || Value(r, Source) == Get(sel, Source);
      assert Get(sel, Swot) == "" || Value(r, Swot) == Get(sel, Swot);
      assert Get(sel, Country) == "" || Value(r, Country) == Get(sel, Country);
    }
  }

  /** The filtered records are the input with some records dropped, in input order. */
  lemma {:induction false} FilterIsSubsequence(data: seq<Record>, sel: Selection)
    ensures IsSubsequence(Filter(data, sel), data)
  {
    if data != [] {
      FilterIsSubsequence(data[1..], sel);
      var rest := Filter(data[1..], sel);
      if Matches(data[0], sel) {
        assert Filter(data, sel) == [data[0]] + rest;
        assert ([data[0]] + rest)[1..] == rest;
      } else {
        assert Filter(data, sel) == rest;
      }
    }
  }

  /** Completeness: every record of the input that satisfies the predicate is kept. */
  lemma {:induction false} FilterKeepsEveryMatch(data: seq<Record>, sel: Selection, r: Record)
    requires r in data && Matches(r, sel)
    ensures r in Filter(data, sel)
  {
    if data[0] != r {
      FilterKeepsEveryMatch(data[1..], sel, r);
    }
  }

  /**
   * Exactly the records satisfying the predicate are kept, each as often as
   * it occurs in the input.
   */
  lemma {:induction false} FilterMultiplicity(data: seq<Record>, sel: Selection, r: Record)
    ensures multiset(Filter(data, sel))[r] == if Matches(r, sel) then multiset(data)[r] else 0
  {
    if data != [] {
      assert data == [data[0]] + data[1..];
      FilterMultiplicity(data[1..], sel, r);
    }
  }

  /** With every filter on "All" the input comes back unchanged. */
  lemma {:induction false} FilterNoSelection(data: seq<Record>)
    ensures Filter(data, NoSelection) == data
  {
    if data != [] {
      FilterNoSelection(data[1..]);
    }
  }

  /** Filtering an already filtered list with the same selection changes nothing. */
  lemma {:induction false} FilterIdempotent(data: seq<Record>, sel: Selection)
    ensures Filter(Filter(data, sel), sel) == Filter(data, sel)
  {
    if data != [] {
      FilterIdempotent(data[1..], sel);
      var rest := Filter(data[1..], sel);
      if Matches(data[0], sel) {
        var once := [data[0]] + rest;
        assert Filter(data, sel) == once;
        assert once[0] == data[0] && once[1..] == rest;
        assert Filter(once, sel) == [data[0]] + Filter(rest, sel);
      } else {
        assert Filter(data, sel) == rest;
      }
    }
  }

  /**
   * Selecting the empty value for one category, as "All" does, drops that
   * category's condition and keeps the other seven.
   */
  lemma EmptyValueDropsCondition(r: Record, sel: Selection, c: Category)
    ensures Matches(r, With(sel, c, AllValue))
        <==> forall d :: d != c ==> Get(sel, d) == "" || Value(r, d) == Get(sel, d)
  {
    var s := With(sel, c, AllValue);
    MatchesEveryCategory(r, s);
    assert forall d ::
      (Get(s, d) == "" || Value(r, d) == Get(s, d)) <==> (d != c ==> Get(sel, d) == "" || Value(r, d) == Get(sel, d));
  }

  /** Filtering a concatenation filters each part. */
  lemma {:induction false} FilterAppend(a: seq<Record>, b: seq<Record>, sel: Selection)
    ensures Filter(a + b, sel) == Filter(a, sel) + Filter(b, sel)
  {
    if a != [] {
      assert (a + b)[0] == a[0] && (a + b)[1..] == a[1..] + b;
      var head := if Matches(a[0], sel) then [a[0]] else [];
      assert Filter(a + b, sel) == head + Filter(a[1..] + b, sel);
      assert Filter(a, sel) == head + Filter(a[1..], sel);
      FilterAppend(a[1..], b, sel);
      assert head + (Filter(a[1..], sel) + Filter(b, sel)) == (head + Filter(a[1..], sel)) + Filter(b, sel);
    } else {
      assert a + b == b;
    }
  }
}
