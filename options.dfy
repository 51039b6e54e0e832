/**
 * The eight filter drop-downs. Each starts with an "All" entry and then lists
 * the distinct values of its field over the whole, unfiltered data, in
 * first-seen order; an entry's value is the field value itself and its text
 * is that value, or "Unknown" when the value is empty.
 */
module Options {
  import opened Sequences
  import opened Records
  import opened Filtering

  /** One `<option>`: the value it stores in the filter and the text it shows. */
  datatype SelectOption = SelectOption(value: string, text: string)

  /** `v || "Unknown"`: the text shown for a field value. */
  function OptionText(v: string): string {
    if v == "" then "Unknown" else v
  }

  /** The values listed under "All": `[...new Set(data.map(item => item.<field>))]`. */
  function OptionValues(c: Category, data: seq<Record>): seq<string> {
    Distinct(Column(c, data))
  }

  /** One entry per value, each storing the value and showing its text. */
  function Entries(vs: seq<string>): (entries: seq<SelectOption>)
    ensures |entries| == |vs|
    ensures forall i :: 0 <= i < |vs| ==> entries[i] == SelectOption(vs[i], OptionText(vs[i]))
  {
    if vs == [] then [] else [SelectOption(vs[0], OptionText(vs[0]))] + Entries(vs[1..])
  }

  /** The drop-down for one category over the unfiltered data. */
  function Options(c: Category, data: seq<Record>): (opts: seq<SelectOption>)
    ensures |opts| == 1 + |OptionValues(c, data)|
    ensures opts[0] == SelectOption(AllValue, "All")
    ensures forall i :: 1 <= i < |opts| ==> opts[i].value == OptionValues(c, data)[i - 1]
    ensures forall i :: 1 <= i < |opts| ==>
      opts[i].text == (if opts[i].value == "" then "Unknown" else opts[i].value)
  {
    [SelectOption(AllValue, "All")] + Entries(OptionValues(c, data))
  }

  /**
   * The listed values are duplicate-free, each is the value of some record,
   * and every record's value is listed.
   */
  lemma OptionValuesAreTheFieldValues(c: Category, data: seq<Record>)
    ensures NoDuplicates(OptionValues(c, data))
    ensures forall v :: v in OptionValues(c, data) ==> exists i :: 0 <= i < |data| && Value(data[i], c) == v
    ensures forall i :: 0 <= i < |data| ==> Value(data[i], c) in OptionValues(c, data)
  {
    var col := Column(c, data);
    forall v | v in OptionValues(c, data)
      ensures exists i :: 0 <= i < |data| && Value(data[i], c) == v
    {
      var i := FirstIndex(col, v);
      assert Value(data[i], c) == v;
    }
  }

  /** The listed values are in the order in which the records first show them. */
  lemma OptionValuesFirstSeen(c: Category, data: seq<Record>, i: nat, j: nat)
    requires i < j < |OptionValues(c, data)|
    ensures FirstIndex(Column(c, data), OptionValues(c, data)[i])
          < FirstIndex(Column(c, data), OptionValues(c, data)[j])
  {
    DistinctIsFirstSeenOrder(Column(c, data), i, j);
  }

  /** With only one filter set, a record is kept exactly when it has that value or the value is empty. */
  lemma MatchesOnlyFilter(r: Record, c: Category, v: string)
    ensures Matches(r, With(NoSelection, c, v)) <==> v == "" || Value(r, c) == v
  {
    MatchesEveryCategory(r, With(NoSelection, c, v));
  }

  /**
   * Choosing a non-empty value `v` alone keeps as many records as the data
   * holds with that value.
   */
  lemma {:induction false} OnlyFilterCount(data: seq<Record>, c: Category, v: string)
    requires v != ""
    ensures |Filter(data, With(NoSelection, c, v))| == Occurrences(Column(c, data), v)
  {
    if data != [] {
      var n := |data| - 1;
      var sel := With(NoSelection, c, v);
      var prefix, last := data[..n], data[n];
      assert data == prefix + [last];
      FilterAppend(prefix, [last], sel);
      OnlyFilterCount(prefix, c, v);
      ColumnSnoc(c, data, n);
      assert data[..n + 1] == data;
      OccurrencesSnoc(Column(c, prefix), Value(last, c), v);
      OneRecordCount(last, c, v);
    }
  }

  /** Filtering a single record on a non-empty value keeps it exactly when it has that value. */
  lemma OneRecordCount(r: Record, c: Category, v: string)
    requires v != ""
    ensures |Filter([r], With(NoSelection, c, v))| == if Value(r, c) == v then 1 else 0
  {
    MatchesOnlyFilter(r, c, v);
    assert [r][1..] == [];
  }

  /**
   * Choosing any listed entry of a drop-down, with the others on "All", never
   * empties the view. The entry shown as "Unknown" for the empty value stores
   * the same value as "All" and so shows every record.
   */
  lemma ChoosingAnOption(c: Category, data: seq<Record>, i: nat)
    requires 1 <= i < |Options(c, data)|
    ensures Filter(data, With(NoSelection, c, Options(c, data)[i].value)) != []
    ensures Options(c, data)[i].value == "" ==>
      && Options(c, data)[i].value == Options(c, data)[0].value
      && Filter(data, With(NoSelection, c, Options(c, data)[i].value)) == data
  {
    var v := Options(c, data)[i].value;
    var col := Column(c, data);
    assert v in OptionValues(c, data);
    if v == "" {
      NoSelectionWithAll(c);
      FilterNoSelection(data);
    } else {
      OnlyFilterCount(data, c, v);
    }
  }

  /** Setting any filter to the "All" value of the initial selection leaves it as it was. */
  lemma NoSelectionWithAll(c: Category)
    ensures With(NoSelection, c, AllValue) == NoSelection
  {
    match c
    case EndYear =>
    case Topic =>
    case Sector =>
    case Region =>
    case Pestle =>
    case Source =>
    case Swot =>
    case Country =>
  }
}
