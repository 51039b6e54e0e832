/**
 * The records the dashboard fetches, the eight categorical dimensions a user
 * can filter on, the filter selection, and projecting one value per record.
 */
module Records {

  /**
   * One insight record. The numeric fields are only ever copied into chart
   * series, never computed with, so they are plain integers here.
   */
  datatype Record = Record(
    id: string,
    endYear: string,
    intensity: int,
    sector: string,
    topic: string,
    insight: string,
    url: string,
    region: string,
    startYear: string,
    impact: string,
    added: string,
    published: string,
    country: string,
    relevance: int,
    pestle: string,
    source: string,
    title: string,
    likelihood: int,
    swot: string)

  /** The eight categorical fields that have a filter drop-down. */
  datatype Category = EndYear | Topic | Sector | Region | Pestle | Source | Swot | Country

  /** The value a record holds in one categorical field. */
  function Value(r: Record, c: Category): string {
    match c
    case EndYear => r.endYear
    case Topic => r.topic
    case Sector => r.sector
    case Region => r.region
    case Pestle => r.pestle
    case Source => r.source
    case Swot => r.swot
    case Country => r.country
  }

  /**
   * The eight filter values the page holds as state; the empty string means
   * "no constraint", which is also what the "All" option selects.
   */
  datatype Selection = Selection(
    endYear: string,
    topic: string,
    sector: string,
    region: string,
    pestle: string,
    source: string,
    swot: string,
    country: string)

  /** The value of the "All" option of every drop-down. */
  const AllValue: string := ""

  /** The selection the page starts with: every filter on "All". */
  const NoSelection: Selection :=
    Selection(AllValue, AllValue, AllValue, AllValue, AllValue, AllValue, AllValue, AllValue)

  /** The filter value currently selected for one category. */
  function Get(sel: Selection, c: Category): string {
    match c
    case EndYear => sel.endYear
    case Topic => sel.topic
    case Sector => sel.sector
    case Region => sel.region
    case Pestle => sel.pestle
    case Source => sel.source
    case Swot => sel.swot
    case Country => sel.country
  }

  /**
   * The selection after a drop-down's change handler stores `v` as the
   * filter for `c`: that filter becomes `v` and the seven others keep theirs.
   */
  function With(sel: Selection, c: Category, v: string): (s: Selection)
    ensures Get(s, c) == v
    ensures forall d :: d != c ==> Get(s, d) == Get(sel, d)
  {
    match c
    case EndYear => sel.(endYear := v)
    case Topic => sel.(topic := v)
    case Sector => sel.(sector := v)
    case Region => sel.(region := v)
    case Pestle => sel.(pestle := v)
    case Source => sel.(source := v)
    case Swot => sel.(swot := v)
    case Country => sel.(country := v)
  }

  /** `rows.map(f)`: one value per record, in record order. */
  function Map<U>(rows: seq<Record>, f: Record -> U): (out: seq<U>)
    ensures |out| == |rows|
    ensures forall i :: 0 <= i < |rows| ==> out[i] == f(rows[i])
  {
    if rows == [] then [] else [f(rows[0])] + Map(rows[1..], f)
  }

  /** The column of one categorical field, `rows.map(item => item.<field>)`. */
  function Column(c: Category, rows: seq<Record>): (col: seq<string>)
    ensures |col| == |rows|
    ensures forall i :: 0 <= i < |rows| ==> col[i] == Value(rows[i], c)
  {
    Map(rows, r => Value(r, c))
  }

  /** The column of one record more is the column so far plus that record's value. */
  lemma ColumnSnoc(c: Category, rows: seq<Record>, n: nat)
    requires n < |rows|
    ensures Column(c, rows[..n + 1]) == Column(c, rows[..n]) + [Value(rows[n], c)]
  {
  }
}
