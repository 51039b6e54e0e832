/**
 * The per-record projections behind the bar, line and scatter charts: one
 * label and one value per filtered record, in record order.
 */
module Series {
  import opened Records

  /** The text standing for a record on the time axis: `start_year || "Unknown"`. */
  function YearLabel(r: Record): string {
    if r.startYear == "" then "Unknown" else r.startYear
  }

  /** Time-axis labels and the three numeric series drawn against them. */
  datatype TimeSeries = TimeSeries(
    labels: seq<string>,
    intensity: seq<int>,
    likelihood: seq<int>,
    relevance: seq<int>)

  /** A point of the scatter chart: intensity across, relevance up. */
  datatype Point = Point(x: int, y: int)

  /**
   * The bar chart's data: for record `i`, label `i` is its start year, or
   * "Unknown" when that is empty, and entry `i` of each series is the
   * record's own value.
   */
  function BarChartData(rows: seq<Record>): (chart: TimeSeries)
    ensures |chart.labels| == |chart.intensity| == |chart.likelihood| == |chart.relevance| == |rows|
    ensures forall i :: 0 <= i < |rows| ==>
      && chart.labels[i] == (if rows[i].startYear != "" then rows[i].startYear else "Unknown")
      && chart.intensity[i] == rows[i].intensity
      && chart.likelihood[i] == rows[i].likelihood
      && chart.relevance[i] == rows[i].relevance
  {
    TimeSeries(
      Map(rows, YearLabel),
      Map(rows, (r: Record) => r.intensity),
      Map(rows, (r: Record) => r.likelihood),
      Map(rows, (r: Record) => r.relevance))
  }

  /** The line chart's data, built the same way as the bar chart's. */
  function LineChartData(rows: seq<Record>): (chart: TimeSeries)
    ensures |chart.labels| == |chart.intensity| == |chart.likelihood| == |chart.relevance| == |rows|
    ensures forall i :: 0 <= i < |rows| ==>
      && chart.labels[i] == (if rows[i].startYear != "" then rows[i].startYear else "Unknown")
      && chart.intensity[i] == rows[i].intensity
      && chart.likelihood[i] == rows[i].likelihood
      && chart.relevance[i] == rows[i].relevance
  {
    TimeSeries(
      Map(rows, YearLabel),
      Map(rows, (r: Record) => r.intensity),
      Map(rows, (r: Record) => r.likelihood),
      Map(rows, (r: Record) => r.relevance))
  }

  /** The scatter chart's data: point `i` is record `i`'s (intensity, relevance). */
  function ScatterData(rows: seq<Record>): (points: seq<Point>)
    ensures |points| == |rows|
    ensures forall i :: 0 <= i < |rows| ==> points[i] == Point(rows[i].intensity, rows[i].relevance)
  {
    Map(rows, (r: Record) => Point(r.intensity, r.relevance))
  }

  /** The bar and line charts always draw the same labels and series. */
  lemma LineChartIsBarChart(rows: seq<Record>)
    ensures LineChartData(rows) == BarChartData(rows)
  {
    var line, bar := LineChartData(rows), BarChartData(rows);
    assert line.labels == bar.labels;
    assert line.intensity == bar.intensity;
    assert line.likelihood == bar.likelihood;
    assert line.relevance == bar.relevance;
  }

  /**
   * A label reads "Unknown" exactly when the start year is empty or is itself
   * the text "Unknown"; any other label is the start year unchanged.
   */
  lemma YearLabelUnknown(r: Record)
    ensures YearLabel(r) == "Unknown" <==> r.startYear == "" || r.startYear == "Unknown"
    ensures r.startYear != "" ==> YearLabel(r) == r.startYear
  {
  }
}
