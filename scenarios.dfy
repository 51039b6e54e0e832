/**
 * Two concrete situations of the dashboard, worked through the chart
 * methods' contracts alone.
 */
module Scenarios {
  import opened Sequences
  import opened Records
  import opened Filtering
  import opened Aggregation
  import opened Series

  /**
   * Three records whose sectors are "Energy", "Energy" and "Retail", with no
   * filter set: the pie chart has the categories "Energy" and "Retail" with
   * counts 2 and 1.
   */
  method SectorPie(r: Record) returns (labels: seq<string>, data: seq<nat>)
    ensures labels == ["Energy", "Retail"]
    ensures data == [2, 1]
  {
    var energy, retail := "Energy", "Retail";
    var rows := [r.(sector := energy), r.(sector := energy), r.(sector := retail)];
    FilterNoSelection(rows);
    assert Column(Sector, rows) == [energy, energy, retail];
    labels, data := PieOfThree(Filter(rows, NoSelection), energy, retail);
  }

  /** The pie chart of records whose sectors are `a`, `a`, `b` in that order. */
  method PieOfThree(rows: seq<Record>, a: string, b: string) returns (labels: seq<string>, data: seq<nat>)
    requires a != b
    requires Column(Sector, rows) == [a, a, b]
    ensures labels == [a, b]
    ensures data == [2, 1]
  {
    labels, data := PieChart(rows);
    TwoCategories(a, b);
  }

  /** Values `a`, `a`, `b` with `a` and `b` different: categories `a`, `b` counted 2 and 1. */
  lemma TwoCategories(a: string, b: string)
    requires a != b
    ensures Distinct([a, a, b]) == [a, b]
    ensures Occurrences([a, a, b], a) == 2 && Occurrences([a, a, b], b) == 1
  {
    var xs := [a, a, b];
    assert xs[..2] == [a, a] && xs[..2][..1] == [a] && xs[..2][..1][..0] == [];
  }

  /**
   * A region filter that no record satisfies: the filtered list is empty and
   * every chart receives empty labels and data.
   */
  method NoMatchingRegion(data: seq<Record>, region: string)
    returns (filtered: seq<Record>, bar: TimeSeries, line: TimeSeries, points: seq<Point>,
             countries: seq<string>, countryCounts: seq<nat>, topics: seq<string>, topicCounts: seq<nat>,
             regions: seq<string>, regionCounts: seq<nat>, sectors: seq<string>, sectorCounts: seq<nat>)
    requires region != ""
    requires forall i :: 0 <= i < |data| ==> data[i].region != region
    ensures filtered == []
    ensures bar == line == TimeSeries([], [], [], [])
    ensures points == []
    ensures countries == topics == regions == sectors == []
    ensures countryCounts == topicCounts == regionCounts == sectorCounts == []
  {
    filtered := Filter(data, With(NoSelection, Region, region));
    bar := BarChartData(filtered);
    line := LineChartData(filtered);
    points := ScatterData(filtered);
    countries, countryCounts := DoughnutChart(filtered);
    topics, topicCounts := PolarAreaChart(filtered);
    regions, regionCounts := RadarChart(filtered);
    sectors, sectorCounts := PieChart(filtered);
  }
}
