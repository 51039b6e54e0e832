# Datavizz dashboard: filter-and-aggregate engine

The dashboard fetches a list of insight records once. It then lets the user
narrow them down with eight drop-down filters: end year, topic, sector,
region, PEST, source, SWOT and country. From the records that remain it
builds the inputs of seven charts. This project models that client-side
engine of the `Charts` component and proves what it computes.

- `records.dfy` (module `Records`): the record, the eight filterable
  categories, the selection of eight filter values (the empty string means
  "All"), the drop-down change handler (`With`), and per-record projection
  (`Map`, `Column`).
- `filtering.dfy` (module `Filtering`): the conjunctive filter run by the
  page's effect. It keeps a record when, for each category, the filter is empty
  or equals the record's value. Proved: the result is an order-preserving
  subsequence of the data, it is sound and complete, each record keeps its
  multiplicity, "All" everywhere returns the data unchanged, and filtering
  is idempotent.
- `sequences.dfy` (module `Sequences`): first-seen deduplication (`Distinct`,
  the value of `[...new Set(xs)]`), occurrence counts, first index, sums and
  subsequences, with the lemmas the aggregation rests on.
- `aggregation.dfy` (module `Aggregation`): the group-and-count repeated for
  the doughnut (country), polar-area (topic), radar (region) and pie (sector)
  charts. It is imperative, like the `reduce` it models. `FindIndex` is the
  linear `findIndex`. `Bump` is the callback that either pushes `{key, 1}` or
  increments a count in place. `Tally` is the loop. It is proved equal to the
  pure specification: keys = `Distinct` of the column, counts = occurrences.
  `CategoryChart` therefore proves that the separately computed `new Set`
  labels and `reduce` counts line up index by index. Each count is at least
  one, the counts sum to the number of filtered records, and there are as many
  categories as distinct values, `""` included. The four chart methods are
  instances of it.
- `series.dfy` (module `Series`): the bar, line and scatter projections. The
  labels are `start_year || "Unknown"`.
- `options.dfy` (module `Options`): the drop-down entries. Each drop-down shows
  "All", then the distinct values of the unfiltered data in first-seen order.
  An entry's text is `"Unknown"` for an empty value, and its stored value is
  the field value itself.
- `scenarios.dfy` (module `Scenarios`): two worked situations, the
  Energy/Energy/Retail pie and a region filter nothing satisfies.

Some properties are not visible from the code's shape alone:
- The entry displayed as "Unknown" stores `""`. That is the value of "All".
  Choosing it alone therefore shows every record, not the records whose field
  is empty (`Options.ChoosingAnOption`).
- Any other listed value, chosen alone, keeps exactly as many records as hold
  that value (`Options.OnlyFilterCount`). So, when every field value is a
  string, no drop-down entry empties the view by itself.
- A bar or line label reads "Unknown" both for an empty start year and for a
  start year that is literally the text "Unknown" (`Series.YearLabelUnknown`).

The component has four group-and-count blocks (doughnut, polar area, radar,
pie), and the model has one instance for each.

## Model

| member | source | states |
|---|---|---|
| `Filtering.Filter` | Frontend/src/App.tsx:47-58 | every kept record is a record of the data and satisfies the eight-way predicate; no more records than the data |
| `Filtering.MatchesEveryCategory` | Frontend/src/App.tsx:49-56 | `Matches`, the filter's predicate, holds iff, for every category, the filter is empty or equals the record's value (both directions) |
| `Filtering.FilterIsSubsequence` | Frontend/src/App.tsx:47-58 | the filtered list is a subsequence of the data: records dropped, order kept |
| `Filtering.FilterKeepsEveryMatch` | Frontend/src/App.tsx:47-58 | completeness: a record of the data that satisfies the predicate is in the result |
| `Filtering.FilterMultiplicity` | Frontend/src/App.tsx:47-58 | each record occurs in the result as often as in the data if it matches, else not at all |
| `Filtering.FilterNoSelection` | Frontend/src/App.tsx:33-58 | with all eight filters at their initial `""` the result is the data unchanged |
| `Filtering.FilterIdempotent` | Frontend/src/App.tsx:44-71 | re-running the filter on its own output with the same selection changes nothing |
| `Filtering.FilterAppend` | Frontend/src/App.tsx:47-58 | filtering a concatenation is the concatenation of the filtered parts |
| `Filtering.EmptyValueDropsCondition` | Frontend/src/App.tsx:49-56 | setting one filter to `""` removes that category's condition and keeps the other seven |
| `Records.With` | Frontend/src/App.tsx:277-279 | the end-year change handler, and the seven handlers that follow it (lines 296, 313, 330, 347, 364, 381, 398), each set exactly their own filter to the chosen value and leave the other seven alone |
| `Records.Map` | Frontend/src/App.tsx:87 | `.map`: one output per record, output i is the function applied to record i |
| `Records.Column` | Frontend/src/App.tsx:109 | the projected column has one entry per record, entry i being record i's field value |
| `Sequences.Distinct` | Frontend/src/App.tsx:109 | the `new Set` labels: duplicate-free and holding exactly the values of the input |
| `Sequences.DistinctIsFirstSeenOrder` | Frontend/src/App.tsx:109 | labels appear in the order of their first occurrence in the input |
| `Sequences.DistinctCardinality` | Frontend/src/App.tsx:109 | there are as many labels as distinct values in the input |
| `Sequences.Occurrences` | Frontend/src/App.tsx:115-118 | a value's count is zero exactly when the value does not occur, and never exceeds the length |
| `Sequences.FirstIndex` | Frontend/src/App.tsx:114 | the first position holding the value: it holds the value and no earlier position does |
| `Sequences.CountsOfDistinctSumToLength` | Frontend/src/App.tsx:112-122 | conservation: the counts of the distinct values sum to the number of records |
| `Aggregation.FindIndex` | Frontend/src/App.tsx:114 | `findIndex` returns -1 when no bucket has the key, else the first bucket with it |
| `Aggregation.Bump` | Frontend/src/App.tsx:113-120 | the reducer callback pushes `{key, 1}` for a new key or increments the first bucket with that key |
| `Aggregation.BumpedCounts` | Frontend/src/App.tsx:113-120 | `Bumped`, the accumulator after one callback step, keeps the buckets equal to the distinct keys seen, each counting its own key |
| `Aggregation.Tally` | Frontend/src/App.tsx:112-121 | the `reduce` yields buckets whose keys are the first-seen distinct values and whose counts are their occurrences |
| `Aggregation.CategoryChart` | Frontend/src/App.tsx:108-133 | labels are the first-seen distinct values; the data are `Counts` of the `reduce` buckets (the `.map(item => item.count)` at line 122) and align with the labels; each at least 1; counts sum to the record count; one label per distinct value |
| `Aggregation.DoughnutChart` | Frontend/src/App.tsx:108-133 | the country chart: first-seen distinct labels, one per distinct value; aligned counts, each at least 1, summing to the record count |
| `Aggregation.PolarAreaChart` | Frontend/src/App.tsx:178-203 | the same for topics |
| `Aggregation.RadarChart` | Frontend/src/App.tsx:206-231 | the same for regions |
| `Aggregation.PieChart` | Frontend/src/App.tsx:234-259 | the same for sectors |
| `Series.BarChartData` | Frontend/src/App.tsx:86-105 | labels and three series all as long as the records; label i is the start year or "Unknown" if empty; series i are record i's values |
| `Series.LineChartData` | Frontend/src/App.tsx:136-161 | the same for the line chart |
| `Series.LineChartIsBarChart` | Frontend/src/App.tsx:137-159 | the line chart carries exactly the bar chart's labels and series |
| `Series.ScatterData` | Frontend/src/App.tsx:164-175 | one point per record, point i is record i's (intensity, relevance) |
| `Series.YearLabelUnknown` | Frontend/src/App.tsx:87 | `YearLabel`, a record's time-axis label, is "Unknown" iff the start year is empty or literally "Unknown"; otherwise it is the start year |
| `Options.Entries` | Frontend/src/App.tsx:285-288 | one entry per value, storing the value and showing `OptionText` of it: "Unknown" for the empty value, the value itself otherwise |
| `Options.Options` | Frontend/src/App.tsx:284-289 | "All" with value `""` first, then one entry per distinct value of the unfiltered data, text "Unknown" for the empty value, the value itself otherwise |
| `Options.OptionValuesAreTheFieldValues` | Frontend/src/App.tsx:285 | `OptionValues`, the listed values, are duplicate-free, each held by some record, and every record's value is listed |
| `Options.OptionValuesFirstSeen` | Frontend/src/App.tsx:285 | option values appear in the order in which the full data first shows them |
| `Options.MatchesOnlyFilter` | Frontend/src/App.tsx:49-56 | with a single filter set, a record matches iff that value is empty or equals the record's value |
| `Options.OnlyFilterCount` | Frontend/src/App.tsx:47-58 | choosing a non-empty value alone keeps as many records as hold that value |
| `Options.ChoosingAnOption` | Frontend/src/App.tsx:277-289 | with string-valued fields, any listed entry chosen alone leaves a non-empty view; the empty-value entry stores the "All" value and shows all records |
| `Options.NoSelectionWithAll` | Frontend/src/App.tsx:284 | choosing "All" on the initial selection leaves the selection unchanged |
| `Scenarios.SectorPie` | Frontend/src/App.tsx:234-259 | sectors Energy, Energy, Retail, no filter: the pie has categories Energy, Retail with counts 2, 1 |
| `Scenarios.PieOfThree` | Frontend/src/App.tsx:234-259 | records with sectors a, a, b give the pie categories a, b with counts 2, 1 |
| `Scenarios.NoMatchingRegion` | Frontend/src/App.tsx:86-259 | a region filter no record has: empty filtered list and empty labels and data for all seven charts |

## Left out

- React state and effects (`useState`, `useEffect` dependencies): the filtered list is modelled as the pure function of the data and the selection that the effect recomputes. Keeping a stale list until the effect runs is not modelled.
- The "Loading..." branch (Frontend/src/App.tsx:73-83) and the null-to-loaded transition of the data: choices of UI lifecycle, not of the engine.
- Chart.js registration and rendering, colours, CSS classes, chart options and titles: presentation only.
- The numeric fields are JavaScript numbers in the source. Here they are `int`, because they are only copied into series and never computed with.
- Frontend/src/context/ThemeContext.tsx: the fetch to the backend, the `localStorage` theme flag and `toggleTheme` are I/O and framework plumbing. That file types `end_year` and `start_year` as `string | number` and `swot` as `any`, and the option lists at Frontend/src/App.tsx:285-408 are built from those records; only the filter at Frontend/src/App.tsx:47-58 reads them through the all-`string` interface of Frontend/src/App.tsx:9-29. The model gives every field a string value. It therefore does not capture a numeric end year (its option stores the text "2027", which never `===` the number 2027, so choosing it empties the view), a non-string `swot`, or a field missing from a record (`undefined` is its own category in `Set` and `findIndex`, and its `<option>` submits its text "Unknown").
- Backend/server.js is not part of this model. It is an HTTP route that runs a database query limited to 50 documents and returns a 500 error on failure.
- React `key` attributes on the options: duplicate keys cannot arise, because the values are deduplicated, and keys do not affect what is shown.
