# Trend charts of the executive dashboard, in Dafny

This project models how the dashboard turns its aggregated tables into trend charts.

- **The backend.** Three FastAPI endpoints in `backend/main.py` walk a grouped table. For every
  division, district or facility they build two parallel series of `{key, value}` points: revenue
  and net profit per `"<year> <quarter>"` period, incidents and safety score per date, production
  volume and quality score per date. The supply-chain endpoint also builds one performance report
  per facility from the records of the latest date, with two clamped metrics.
- **The frontend.** Three React components (`FinancialChart`, `SecurityChart`, `SupplyChainChart`)
  pivot those series into one row per point of the first primary series. Each row holds a column
  `"<name> <Suffix>"` per series, found by looking the row's key up in that series (first match,
  `|| 0` when it is missing). They then draw one line per series and rewrite tooltip labels.

Module layout:

| file | module | models |
|---|---|---|
| `series_model.dfy` | `Wrappers`, `SeriesModel` | `Option`, a series and its points, `find(...)?.value \|\| 0` |
| `text.dfy` | `Text` | `String.includes`, `String.replace` with a string pattern (first occurrence only) |
| `pivot.dfy` | `Pivot` | the pivot, the guard and the line list the three components share |
| `financial_chart.dfy`, `security_chart.dfy`, `supply_chain_chart.dfy` | one per component | each component's keys, suffixes, colours, placeholder text and tooltip |
| `python_semantics.dfy` | `PythonSemantics` | `str` ordering and `max`, `int(float)`, integer rendering in f-strings, `Series.unique()` |
| `backend_trends.dfy` | `BackendTrends` | the series-building loops of the three trend endpoints, as methods with loop invariants |
| `facilities.dfy` | `Facilities` | the facility-performance loop and its clamps |
| `dashboard.dfy` | `Dashboard` | the backend's series fed to the charts: what every chart cell then shows |

Modelling choices:

- **The grouped table.** The result of `groupby(...).agg(...).reset_index()` is the input
  sequence `seq<TrendRow<K>>`. Each row holds the entity, the bucket (a `Period` or a date string)
  and the two aggregated measures. `.iloc[0]` is `FirstRow`: the first row for that entity and
  bucket.
- **One specification per loop pair.** A backend loop pair is specified by `Collect`, which
  appends a point exactly when the bucket has a row. The methods are proved equal to it.
- **`int(...)` on a value** is `Truncate` (`Measure.WholeFirst`).
- **Parameters.** Date and number rendering in the frontend are function parameters:
  `monthLabel` for `toLocaleDateString`, `shown` for template rendering, `localised` for
  `toLocaleString`.
- **Safe inputs only.** A payload whose rendering would throw in JavaScript is excluded by
  `RendersSafely`. Examples: a missing secondary group, or a series without `data` while a row is
  being built.
- **Tooltips as written.** The tooltip rules test the whole label, not its suffix, and rewrite
  the first `" Safety"` (or `" Production"`, ...) anywhere in it. The model keeps this behaviour:
  - `SecurityChart.IncidentsLineOfSafetyNamedDistrict` and
    `SupplyChainChart.QualityLineOfProductionNamedFacility`: the other line of a series whose name
    includes "Safety" (or "Production") takes that word's value format, and its label is the first
    `" Safety"` (or `" Production"`) rewritten.
  - `SecurityChart.SafetyTownIncidents`: for a district "Safety Town" the incidents line is shown
    out of 10 and keeps its label "Safety Town Incidents", which holds no `" Safety"`.
  - `SecurityChart.NewSafetyOwnLine`: for a district "New Safety" its own safety line is labelled
    "New Safety Score Safety".

## Model

| member | source | states |
|---|---|---|
| SeriesModel.FindIndex | frontend/app/components/FinancialChart.tsx:23 | the index found is the first point whose key matches; none exists exactly when no key matches |
| SeriesModel.Lookup | frontend/app/components/FinancialChart.tsx:23-24 | a cell takes the value of the first point with the row's key, and 0 when there is none |
| SeriesModel.LookupOwnKey | frontend/app/components/FinancialChart.tsx:23-24 | in a series whose keys are all different, looking up a point's own key gives that point's value |
| Text.IndexFrom | frontend/app/components/SecurityChart.tsx:50-51 | the position found is the first occurrence of the pattern at or after the start; none means no occurrence there |
| Text.IndexOf | frontend/app/components/SecurityChart.tsx:50-51 | the position found is the first occurrence of the pattern; none means it occurs nowhere |
| Text.Includes | frontend/app/components/SecurityChart.tsx:50-51 | `includes` holds exactly when the pattern occurs somewhere |
| Text.ReplaceFirst | frontend/app/components/SecurityChart.tsx:50-51 | without an occurrence the string is unchanged; otherwise exactly the first occurrence is replaced, and the length changes by the difference of the two lengths |
| Text.SuffixIsFirstOccurrence | frontend/app/components/SecurityChart.tsx:50-51 | when a name lacks a word, the first `" " + word` in `name + " " + word` is the appended one |
| Text.LabelIncludesWord | frontend/app/components/SecurityChart.tsx:50-51 | a label built as name, space, word includes the word |
| Text.RewriteLabelSuffix | frontend/app/components/SecurityChart.tsx:50 | when a name lacks a space-free word, `replace` rewrites exactly the label's own suffix |
| Text.LabelExcludes | frontend/app/components/SecurityChart.tsx:50-51 | appending a word that lacks another word's first letter cannot make a label include that other word |
| Text.IncludesExtended | frontend/app/components/SecurityChart.tsx:50-51 | a string that includes a pattern still does after anything is appended |
| Pivot.GroupColumns | frontend/app/components/FinancialChart.tsx:22-26 | the `reduce` writes one column per series name; the last series of each name sets it to its looked-up value; other keys keep their value |
| Pivot.ChartData | frontend/app/components/FinancialChart.tsx:20-32 | no rows when the first primary series or its data is missing; otherwise one row per reference point, in order, keyed by the reference key's label |
| Pivot.SinglePairRow | frontend/app/components/FinancialChart.tsx:20-32 | with one series per group, a row holds exactly the two looked-up cells |
| Pivot.SingleSeriesColumns | frontend/app/components/FinancialChart.tsx:22-26 | folding one series gives exactly its one looked-up column |
| Pivot.LabelsDisjoint | frontend/app/components/FinancialChart.tsx:20-32 | primary and secondary column names never collide, and the x-axis key is never a column, so the object spread loses nothing |
| Pivot.CellValues | frontend/app/components/FinancialChart.tsx:22-31 | in row `i`, each series that is last of its name gives its column the value looked up by the reference key |
| Pivot.Render | frontend/app/components/FinancialChart.tsx:11-17 | the placeholder is shown exactly when the payload or its primary group is missing; otherwise the rows, the x-axis key and the two line lists |
| Pivot.Lines | frontend/app/components/FinancialChart.tsx:55-75 | one line per series of the group, in order: id and data key from the series name, colour `colors[i % len]` (always a palette colour), and the group's dashing |
| Pivot.LineKeysOfGroup | frontend/app/components/FinancialChart.tsx:55-75 | the data keys of a group's lines are exactly the group's column names |
| Pivot.ColumnsAreLineKeys | frontend/app/components/FinancialChart.tsx:20-75 | every row's columns are exactly the data keys of the drawn lines, and never the x-axis key |
| Pivot.LineLayout | frontend/app/components/FinancialChart.tsx:55-75 | primary line `i`, then secondary line `i`: id, data key, colour `colors[i % len]`, and dashing for the secondary lines |
| FinancialChart.Config | frontend/app/components/FinancialChart.tsx:14-41 | the financial chart's keys and suffixes are well formed |
| FinancialChart.FinancialChart | frontend/app/components/FinancialChart.tsx:11-17 | placeholder "No financial data available" exactly when data or `revenue_trends` is missing; x-axis key "period" |
| FinancialChart.FinancialRows | frontend/app/components/FinancialChart.tsx:20-32 | one row per revenue point of the first division, keyed by its period |
| FinancialChart.FinancialCells | frontend/app/components/FinancialChart.tsx:22-31 | the `"<name> Revenue"` and `"<name> Profit"` cells hold the series' values for the row's period, else 0 |
| FinancialChart.FinancialLines | frontend/app/components/FinancialChart.tsx:34-75 | revenue and profit lines: keys, data keys, colours from the five-colour palette, dashed profit lines; every row's columns are the lines' data keys |
| FinancialChart.Tooltip | frontend/app/components/FinancialChart.tsx:48-53 | the value is shown as `$<localised>M` and the name is unchanged |
| FinancialChart.GothamCells | frontend/app/components/FinancialChart.tsx:20-32 | for a one-division payload, row `i` is the period with exactly its revenue and looked-up profit |
| FinancialChart.GothamExample | frontend/app/components/FinancialChart.tsx:20-32 | a concrete payload: a period missing from the profit series shows profit 0 |
| SecurityChart.Config | frontend/app/components/SecurityChart.tsx:14-41 | the security chart's keys and suffixes are well formed |
| SecurityChart.SecurityChart | frontend/app/components/SecurityChart.tsx:11-17 | placeholder exactly when data or `safety_trends` is missing; x-axis key "date" |
| SecurityChart.SecurityRows | frontend/app/components/SecurityChart.tsx:20-21 | one row per safety point of the first district, labelled with the month of its date |
| SecurityChart.SecurityCells | frontend/app/components/SecurityChart.tsx:22-31 | cells are looked up by the raw date, not by the month label |
| SecurityChart.SameMonthStillSeparateRows | frontend/app/components/SecurityChart.tsx:20-31 | two dates of one month give two rows with equal labels, each with its own date's values |
| SecurityChart.SecurityLines | frontend/app/components/SecurityChart.tsx:34-76 | safety lines, then dashed incidents lines, with the six-colour palette; columns equal the lines' data keys |
| SecurityChart.Tooltip | frontend/app/components/SecurityChart.tsx:49-52 | a label including "Safety" shows `<value>/10` and has its first `" Safety"` replaced by `" Safety Score"`; otherwise one including "Incidents" shows the raw value and has its first `" Incidents"` replaced by `" Security Incidents"`; any other label passes through with the raw value; no label gets shorter |
| SecurityChart.SafetyLineTooltip | frontend/app/components/SecurityChart.tsx:50 | a safety line shows `<value>/10` and is labelled `"<district> Safety Score"` |
| SecurityChart.IncidentsLineTooltip | frontend/app/components/SecurityChart.tsx:51 | an incidents line shows the raw value and is labelled `"<district> Security Incidents"` |
| SecurityChart.IncidentsLineOfSafetyNamedDistrict | frontend/app/components/SecurityChart.tsx:50 | the incidents line of a district whose name includes "Safety" is shown out of 10, and its label has its first `" Safety"` rewritten |
| SecurityChart.SafetyTownIncidents | frontend/app/components/SecurityChart.tsx:50 | district "Safety Town": the incidents line is shown out of 10 and keeps the label "Safety Town Incidents" |
| SecurityChart.NewSafetyOwnLine | frontend/app/components/SecurityChart.tsx:50 | district "New Safety": its own safety line is labelled "New Safety Score Safety" |
| SecurityChart.OtherTooltip | frontend/app/components/SecurityChart.tsx:52 | any other label is passed through unchanged, with the raw value |
| SupplyChainChart.Config | frontend/app/components/SupplyChainChart.tsx:14-41 | the supply-chain chart's keys and suffixes are well formed |
| SupplyChainChart.SupplyChainChart | frontend/app/components/SupplyChainChart.tsx:11-17 | placeholder exactly when data or `production_trends` is missing; x-axis key "date" |
| SupplyChainChart.SupplyChainRows | frontend/app/components/SupplyChainChart.tsx:20-21 | one row per production point of the first facility, labelled with its month |
| SupplyChainChart.SupplyChainCells | frontend/app/components/SupplyChainChart.tsx:22-31 | production and quality cells are looked up by the raw date |
| SupplyChainChart.SupplyChainLines | frontend/app/components/SupplyChainChart.tsx:34-76 | production lines, then dashed quality lines, with the six-colour palette; columns equal the lines' data keys |
| SupplyChainChart.Tooltip | frontend/app/components/SupplyChainChart.tsx:49-52 | a label including "Production" shows `<localised> units` and has its first `" Production"` replaced by `" Production Volume"`; otherwise one including "Quality" shows `<value>%` and has its first `" Quality"` replaced by `" Quality Score"`; any other label passes through unchanged with the raw value; no label gets shorter |
| SupplyChainChart.ProductionLineTooltip | frontend/app/components/SupplyChainChart.tsx:50 | a production line shows `<localised> units` and is labelled `"<facility> Production Volume"` |
| SupplyChainChart.QualityLineTooltip | frontend/app/components/SupplyChainChart.tsx:51 | a quality line shows `<value>%` and is labelled `"<facility> Quality Score"` |
| SupplyChainChart.QualityLineOfProductionNamedFacility | frontend/app/components/SupplyChainChart.tsx:50 | the quality line of a facility whose name includes "Production" is shown in units, and its label has its first `" Production"` rewritten |
| SupplyChainChart.OtherTooltip | frontend/app/components/SupplyChainChart.tsx:52 | any other label is passed through unchanged, with the raw value |
| PythonSemantics.SubsequenceNoDuplicates | backend/main.py:135-147 | leaving buckets out of a repeat-free list leaves it repeat-free |
| PythonSemantics.StrLessTransitive | backend/main.py:221 | string order is transitive |
| PythonSemantics.StrLessTotal | backend/main.py:221 | any two different strings are ordered |
| PythonSemantics.MaxString | backend/main.py:310 | `max` of the dates is one of them and no date is greater |
| PythonSemantics.Truncate | backend/main.py:242 | `int()` truncates toward zero, for both signs |
| PythonSemantics.DigitsValueOfNatToString | backend/main.py:140 | reading an integer's decimal rendering back gives the integer |
| PythonSemantics.IntToStringNoSpace | backend/main.py:140 | an integer's rendering holds no space |
| PythonSemantics.IntToStringInjective | backend/main.py:140 | different years render differently |
| PythonSemantics.Distinct | backend/main.py:117-119 | `unique()` has no repeats, keeps exactly the values of the column, and lists them as a subsequence of the column (order of first appearance: `DistinctOfPrefix`) |
| PythonSemantics.DistinctOfPrefix | backend/main.py:315 | the distinct values of a prefix come first and in the same order, so values are listed by first appearance |
| BackendTrends.PeriodLabel | backend/main.py:140 | a period label is the year's rendering, which holds no space, then a space, then the quarter |
| BackendTrends.PointAt | backend/main.py:137-146 | a bucket contributes at most one point, and one exactly when the table has a row for it |
| BackendTrends.Collect | backend/main.py:135-147 | a series never has more points than there are buckets |
| BackendTrends.FirstRow | backend/main.py:137-141 | `.iloc[0]` of the selection is the first row for the entity and bucket; none exactly when no row matches |
| BackendTrends.CollectAppend | backend/main.py:135-146 | one more bucket appends at most that bucket's point |
| BackendTrends.BucketsWithRows | backend/main.py:137-138 | the buckets with a row are exactly the listed buckets having one, in the buckets' order |
| BackendTrends.CollectIsFilteredBuckets | backend/main.py:135-146 | the series holds one point per bucket with a row, in order, labelled and valued from that bucket's first row |
| BackendTrends.PairedSeriesShareKeys | backend/main.py:138-146 | both series of an entity have the same key list |
| BackendTrends.PointIffRow | backend/main.py:137-146 | a bucket gets a point exactly when the table has a row for it |
| BackendTrends.SeriesKeysAreSubsequence | backend/main.py:135-146 | a series' keys are the bucket labels with some left out, in order |
| BackendTrends.LookupCollect | backend/main.py:135-146 | with distinct labels, looking a bucket's label up in the series gives that bucket's first-row value, or 0 |
| BackendTrends.SameLabelSameBucket | backend/main.py:140 | distinct labels mean distinct buckets |
| BackendTrends.SeriesGroup | backend/main.py:124-149 | one series per entity, in entity order, named after it |
| BackendTrends.PeriodLabelInjective | backend/main.py:140 | different `(year, quarter)` pairs give different period labels |
| BackendTrends.ProductYearMajor | backend/main.py:135-136 | the nested loops visit `(years[y], quarters[q])` at position `y * |quarters| + q` |
| BackendTrends.ProductMembers | backend/main.py:135-136 | every visited period's year is one of the listed years |
| BackendTrends.ProductDistinct | backend/main.py:135-136 | distinct years and quarters give distinct periods |
| BackendTrends.ProductLabelsDistinct | backend/main.py:135-140 | with distinct years and quarters, the labels of the visited periods never repeat |
| BackendTrends.Periods | backend/main.py:155 | `periods` labels the visited periods one to one, in visiting order, and has no repeats when years and quarters have none |
| BackendTrends.FinancialSeries | backend/main.py:124-149 | one revenue (or profit) series per division, over all periods, year-major |
| BackendTrends.DivisionPoints | backend/main.py:135-146 | the nested year and quarter loops compute exactly the division's revenue and profit series |
| BackendTrends.FinancialTrends | backend/main.py:124-155 | the endpoint's `revenue_trends`, `profit_trends` and `periods` |
| BackendTrends.FinancialSeriesShape | backend/main.py:124-155 | each division's two series are named after it and share their period list, a subsequence of `periods` |
| BackendTrends.DateSeries | backend/main.py:226-250 | one series per entity over the sorted dates, dates emitted unchanged |
| BackendTrends.EntityPoints | backend/main.py:237-247 | the date loop computes exactly the entity's two series, the first measure truncated by `int()` |
| BackendTrends.DateTrends | backend/main.py:226-250 | the outer loop computes the two series groups of every entity |
| BackendTrends.SecurityTrends | backend/main.py:226-250 | `incidents_trends` is the whole incident count and `safety_trends` the mean safety score |
| BackendTrends.SupplyChainTrends | backend/main.py:364-388 | `production_trends` is the whole production volume and `quality_trends` the mean quality score |
| BackendTrends.BucketsWithRowsIncrease | backend/main.py:221-239 | over sorted, de-duplicated dates, the dates with a row strictly increase |
| BackendTrends.DateSeriesIncrease | backend/main.py:221-247 | a date series' dates strictly increase, so no date appears twice |
| Facilities.MeanBounds | backend/main.py:319 | a mean lies within the bounds of its values |
| Facilities.SumIntNonNegative | backend/main.py:320 | a sum of non-negative counts is non-negative |
| Facilities.OperationalEfficiency | backend/main.py:321 | efficiency is never negative, and is 0 or mean quality less two points per disruption, whichever is larger |
| Facilities.EfficiencyAtMostQuality | backend/main.py:321 | with non-negative mean quality and non-negative disruptions, efficiency never exceeds mean quality |
| Facilities.EfficiencyNonIncreasing | backend/main.py:321 | more disruptions never raise efficiency |
| Facilities.CapacityUtilisation | backend/main.py:327 | utilisation is volume/200000 as a percentage, capped at 100 |
| Facilities.UtilisationMonotone | backend/main.py:327 | utilisation grows with volume and is non-negative for non-negative volume |
| Facilities.AtDate | backend/main.py:311 | every selected row is of that date |
| Facilities.AtDateSelects | backend/main.py:311 | the selected rows are exactly the records of that date, each as often as it occurs, as a subsequence of the records |
| Facilities.OfFacility | backend/main.py:316 | every selected row is of that facility |
| Facilities.OfFacilitySelects | backend/main.py:316 | a facility's rows are exactly the given rows of that facility, each as often as it occurs, as a subsequence of them |
| Facilities.LatestRecords | backend/main.py:310-311 | no rows for no records; otherwise some rows, and exactly the records of the latest date |
| Facilities.LatestFacilities | backend/main.py:315 | the facilities of the latest rows, each once, and every one of them listed |
| Facilities.Report | backend/main.py:316-349 | name, type and rating from the first row; quality, lead time, cost, turnover and footprint are means; disruptions and capacity are sums; efficiency is max(0, quality − 2·disruptions); utilisation is capacity/2000 capped at 100; vendor count is the truncated mean |
| Facilities.LatestDate | backend/main.py:310 | the latest date is a record's date and no record's date is greater |
| Facilities.GroupNonEmpty | backend/main.py:315-316 | a facility of the latest rows has at least one row, so its means exist |
| Facilities.ReportsOf | backend/main.py:314-349 | one report per listed facility, named after it, in order |
| Facilities.FacilityReports | backend/main.py:314-349 | one report per facility of the latest date, report `i` named after facility `i` |
| Facilities.FacilityPerformance | backend/main.py:310-349 | the loop, whose body computes each field as `Report` states, yields exactly `FacilityReports`: one report per distinct facility of the latest date, in order of first appearance |
| Facilities.ReportsOfAt | backend/main.py:314-349 | report `i` is facility `i`'s report from its own rows |
| Facilities.ReportsFollowFacilities | backend/main.py:314-349 | the reports follow the facilities of the latest date, one each |
| Facilities.ReportNamesDistinct | backend/main.py:315-336 | no facility is reported twice |
| Facilities.EveryLatestFacilityReported | backend/main.py:311-336 | every facility with a record of the latest date is reported |
| Facilities.LatestRowsAreLatest | backend/main.py:310-311 | the rows read are records of a date no record exceeds |
| Facilities.GroupReportBounds | backend/main.py:319-333 | from bounded rows: quality score within [0, 100], efficiency within [0, quality score], utilisation within [0, 100] |
| Facilities.ReportBounds | backend/main.py:314-349 | the same bounds for every reported facility, given bounded records |
| Facilities.NoDisruptionsFullEfficiency | backend/main.py:321 | without disruptions, efficiency equals the quality score |
| Dashboard.ChartOfBackendSeries | backend/main.py:124-149 | charting two series groups from one table: row `i` is the first entity's `i`-th bucket with a row, and every entity's two cells hold its first-row values for that bucket, or 0 |
| Dashboard.FinancialDashboard | frontend/app/components/FinancialChart.tsx:20-32 | the financial chart over the financial endpoint's series shows each division's revenue and profit for the row's period, or 0 |
| Dashboard.SecurityDashboard | frontend/app/components/SecurityChart.tsx:20-32 | the security chart over the security endpoint's series shows each district's mean safety score and whole incident count for the row's date, or 0 |
| Dashboard.SupplyChainDashboard | frontend/app/components/SupplyChainChart.tsx:20-32 | the supply-chain chart over its endpoint's series shows each facility's whole volume and mean quality for the row's date, or 0 |

## Left out

- `round(..., 2)` and `round(..., 1)` (backend/main.py:141, 145, 246, 338-348, 384) are not modelled: values are exact reals and rounding is the identity. Float sums and means are exact real arithmetic.
- BackendTrends.FinancialTrends, BackendTrends.SecurityTrends, BackendTrends.SupplyChainTrends: these state the series unrounded, because `round` is not modelled.
- Facilities.FacilityPerformance: the rounded fields are stated unrounded, for the same reason.
- Facilities.Report: the fields that the endpoint rounds are stated unrounded, for the same reason.
- pandas `groupby(...).agg(...).reset_index()` (backend/main.py:109-114, 214-217, 352-355) and the CSV loading are not modelled; the grouped table is an input.
- The uniques and sorting that produce `divisions`, `years`, `quarters`, `districts`, `facilities` and `dates` (backend/main.py:117-119, 220-221, 358-359) are inputs. `Distinct`, `StrictlyIncreasing` and `MaxString` describe them.
- The other endpoints and the other parts of these endpoints are not part of this model, nor is the FastAPI/HTTP plumbing. The other parts include `district_performance` and the `HTTPException` paths, including the `supply_chain_data is None` check.
- `max()` over an empty table: pandas gives NaN and no rows match. This is modelled as no reports.
- NaN and `|| 0` on falsy non-numbers are not modelled. Values are numbers, so only a missing point gives 0; a stored value of 0 stays 0 either way.
- Date and number formatting in the browser (`toLocaleDateString`, `toLocaleString`, template rendering) are function parameters.
- Payloads that would make a component throw are excluded by `Pivot.RendersSafely`, for example a missing secondary group.
- recharts styling (stroke width, dot radius, axis angle and font size) and the drawing itself are not modelled.
- HRChart, RDChart and the pages that fetch the data are not part of this model.
