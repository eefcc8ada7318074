/**
  The backend's trend series feeding the charts. Each chart reads its cells by looking the
  reference point's key up in every series; these lemmas show that, for the series the
  endpoints build, that lookup finds exactly the entity's aggregated value for the bucket
  (or 0 when the entity has no row for it), so every cell shows the right figure.
 */
module Dashboard {
  import opened Wrappers
  import opened SeriesModel
  import opened Pivot
  import opened PythonSemantics
  import opened BackendTrends
  import FinancialChart
  import SecurityChart
  import SupplyChainChart

  /** The value a cell should show: the entity's first row for the bucket, else 0. */
  function Expected<K(==)>(rows: seq<TrendRow<K>>, entity: string, k: K, m: Measure): real {
    if HasRow(rows, entity, k) then Value(FirstRow(rows, entity, k).value, m) else 0.0
  }

  lemma DistinctEntitiesAreLast(group: seq<Series>, entities: seq<string>)
    requires |group| == |entities| && NoDuplicates(entities)
    requires forall e :: 0 <= e < |group| ==> group[e].name == entities[e]
    ensures forall j :: 0 <= j < |group| ==> LastOfName(group, j)
  {
  }

  /**
    Charting two groups built by the backend from one table: row `i` belongs to the `i`-th
    bucket that the first entity has a row for, and each entity's two columns hold its two
    measures for that bucket.
   */
  lemma {:induction false} ChartOfBackendSeries<K>(rows: seq<TrendRow<K>>, entities: seq<string>, ks: seq<K>,
                                                   lbl: K -> string, mp: Measure, ms: Measure,
                                                   cfg: ChartConfig, i: nat)
    requires ValidConfig(cfg)
    requires |entities| > 0 && NoDuplicates(entities) && NoDuplicates(Labels(ks, lbl))
    requires i < |BucketsWithRows(rows, entities[0], ks)|
    ensures var primary, secondary := SeriesGroup(rows, entities, ks, lbl, mp), SeriesGroup(rows, entities, ks, lbl, ms);
      && RowsSafe(primary, secondary) && ReferenceHasRows(primary)
      && |ChartData(primary, secondary, cfg)| == |BucketsWithRows(rows, entities[0], ks)|
      && var k, row := BucketsWithRows(rows, entities[0], ks)[i], ChartData(primary, secondary, cfg)[i];
      && row.key == cfg.rowLabel(lbl(k))
      && forall e :: 0 <= e < |entities| ==>
           && Label(entities[e], cfg.primarySuffix) in row.columns
           && Label(entities[e], cfg.secondarySuffix) in row.columns
           && row.columns[Label(entities[e], cfg.primarySuffix)] == Expected(rows, entities[e], k, mp)
           && row.columns[Label(entities[e], cfg.secondarySuffix)] == Expected(rows, entities[e], k, ms)
  {
    var primary, secondary := SeriesGroup(rows, entities, ks, lbl, mp), SeriesGroup(rows, entities, ks, lbl, ms);
    var k := BucketsWithRows(rows, entities[0], ks)[i];
    CollectIsFilteredBuckets(rows, entities[0], ks, lbl, mp);
    assert primary[0].data.value[i].key == lbl(k);
    DistinctEntitiesAreLast(primary, entities);
    DistinctEntitiesAreLast(secondary, entities);
    CellValues(primary, secondary, cfg, i);
    forall e | 0 <= e < |entities|
      ensures Lookup(primary[e].data.value, lbl(k)) == Expected(rows, entities[e], k, mp)
      ensures Lookup(secondary[e].data.value, lbl(k)) == Expected(rows, entities[e], k, ms)
    {
      LookupCollect(rows, entities[e], ks, lbl, mp, k);
      LookupCollect(rows, entities[e], ks, lbl, ms, k);
    }
  }

  lemma DatesAreDistinct(dates: seq<string>)
    requires StrictlyIncreasing(dates)
    ensures NoDuplicates(Labels(dates, DateText))
  {
    forall a, b | 0 <= a < b < |dates|
      ensures dates[a] != dates[b]
    {
      StrLessIrreflexive(dates[a]);
    }
  }

  /**
    The financial chart over the financial endpoint's series: row `i` is the `i`-th period
    the first division has figures for, and each division's revenue and profit columns hold
    its figures for that period, or 0.
   */
  lemma FinancialDashboard(rows: seq<TrendRow<Period>>, divisions: seq<string>, years: seq<int>,
                           quarters: seq<string>, i: nat)
    requires |divisions| > 0 && NoDuplicates(divisions) && NoDuplicates(years) && NoDuplicates(quarters)
    requires i < |BucketsWithRows(rows, divisions[0], Product(years, quarters))|
    ensures var revenue, profit := FinancialSeries(rows, divisions, years, quarters, First),
                                   FinancialSeries(rows, divisions, years, quarters, Second);
      && RowsSafe(revenue, profit)
      && |ChartData(revenue, profit, FinancialChart.Config())| == |BucketsWithRows(rows, divisions[0], Product(years, quarters))|
      && var period, row := BucketsWithRows(rows, divisions[0], Product(years, quarters))[i],
                            ChartData(revenue, profit, FinancialChart.Config())[i];
      && row.key == PeriodLabel(period)
      && forall d :: 0 <= d < |divisions| ==>
           && divisions[d] + " Revenue" in row.columns && divisions[d] + " Profit" in row.columns
           && row.columns[divisions[d] + " Revenue"] == Expected(rows, divisions[d], period, First)
           && row.columns[divisions[d] + " Profit"] == Expected(rows, divisions[d], period, Second)
  {
    var ks := Product(years, quarters);
    ProductLabelsDistinct(years, quarters);
    assert FinancialSeries(rows, divisions, years, quarters, First) == SeriesGroup(rows, divisions, ks, PeriodLabel, First);
    assert FinancialSeries(rows, divisions, years, quarters, Second) == SeriesGroup(rows, divisions, ks, PeriodLabel, Second);
    ChartOfBackendSeries(rows, divisions, ks, PeriodLabel, First, Second, FinancialChart.Config(), i);
  }

  /**
    The security chart over the security endpoint's series, with its sorted, de-duplicated
    dates: row `i` is the `i`-th date the first district has figures for, and each district's
    safety and incidents columns hold its mean safety score and whole incident count for that
    date, or 0.
   */
  lemma SecurityDashboard(rows: seq<TrendRow<string>>, districts: seq<string>, dates: seq<string>,
                          monthLabel: string -> string, i: nat)
    requires |districts| > 0 && NoDuplicates(districts) && StrictlyIncreasing(dates)
    requires i < |BucketsWithRows(rows, districts[0], dates)|
    ensures var safety, incidents := DateSeries(rows, districts, dates, Second),
                                     DateSeries(rows, districts, dates, WholeFirst);
      && RowsSafe(safety, incidents)
      && |ChartData(safety, incidents, SecurityChart.Config(monthLabel))| == |BucketsWithRows(rows, districts[0], dates)|
      && var date, row := BucketsWithRows(rows, districts[0], dates)[i],
                          ChartData(safety, incidents, SecurityChart.Config(monthLabel))[i];
      && row.key == monthLabel(date)
      && forall d :: 0 <= d < |districts| ==>
           && districts[d] + " Safety" in row.columns && districts[d] + " Incidents" in row.columns
           && row.columns[districts[d] + " Safety"] == Expected(rows, districts[d], date, Second)
           && row.columns[districts[d] + " Incidents"] == Expected(rows, districts[d], date, WholeFirst)
  {
    DatesAreDistinct(dates);
    ChartOfBackendSeries(rows, districts, dates, DateText, Second, WholeFirst, SecurityChart.Config(monthLabel), i);
  }

  /**
    The supply-chain chart over the supply-chain endpoint's series: row `i` is the `i`-th
    date the first facility has figures for, and each facility's production and quality
    columns hold its whole production volume and mean quality score for that date, or 0.
   */
  lemma SupplyChainDashboard(rows: seq<TrendRow<string>>, facilities: seq<string>, dates: seq<string>,
                             monthLabel: string -> string, i: nat)
    requires |facilities| > 0 && NoDuplicates(facilities) && StrictlyIncreasing(dates)
    requires i < |BucketsWithRows(rows, facilities[0], dates)|
    ensures var production, quality := DateSeries(rows, facilities, dates, WholeFirst),
                                       DateSeries(rows, facilities, dates, Second);
      && RowsSafe(production, quality)
      && |ChartData(production, quality, SupplyChainChart.Config(monthLabel))| == |BucketsWithRows(rows, facilities[0], dates)|
      && var date, row := BucketsWithRows(rows, facilities[0], dates)[i],
                          ChartData(production, quality, SupplyChainChart.Config(monthLabel))[i];
      && row.key == monthLabel(date)
      && forall f :: 0 <= f < |facilities| ==>
           && facilities[f] + " Production" in row.columns && facilities[f] + " Quality" in row.columns
           && row.columns[facilities[f] + " Production"] == Expected(rows, facilities[f], date, WholeFirst)
           && row.columns[facilities[f] + " Quality"] == Expected(rows, facilities[f], date, Second)
  {
    DatesAreDistinct(dates);
    ChartOfBackendSeries(rows, facilities, dates, DateText, WholeFirst, Second, SupplyChainChart.Config(monthLabel), i);
  }
}
