/**
  The facility-performance part of the supply-chain-facilities endpoint: take the records of
  the latest date, and for every facility among them, in order of first appearance,
  aggregate its records into one report. Two derived metrics are clamped: operational
  efficiency (mean quality less two points per disruption) never goes below 0, and capacity
  utilisation (total volume against a 200 000-unit target) never goes above 100.
 */
module Facilities {
  import opened PythonSemantics

  /** The columns of one supply-chain record that the report reads. */
  datatype SupplyRecord = SupplyRecord(
    date: string,
    facility: string,
    productLine: string,
    qualityPct: real,
    disruptions: int,
    volume: int,
    leadTimeDays: real,
    costPerUnit: real,
    sustainability: string,
    vendorCount: int,
    inventoryTurnover: real,
    carbonFootprint: real)

  /** One entry of `facility_performance`. */
  datatype FacilityReport = FacilityReport(
    name: string,
    facilityType: string,
    operationalEfficiency: real,
    productionCapacity: int,
    capacityUtilisation: real,
    leadTimeDays: real,
    qualityScore: real,
    costPerUnit: real,
    disruptions: int,
    sustainability: string,
    vendorCount: int,
    inventoryTurnover: real,
    carbonFootprint: real)

  // ---------------------------------------------------------------------------------------
  // Aggregates.

  function Sum(xs: seq<real>): real
    decreases |xs|
  {
    if xs == [] then 0.0 else Sum(xs[..|xs| - 1]) + xs[|xs| - 1]
  }

  function SumInt(xs: seq<int>): int
    decreases |xs|
  {
    if xs == [] then 0 else SumInt(xs[..|xs| - 1]) + xs[|xs| - 1]
  }

  /** `Series.mean()` of a non-empty column. */
  function Mean(xs: seq<real>): real
    requires |xs| > 0
  {
    Sum(xs) / (|xs| as real)
  }

  lemma {:induction false} SumBounds(xs: seq<real>, lo: real, hi: real)
    requires forall i :: 0 <= i < |xs| ==> lo <= xs[i] <= hi
    ensures (|xs| as real) * lo <= Sum(xs) <= (|xs| as real) * hi
    decreases |xs|
  {
    if xs != [] {
      SumBounds(xs[..|xs| - 1], lo, hi);
    }
  }

  /** A mean lies between any bounds of its values. */
  lemma MeanBounds(xs: seq<real>, lo: real, hi: real)
    requires |xs| > 0
    requires forall i :: 0 <= i < |xs| ==> lo <= xs[i] <= hi
    ensures lo <= Mean(xs) <= hi
  {
    SumBounds(xs, lo, hi);
    var n := |xs| as real;
    assert Mean(xs) * n == Sum(xs);
  }

  lemma {:induction false} SumIntNonNegative(xs: seq<int>)
    requires forall i :: 0 <= i < |xs| ==> xs[i] >= 0
    ensures SumInt(xs) >= 0
    decreases |xs|
  {
    if xs != [] {
      SumIntNonNegative(xs[..|xs| - 1]);
    }
  }

  // ---------------------------------------------------------------------------------------
  // The clamped metrics.

  /** `max(0, avg_quality - total_disruptions * 2)`. */
  function OperationalEfficiency(avgQuality: real, totalDisruptions: int): (e: real)
    ensures e >= 0.0 && e >= avgQuality - 2.0 * (totalDisruptions as real)
    ensures e == 0.0 || e == avgQuality - 2.0 * (totalDisruptions as real)
  {
    var raw := avgQuality - (totalDisruptions as real) * 2.0;
    if 0.0 >= raw then 0.0 else raw
  }

  /** Efficiency never exceeds the mean quality when neither it nor the disruption count is negative. */
  lemma EfficiencyAtMostQuality(avgQuality: real, totalDisruptions: int)
    requires avgQuality >= 0.0 && totalDisruptions >= 0
    ensures OperationalEfficiency(avgQuality, totalDisruptions) <= avgQuality
  {
  }

  /** More disruptions never raise efficiency. */
  lemma EfficiencyNonIncreasing(avgQuality: real, fewer: int, more: int)
    requires fewer <= more
    ensures OperationalEfficiency(avgQuality, more) <= OperationalEfficiency(avgQuality, fewer)
  {
  }

  /** `min(100, (production_capacity / 200000) * 100)`. */
  function CapacityUtilisation(capacity: int): (u: real)
    ensures u <= 100.0
    ensures capacity <= 200000 ==> u == (capacity as real) / 2000.0
    ensures capacity >= 200000 ==> u == 100.0
  {
    var raw := (capacity as real) / 200000.0 * 100.0;
    if 100.0 <= raw then 100.0 else raw
  }

  /** Utilisation grows with capacity and is never negative for a non-negative capacity. */
  lemma UtilisationMonotone(smaller: int, larger: int)
    requires smaller <= larger
    ensures CapacityUtilisation(smaller) <= CapacityUtilisation(larger)
    ensures smaller >= 0 ==> CapacityUtilisation(smaller) >= 0.0
  {
  }

  // ---------------------------------------------------------------------------------------
  // Selections.

  /** `records[records['Date'] == date]`: the rows of that date, in order. */
  function AtDate(records: seq<SupplyRecord>, date: string): (r: seq<SupplyRecord>)
    ensures forall i :: 0 <= i < |r| ==> r[i].date == date
    decreases |records|
  {
    if records == [] then []
    else AtDate(records[..|records| - 1], date) + (if records[|records| - 1].date == date then [records[|records| - 1]] else [])
  }

  /** `AtDate` keeps exactly the rows of that date, each as often as it occurs, in their order. */
  lemma {:induction false} AtDateSelects(records: seq<SupplyRecord>, date: string)
    ensures forall x :: x in AtDate(records, date) <==> x in records && x.date == date
    ensures forall x :: multiset(AtDate(records, date))[x] == if x.date == date then multiset(records)[x] else 0
    ensures IsSubsequence(AtDate(records, date), records)
    decreases |records|
  {
    if records != [] {
      var init, last := records[..|records| - 1], records[|records| - 1];
      assert records == init + [last];
      AtDateSelects(init, date);
      SubsequenceExtend(AtDate(init, date), init, last, last.date == date);
      assert multiset(records) == multiset(init) + multiset{last};
    }
  }

  /** `records[records['Facility_Location'] == facility]`: that facility's rows, in order. */
  function OfFacility(records: seq<SupplyRecord>, facility: string): (r: seq<SupplyRecord>)
    ensures forall i :: 0 <= i < |r| ==> r[i].facility == facility
    decreases |records|
  {
    if records == [] then []
    else
      OfFacility(records[..|records| - 1], facility)
        + (if records[|records| - 1].facility == facility then [records[|records| - 1]] else [])
  }

  /** `OfFacility` keeps exactly that facility's rows, each as often as it occurs, in their order. */
  lemma {:induction false} OfFacilitySelects(records: seq<SupplyRecord>, facility: string)
    ensures forall x :: x in OfFacility(records, facility) <==> x in records && x.facility == facility
    ensures forall x :: multiset(OfFacility(records, facility))[x] == if x.facility == facility then multiset(records)[x] else 0
    ensures IsSubsequence(OfFacility(records, facility), records)
    decreases |records|
  {
    if records != [] {
      var init, last := records[..|records| - 1], records[|records| - 1];
      assert records == init + [last];
      OfFacilitySelects(init, facility);
      SubsequenceExtend(OfFacility(init, facility), init, last, last.facility == facility);
      assert multiset(records) == multiset(init) + multiset{last};
    }
  }

  function Dates(records: seq<SupplyRecord>): (ds: seq<string>)
    ensures |ds| == |records|
    ensures forall i :: 0 <= i < |records| ==> ds[i] == records[i].date
  {
    seq(|records|, i requires 0 <= i < |records| => records[i].date)
  }

  function FacilityNames(records: seq<SupplyRecord>): (fs: seq<string>)
    ensures |fs| == |records|
    ensures forall i :: 0 <= i < |records| ==> fs[i] == records[i].facility
  {
    seq(|records|, i requires 0 <= i < |records| => records[i].facility)
  }

  /** `supply_chain_data['Date'].max()`: a date no record's date exceeds. */
  function LatestDate(records: seq<SupplyRecord>): (d: string)
    requires |records| > 0
    ensures exists i :: 0 <= i < |records| && records[i].date == d
    ensures forall i :: 0 <= i < |records| ==> !StrLess(d, records[i].date)
  {
    var ds := Dates(records);
    var d := MaxString(ds);
    assert exists i :: 0 <= i < |ds| && ds[i] == d;
    d
  }

  // ---------------------------------------------------------------------------------------
  // Columns of a facility's rows.

  function Qualities(g: seq<SupplyRecord>): (xs: seq<real>)
    ensures |xs| == |g| && forall i :: 0 <= i < |g| ==> xs[i] == g[i].qualityPct
  {
    seq(|g|, i requires 0 <= i < |g| => g[i].qualityPct)
  }

  function Disruptions(g: seq<SupplyRecord>): (xs: seq<int>)
    ensures |xs| == |g| && forall i :: 0 <= i < |g| ==> xs[i] == g[i].disruptions
  {
    seq(|g|, i requires 0 <= i < |g| => g[i].disruptions)
  }

  function Volumes(g: seq<SupplyRecord>): (xs: seq<int>)
    ensures |xs| == |g| && forall i :: 0 <= i < |g| ==> xs[i] == g[i].volume
  {
    seq(|g|, i requires 0 <= i < |g| => g[i].volume)
  }

  function LeadTimes(g: seq<SupplyRecord>): seq<real> {
    seq(|g|, i requires 0 <= i < |g| => g[i].leadTimeDays)
  }

  function Costs(g: seq<SupplyRecord>): seq<real> {
    seq(|g|, i requires 0 <= i < |g| => g[i].costPerUnit)
  }

  function VendorCounts(g: seq<SupplyRecord>): seq<real> {
    seq(|g|, i requires 0 <= i < |g| => g[i].vendorCount as real)
  }

  function Turnovers(g: seq<SupplyRecord>): seq<real> {
    seq(|g|, i requires 0 <= i < |g| => g[i].inventoryTurnover)
  }

  function Footprints(g: seq<SupplyRecord>): seq<real> {
    seq(|g|, i requires 0 <= i < |g| => g[i].carbonFootprint)
  }

  // ---------------------------------------------------------------------------------------
  // The report.

  /** The report of one facility from its (non-empty) rows of the latest date. */
  function Report(name: string, g: seq<SupplyRecord>): (r: FacilityReport)
    requires |g| > 0
    ensures r.name == name && r.facilityType == g[0].productLine && r.sustainability == g[0].sustainability
    ensures r.qualityScore == Mean(Qualities(g))
    ensures r.disruptions == SumInt(Disruptions(g)) && r.productionCapacity == SumInt(Volumes(g))
    ensures r.operationalEfficiency >= 0.0 && r.operationalEfficiency >= r.qualityScore - 2.0 * (r.disruptions as real)
    ensures r.operationalEfficiency == 0.0 || r.operationalEfficiency == r.qualityScore - 2.0 * (r.disruptions as real)
    ensures r.capacityUtilisation <= 100.0
    ensures r.productionCapacity <= 200000 ==> r.capacityUtilisation == (r.productionCapacity as real) / 2000.0
    ensures r.productionCapacity >= 200000 ==> r.capacityUtilisation == 100.0
    ensures r.leadTimeDays == Mean(LeadTimes(g)) && r.costPerUnit == Mean(Costs(g))
    ensures r.vendorCount == Truncate(Mean(VendorCounts(g)))
    ensures r.inventoryTurnover == Mean(Turnovers(g)) && r.carbonFootprint == Mean(Footprints(g))
  {
    var avgQuality := Mean(Qualities(g));
    var totalDisruptions := SumInt(Disruptions(g));
    var capacity := SumInt(Volumes(g));
    FacilityReport(
      name, g[0].productLine, OperationalEfficiency(avgQuality, totalDisruptions), capacity,
      CapacityUtilisation(capacity), Mean(LeadTimes(g)), Mean(Qualities(g)), Mean(Costs(g)),
      totalDisruptions, g[0].sustainability, Truncate(Mean(VendorCounts(g))),
      Mean(Turnovers(g)), Mean(Footprints(g)))
  }

  /** A facility that has a row of the given selection has a non-empty group. */
  lemma GroupNonEmpty(latest: seq<SupplyRecord>, name: string)
    requires name in FacilityNames(latest)
    ensures |OfFacility(latest, name)| > 0
  {
    var i :| 0 <= i < |latest| && FacilityNames(latest)[i] == name;
    OfFacilitySelects(latest, name);
    assert latest[i] in OfFacility(latest, name);
  }

  /** The reports of the listed facilities, each from its rows of `latest`. */
  function ReportsOf(latest: seq<SupplyRecord>, names: seq<string>): (reports: seq<FacilityReport>)
    requires forall i :: 0 <= i < |names| ==> names[i] in FacilityNames(latest)
    ensures |reports| == |names|
    ensures forall i :: 0 <= i < |names| ==> reports[i].name == names[i]
    decreases |names|
  {
    if names == [] then []
    else
      var init, last := names[..|names| - 1], names[|names| - 1];
      assert forall i :: 0 <= i < |init| ==> init[i] == names[i];
      GroupNonEmpty(latest, last);
      var report := Report(last, OfFacility(latest, last));
      assert report.name == last;
      ReportsOf(latest, init) + [report]
  }

  /** The rows of the latest date (none when there are no records). */
  function LatestRecords(records: seq<SupplyRecord>): (latest: seq<SupplyRecord>)
    ensures records == [] ==> latest == []
    ensures records != [] ==> |latest| > 0
    ensures records != [] ==> forall x :: x in latest <==> x in records && x.date == LatestDate(records)
  {
    if records == [] then []
    else
      var d := LatestDate(records);
      AtDateSelects(records, d);
      var i :| 0 <= i < |records| && records[i].date == d;
      assert records[i] in AtDate(records, d);
      AtDate(records, d)
  }

  /** `latest_supply['Facility_Location'].unique()`. */
  function LatestFacilities(records: seq<SupplyRecord>): (names: seq<string>)
    ensures NoDuplicates(names)
    ensures forall i :: 0 <= i < |names| ==> names[i] in FacilityNames(LatestRecords(records))
    ensures forall i :: 0 <= i < |LatestRecords(records)| ==> LatestRecords(records)[i].facility in names
  {
    var fs := Distinct(FacilityNames(LatestRecords(records)));
    assert forall i :: 0 <= i < |LatestRecords(records)| ==> FacilityNames(LatestRecords(records))[i] in fs;
    fs
  }

  /** `facility_performance` as a function of the records. */
  function FacilityReports(records: seq<SupplyRecord>): (reports: seq<FacilityReport>)
    ensures |reports| == |LatestFacilities(records)|
    ensures forall i :: 0 <= i < |reports| ==> reports[i].name == LatestFacilities(records)[i]
  {
    ReportsOf(LatestRecords(records), LatestFacilities(records))
  }

  /** The facility-performance loop of the supply-chain-facilities endpoint. */
  method FacilityPerformance(records: seq<SupplyRecord>) returns (performance: seq<FacilityReport>)
    ensures performance == FacilityReports(records)
  {
    var latest := LatestRecords(records);
    var names := Distinct(FacilityNames(latest));
    performance := [];
    var i := 0;
    while i < |names|
      invariant 0 <= i <= |names|
      invariant performance == ReportsOf(latest, names[..i])
    {
      var facility := names[i];
      var facilityData := OfFacility(latest, facility);
      GroupNonEmpty(latest, facility);
      var avgQuality := Mean(Qualities(facilityData));
      var totalDisruptions := SumInt(Disruptions(facilityData));
      var operationalEfficiency := OperationalEfficiency(avgQuality, totalDisruptions);
      var productionCapacity := SumInt(Volumes(facilityData));
      var capacityUtilisation := CapacityUtilisation(productionCapacity);
      var leadTime := Mean(LeadTimes(facilityData));
      var qualityScore := Mean(Qualities(facilityData));
      var report := FacilityReport(
        facility, facilityData[0].productLine, operationalEfficiency, productionCapacity,
        capacityUtilisation, leadTime, qualityScore, Mean(Costs(facilityData)), totalDisruptions,
        facilityData[0].sustainability, Truncate(Mean(VendorCounts(facilityData))),
        Mean(Turnovers(facilityData)), Mean(Footprints(facilityData)));
      assert report == Report(facility, facilityData);
      ReportsOfPrefix(latest, names, i);
      performance := performance + [report];
      i := i + 1;
    }
    assert names[..i] == names;
  }

  lemma ReportsOfPrefix(latest: seq<SupplyRecord>, names: seq<string>, i: nat)
    requires forall j :: 0 <= j < |names| ==> names[j] in FacilityNames(latest)
    requires i < |names|
    ensures |OfFacility(latest, names[i])| > 0
    ensures ReportsOf(latest, names[..i + 1]) == ReportsOf(latest, names[..i]) + [Report(names[i], OfFacility(latest, names[i]))]
  {
    GroupNonEmpty(latest, names[i]);
    assert names[..i + 1][..i] == names[..i];
  }

  lemma {:induction false} ReportsOfAt(latest: seq<SupplyRecord>, names: seq<string>, i: nat)
    requires forall j :: 0 <= j < |names| ==> names[j] in FacilityNames(latest)
    requires i < |names|
    ensures |OfFacility(latest, names[i])| > 0
    ensures ReportsOf(latest, names)[i] == Report(names[i], OfFacility(latest, names[i]))
    decreases |names|
  {
    GroupNonEmpty(latest, names[i]);
    if i < |names| - 1 {
      ReportsOfAt(latest, names[..|names| - 1], i);
    }
  }

  /**
    The reports follow the facilities of the latest date one to one and in order of first
    appearance, each built from that facility's rows of that date.
   */
  lemma ReportsFollowFacilities(records: seq<SupplyRecord>)
    ensures var reports, names := FacilityReports(records), LatestFacilities(records);
      && |reports| == |names|
      && forall i :: 0 <= i < |reports| ==>
           && reports[i].name == names[i]
           && |OfFacility(LatestRecords(records), names[i])| > 0
           && reports[i] == Report(names[i], OfFacility(LatestRecords(records), names[i]))
  {
    var latest, names := LatestRecords(records), LatestFacilities(records);
    forall i | 0 <= i < |names|
      ensures |OfFacility(latest, names[i])| > 0
      ensures FacilityReports(records)[i] == Report(names[i], OfFacility(latest, names[i]))
    {
      ReportsOfAt(latest, names, i);
    }
  }

  /** No facility is reported twice. */
  lemma ReportNamesDistinct(records: seq<SupplyRecord>)
    ensures var reports := FacilityReports(records);
      forall i, j :: 0 <= i < j < |reports| ==> reports[i].name != reports[j].name
  {
  }

  /** Every facility with a record on the latest date is reported. */
  lemma EveryLatestFacilityReported(records: seq<SupplyRecord>)
    ensures var reports := FacilityReports(records);
      forall r :: r in LatestRecords(records) ==> exists i :: 0 <= i < |reports| && reports[i].name == r.facility
  {
    var latest, names := LatestRecords(records), LatestFacilities(records);
    var reports := FacilityReports(records);
    forall r | r in latest
      ensures exists i :: 0 <= i < |reports| && reports[i].name == r.facility
    {
      var k :| 0 <= k < |latest| && latest[k] == r;
      assert latest[k].facility in names;
      var i :| 0 <= i < |names| && names[i] == r.facility;
      assert reports[i].name == names[i];
    }
  }

  /** Every row the report reads is of the latest date, and no record is of a later date. */
  lemma LatestRowsAreLatest(records: seq<SupplyRecord>)
    requires |records| > 0
    ensures forall r :: r in LatestRecords(records) ==>
              r in records && forall i :: 0 <= i < |records| ==> !StrLess(r.date, records[i].date)
    ensures |LatestRecords(records)| > 0
  {
    var d := LatestDate(records);
    var i :| 0 <= i < |records| && records[i].date == d;
    AtDateSelects(records, d);
    assert records[i] in LatestRecords(records);
  }

  /** A facility's rows of the latest date are records. */
  lemma GroupRowsAreRecords(records: seq<SupplyRecord>, name: string)
    ensures forall k :: 0 <= k < |OfFacility(LatestRecords(records), name)| ==>
              OfFacility(LatestRecords(records), name)[k] in records
  {
    var latest := LatestRecords(records);
    var g := OfFacility(latest, name);
    OfFacilitySelects(latest, name);
    forall k | 0 <= k < |g|
      ensures g[k] in records
    {
      assert g[k] in latest;
    }
  }

  /** The bounds of one facility's report, given bounds on its rows. */
  lemma GroupReportBounds(name: string, g: seq<SupplyRecord>)
    requires |g| > 0
    requires forall k :: 0 <= k < |g| ==> 0.0 <= g[k].qualityPct <= 100.0 && g[k].disruptions >= 0 && g[k].volume >= 0
    ensures var report := Report(name, g);
      && 0.0 <= report.qualityScore <= 100.0
      && 0.0 <= report.operationalEfficiency <= report.qualityScore
      && 0.0 <= report.capacityUtilisation <= 100.0
      && report.disruptions >= 0 && report.productionCapacity >= 0
  {
    MeanBounds(Qualities(g), 0.0, 100.0);
    SumIntNonNegative(Disruptions(g));
    SumIntNonNegative(Volumes(g));
    EfficiencyAtMostQuality(Mean(Qualities(g)), SumInt(Disruptions(g)));
    UtilisationMonotone(SumInt(Volumes(g)), SumInt(Volumes(g)));
  }

  /**
    With quality scores between 0 and 100 and no negative disruption count or volume, every
    report's quality score lies between 0 and 100, its efficiency between 0 and its quality
    score, and its utilisation between 0 and 100.
   */
  lemma ReportBounds(records: seq<SupplyRecord>, i: nat)
    requires forall r :: r in records ==> 0.0 <= r.qualityPct <= 100.0 && r.disruptions >= 0 && r.volume >= 0
    requires i < |FacilityReports(records)|
    ensures var report := FacilityReports(records)[i];
      && 0.0 <= report.qualityScore <= 100.0
      && 0.0 <= report.operationalEfficiency <= report.qualityScore
      && 0.0 <= report.capacityUtilisation <= 100.0
      && report.disruptions >= 0 && report.productionCapacity >= 0
  {
    var latest, names := LatestRecords(records), LatestFacilities(records);
    ReportsOfAt(latest, names, i);
    var g := OfFacility(latest, names[i]);
    GroupRowsAreRecords(records, names[i]);
    forall k | 0 <= k < |g|
      ensures 0.0 <= g[k].qualityPct <= 100.0 && g[k].disruptions >= 0 && g[k].volume >= 0
    {
      assert g[k] in records;
    }
    GroupReportBounds(names[i], g);
  }

  /** A facility without disruptions is exactly as efficient as its mean quality, when that is not negative. */
  lemma NoDisruptionsFullEfficiency(name: string, g: seq<SupplyRecord>)
    requires |g| > 0
    requires forall k :: 0 <= k < |g| ==> g[k].disruptions == 0
    requires Mean(Qualities(g)) >= 0.0
    ensures Report(name, g).operationalEfficiency == Report(name, g).qualityScore
  {
    assert Disruptions(g) == seq(|g|, k => 0);
    ZeroSum(|g|);
  }

  lemma {:induction false} ZeroSum(n: nat)
    ensures SumInt(seq(n, k => 0)) == 0
  {
    if n > 0 {
      assert seq(n, k => 0)[..n - 1] == seq(n - 1, k => 0);
      ZeroSum(n - 1);
    }
  }
}
