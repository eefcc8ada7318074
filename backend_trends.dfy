/**
  The backend's trend-series producers: the financial, security and supply-chain
  endpoints each walk an already aggregated table (one row per entity and time bucket,
  from `groupby(...).agg(...).reset_index()`) and build, for every entity, two parallel
  series over an ordered list of time buckets. A point is appended, to both series at
  once, exactly when the table has a row for that entity and bucket; its value is read
  from the first such row (`.iloc[0]`).

  A table row is `TrendRow(entity, key, first, second)`: the division, district or
  facility; the bucket (a `(year, quarter)` pair or a date string); and the two measures
  the endpoint emits (revenue and net profit, incidents and safety score, production
  volume and quality score).
 */
module BackendTrends {
  import opened Wrappers
  import opened SeriesModel
  import opened PythonSemantics

  datatype TrendRow<K> = TrendRow(entity: string, key: K, first: real, second: real)

  /**
    Which of the row's two measures a point carries, and how it is emitted: `WholeFirst` is
    the first measure passed through `int(...)`.
   */
  datatype Measure = First | Second | WholeFirst

  function Value<K>(r: TrendRow<K>, m: Measure): real {
    match m
    case First => r.first
    case Second => r.second
    case WholeFirst => Truncate(r.first) as real
  }

  predicate Matches<K(==)>(r: TrendRow<K>, entity: string, k: K) {
    r.entity == entity && r.key == k
  }

  /**
    `table[(table.entity == entity) & (table.key == k)]` followed by `.iloc[0]` when the
    selection is not empty: the first row for that entity and bucket.
   */
  function FirstRow<K(==)>(rows: seq<TrendRow<K>>, entity: string, k: K): (r: Option<TrendRow<K>>)
    ensures r.None? <==> forall i :: 0 <= i < |rows| ==> !Matches(rows[i], entity, k)
    ensures r.Some? ==>
              exists i :: 0 <= i < |rows| && rows[i] == r.value && Matches(rows[i], entity, k)
                          && forall j :: 0 <= j < i ==> !Matches(rows[j], entity, k)
  {
    if rows == [] then None
    else if Matches(rows[0], entity, k) then Some(rows[0])
    else
      var r := FirstRow(rows[1..], entity, k);
      assert forall i :: 1 <= i < |rows| ==> rows[1..][i - 1] == rows[i];
      if r.Some? then
        var i :| 0 <= i < |rows[1..]| && rows[1..][i] == r.value && Matches(rows[1..][i], entity, k)
                 && forall j :: 0 <= j < i ==> !Matches(rows[1..][j], entity, k);
        assert rows[i + 1] == r.value;
        r
      else r
  }

  predicate HasRow<K(==)>(rows: seq<TrendRow<K>>, entity: string, k: K) {
    FirstRow(rows, entity, k).Some?
  }

  /** The point a bucket contributes: one point when the table has a row for it, else none. */
  function PointAt<K(==)>(rows: seq<TrendRow<K>>, entity: string, k: K, lbl: K -> string, m: Measure)
    : (pts: seq<Point>)
    ensures |pts| <= 1
    ensures pts != [] <==> HasRow(rows, entity, k)
  {
    match FirstRow(rows, entity, k)
    case None => []
    case Some(r) => [Point(lbl(k), Value(r, m))]
  }

  /**
    The `data` list of one series, as the loop over the buckets `ks` leaves it: the
    points of all buckets in order, `lbl` giving the point's `period` or `date` text.
   */
  function Collect<K(==)>(rows: seq<TrendRow<K>>, entity: string, ks: seq<K>, lbl: K -> string, m: Measure)
    : (pts: seq<Point>)
    ensures |pts| <= |ks|
    decreases |ks|
  {
    if ks == [] then []
    else Collect(rows, entity, ks[..|ks| - 1], lbl, m) + PointAt(rows, entity, ks[|ks| - 1], lbl, m)
  }

  /** Visiting one more bucket appends at most its point. */
  lemma CollectAppend<K>(rows: seq<TrendRow<K>>, entity: string, ks: seq<K>, k: K, lbl: K -> string, m: Measure)
    ensures Collect(rows, entity, ks + [k], lbl, m) == Collect(rows, entity, ks, lbl, m) + PointAt(rows, entity, k, lbl, m)
  {
    assert (ks + [k])[..|ks|] == ks;
  }

  /** One loop step: visiting bucket `k` appends its first row's point, or nothing. */
  lemma CollectStep<K>(rows: seq<TrendRow<K>>, entity: string, ks: seq<K>, k: K, lbl: K -> string, m: Measure,
                       found: Option<TrendRow<K>>)
    requires found == FirstRow(rows, entity, k)
    ensures Collect(rows, entity, ks + [k], lbl, m)
         == Collect(rows, entity, ks, lbl, m) + (if found.Some? then [Point(lbl(k), Value(found.value, m))] else [])
  {
    CollectAppend(rows, entity, ks, k, lbl, m);
  }

  /** The buckets, in order, for which the table has a row for `entity`. */
  function BucketsWithRows<K(==)>(rows: seq<TrendRow<K>>, entity: string, ks: seq<K>): (w: seq<K>)
    ensures forall i :: 0 <= i < |w| ==> w[i] in ks && HasRow(rows, entity, w[i])
    ensures forall i :: 0 <= i < |ks| && HasRow(rows, entity, ks[i]) ==> ks[i] in w
    ensures IsSubsequence(w, ks)
    decreases |ks|
  {
    if ks == [] then []
    else
      var init := ks[..|ks| - 1];
      var last := ks[|ks| - 1];
      var w := BucketsWithRows(rows, entity, init) + (if HasRow(rows, entity, last) then [last] else []);
      assert ks == init + [last];
      SubsequenceExtend(BucketsWithRows(rows, entity, init), init, last, HasRow(rows, entity, last));
      w
  }

  /** The texts `lbl` gives to the buckets `ks`, in order. */
  function Labels<K>(ks: seq<K>, lbl: K -> string): (ls: seq<string>)
    ensures |ls| == |ks|
    ensures forall i :: 0 <= i < |ks| ==> ls[i] == lbl(ks[i])
  {
    seq(|ks|, i requires 0 <= i < |ks| => lbl(ks[i]))
  }

  /** Leaving elements out commutes with labelling them. */
  lemma {:induction false} SubsequenceLabels<K>(a: seq<K>, b: seq<K>, lbl: K -> string)
    requires IsSubsequence(a, b)
    ensures IsSubsequence(Labels(a, lbl), Labels(b, lbl))
    decreases |b|
  {
    if a != [] && b != [] {
      var la, lb := Labels(a, lbl), Labels(b, lbl);
      assert Labels(b[..|b| - 1], lbl) == lb[..|lb| - 1];
      if a[|a| - 1] == b[|b| - 1] && IsSubsequence(a[..|a| - 1], b[..|b| - 1]) {
        SubsequenceLabels(a[..|a| - 1], b[..|b| - 1], lbl);
        assert Labels(a[..|a| - 1], lbl) == la[..|la| - 1];
      } else {
        SubsequenceLabels(a, b[..|b| - 1], lbl);
      }
    }
  }

  /**
    A series' points are exactly the buckets that have a row, in bucket order, each
    labelled by `lbl` and valued from the bucket's first row.
   */
  lemma {:induction false} CollectIsFilteredBuckets<K>(rows: seq<TrendRow<K>>, entity: string, ks: seq<K>,
                                                        lbl: K -> string, m: Measure)
    ensures var pts, w := Collect(rows, entity, ks, lbl, m), BucketsWithRows(rows, entity, ks);
      && |pts| == |w|
      && forall i :: 0 <= i < |w| ==>
           pts[i] == Point(lbl(w[i]), Value(FirstRow(rows, entity, w[i]).value, m))
    decreases |ks|
  {
    if ks != [] {
      CollectIsFilteredBuckets(rows, entity, ks[..|ks| - 1], lbl, m);
    }
  }

  /**
    The two series built for one entity have the same key list: both appends sit under the
    same condition.
   */
  lemma PairedSeriesShareKeys<K>(rows: seq<TrendRow<K>>, entity: string, ks: seq<K>,
                                 lbl: K -> string, m1: Measure, m2: Measure)
    ensures Keys(Collect(rows, entity, ks, lbl, m1)) == Keys(Collect(rows, entity, ks, lbl, m2))
  {
    var first := Collect(rows, entity, ks, lbl, m1);
    var second := Collect(rows, entity, ks, lbl, m2);
    CollectIsFilteredBuckets(rows, entity, ks, lbl, m1);
    CollectIsFilteredBuckets(rows, entity, ks, lbl, m2);
    assert forall i :: 0 <= i < |first| ==> Keys(first)[i] == Keys(second)[i];
  }

  /**
    A point for bucket `k` is in `entity`'s series exactly when `k` is one of the buckets
    and the table has a row for `entity` at `k`; its value is that first row's measure.
   */
  lemma PointIffRow<K>(rows: seq<TrendRow<K>>, entity: string, ks: seq<K>, lbl: K -> string, m: Measure, k: K)
    ensures (exists i :: 0 <= i < |BucketsWithRows(rows, entity, ks)| && BucketsWithRows(rows, entity, ks)[i] == k)
              <==> k in ks && HasRow(rows, entity, k)
    ensures k in ks && HasRow(rows, entity, k) ==>
              Point(lbl(k), Value(FirstRow(rows, entity, k).value, m)) in Collect(rows, entity, ks, lbl, m)
  {
    var w := BucketsWithRows(rows, entity, ks);
    CollectIsFilteredBuckets(rows, entity, ks, lbl, m);
    if k in ks && HasRow(rows, entity, k) {
      var i :| 0 <= i < |w| && w[i] == k;
      assert Collect(rows, entity, ks, lbl, m)[i] == Point(lbl(k), Value(FirstRow(rows, entity, k).value, m));
    }
  }

  /** A series' key list leaves some buckets out but keeps the order of the bucket labels. */
  lemma SeriesKeysAreSubsequence<K>(rows: seq<TrendRow<K>>, entity: string, ks: seq<K>, lbl: K -> string, m: Measure)
    ensures IsSubsequence(Keys(Collect(rows, entity, ks, lbl, m)), Labels(ks, lbl))
  {
    var w := BucketsWithRows(rows, entity, ks);
    CollectIsFilteredBuckets(rows, entity, ks, lbl, m);
    SubsequenceLabels(w, ks, lbl);
    assert Keys(Collect(rows, entity, ks, lbl, m)) == Labels(w, lbl);
  }

  /**
    When the bucket labels are all different, looking a bucket's label up in a series (as
    the charts do) finds that bucket's value from the table, or 0 when the table has no row
    for it.
   */
  lemma LookupCollect<K>(rows: seq<TrendRow<K>>, entity: string, ks: seq<K>, lbl: K -> string, m: Measure, k: K)
    requires NoDuplicates(Labels(ks, lbl)) && k in ks
    ensures Lookup(Collect(rows, entity, ks, lbl, m), lbl(k))
            == if HasRow(rows, entity, k) then Value(FirstRow(rows, entity, k).value, m) else 0.0
  {
    var pts, w := Collect(rows, entity, ks, lbl, m), BucketsWithRows(rows, entity, ks);
    CollectIsFilteredBuckets(rows, entity, ks, lbl, m);
    SameLabelSameBucket(ks, lbl);
    if HasRow(rows, entity, k) {
      var j :| 0 <= j < |w| && w[j] == k;
      forall a, b | 0 <= a < b < |pts|
        ensures pts[a].key != pts[b].key
      {
        SubsequenceNoDuplicates(w, ks);
      }
      LookupOwnKey(pts, j);
    }
  }

  /** Different labels at different positions make a label pick out its bucket. */
  lemma SameLabelSameBucket<K>(ks: seq<K>, lbl: K -> string)
    requires NoDuplicates(Labels(ks, lbl))
    ensures NoDuplicates(ks)
    ensures forall x, y :: x in ks && y in ks && lbl(x) == lbl(y) ==> x == y
  {
    var ls := Labels(ks, lbl);
    forall x, y | x in ks && y in ks && lbl(x) == lbl(y)
      ensures x == y
    {
      var a :| 0 <= a < |ks| && ks[a] == x;
      var b :| 0 <= b < |ks| && ks[b] == y;
      assert ls[a] == ls[b];
    }
  }

  /** One series per entity, in the entities' order, each named after its entity. */
  function SeriesGroup<K(==)>(rows: seq<TrendRow<K>>, entities: seq<string>, ks: seq<K>, lbl: K -> string, m: Measure)
    : (group: seq<Series>)
    ensures |group| == |entities|
    ensures forall e :: 0 <= e < |entities| ==> group[e] == Series(entities[e], Some(Collect(rows, entities[e], ks, lbl, m)))
  {
    seq(|entities|, e requires 0 <= e < |entities| => Series(entities[e], Some(Collect(rows, entities[e], ks, lbl, m))))
  }

  // ---------------------------------------------------------------------------------------
  // Financial trends: buckets are (year, quarter) pairs, labelled "<year> <quarter>".

  datatype Period = Period(year: int, quarter: string)

  /** `f"{year} {quarter}"`. */
  function PeriodLabel(p: Period): (l: string)
    ensures ' ' !in IntToString(p.year) && l == IntToString(p.year) + " " + p.quarter
  {
    IntToStringNoSpace(p.year);
    IntToString(p.year) + " " + p.quarter
  }

  /**
    Different periods get different labels: the year's digits hold no space, so the first
    space of a label separates the year from the quarter.
   */
  lemma PeriodLabelInjective(p1: Period, p2: Period)
    ensures PeriodLabel(p1) == PeriodLabel(p2) ==> p1 == p2
  {
    if PeriodLabel(p1) == PeriodLabel(p2) {
      IntToStringNoSpace(p1.year);
      IntToStringNoSpace(p2.year);
      SplitAtFirstSpace(IntToString(p1.year), p1.quarter, IntToString(p2.year), p2.quarter);
      IntToStringInjective(p1.year, p2.year);
    }
  }

  lemma SplitAtFirstSpace(a: string, x: string, b: string, z: string)
    requires ' ' !in a && ' ' !in b
    requires a + " " + x == b + " " + z
    ensures a == b && x == z
  {
    var s := a + " " + x;
    assert s[|a|] == ' ' && (b + " " + z)[|b|] == ' ';
    assert forall i :: 0 <= i < |a| ==> s[i] == a[i];
    assert forall i :: 0 <= i < |b| ==> s[i] == b[i];
    assert |a| == |b|;
    assert a == s[..|a|] && b == s[..|b|];
    assert x == s[|a| + 1..] && z == s[|b| + 1..];
  }

  /** The quarters of one year, in order. */
  function YearPeriods(year: int, quarters: seq<string>): (ps: seq<Period>)
    ensures |ps| == |quarters|
    ensures forall j :: 0 <= j < |quarters| ==> ps[j] == Period(year, quarters[j])
  {
    seq(|quarters|, j requires 0 <= j < |quarters| => Period(year, quarters[j]))
  }

  /** `for year in years: for quarter in quarters`: every pair, year-major. */
  function Product(years: seq<int>, quarters: seq<string>): seq<Period>
    decreases |years|
  {
    if years == [] then []
    else Product(years[..|years| - 1], quarters) + YearPeriods(years[|years| - 1], quarters)
  }

  /**
    The buckets of the financial loops run over every year and quarter, year-major: there
    are `|years|·|quarters|` of them and the one at `y·|quarters| + q` is `(years[y], quarters[q])`.
   */
  lemma {:induction false} ProductYearMajor(years: seq<int>, quarters: seq<string>)
    ensures |Product(years, quarters)| == |years| * |quarters|
    ensures forall y, q :: 0 <= y < |years| && 0 <= q < |quarters| ==>
              y * |quarters| + q < |Product(years, quarters)|
              && Product(years, quarters)[y * |quarters| + q] == Period(years[y], quarters[q])
    decreases |years|
  {
    if years != [] {
      var init := years[..|years| - 1];
      var n := |quarters|;
      ProductYearMajor(init, quarters);
      var p := Product(years, quarters);
      assert p == Product(init, quarters) + YearPeriods(years[|years| - 1], quarters);
      assert |p| == |init| * n + n == |years| * n;
      forall y, q | 0 <= y < |years| && 0 <= q < n
        ensures y * n + q < |p| && p[y * n + q] == Period(years[y], quarters[q])
      {
        if y < |init| {
          assert y * n + q < (y + 1) * n <= |init| * n by {
            assert (y + 1) * n == y * n + n;
            MulMonotone(y + 1, |init|, n);
          }
          assert init[y] == years[y];
        } else {
          assert y * n == |init| * n;
        }
      }
    }
  }

  lemma MulMonotone(a: nat, b: nat, n: nat)
    requires a <= b
    ensures a * n <= b * n
  {
  }

  lemma YearPeriodsPrefix(done: seq<Period>, year: int, quarters: seq<string>, q: nat)
    requires q < |quarters|
    ensures done + YearPeriods(year, quarters[..q + 1])
         == (done + YearPeriods(year, quarters[..q])) + [Period(year, quarters[q])]
  {
    assert YearPeriods(year, quarters[..q + 1]) == YearPeriods(year, quarters[..q]) + [Period(year, quarters[q])];
  }

  lemma ProductPrefix(years: seq<int>, quarters: seq<string>, y: nat)
    requires y < |years|
    ensures Product(years[..y + 1], quarters) == Product(years[..y], quarters) + YearPeriods(years[y], quarters)
  {
    assert years[..y + 1][..y] == years[..y];
  }

  lemma FinancialSeriesPrefix(rows: seq<TrendRow<Period>>, divisions: seq<string>, years: seq<int>,
                              quarters: seq<string>, m: Measure, d: nat)
    requires d < |divisions|
    ensures FinancialSeries(rows, divisions[..d + 1], years, quarters, m)
         == FinancialSeries(rows, divisions[..d], years, quarters, m)
            + [Series(divisions[d], Some(Collect(rows, divisions[d], Product(years, quarters), PeriodLabel, m)))]
  {
  }

  lemma {:induction false} ProductMembers(years: seq<int>, quarters: seq<string>)
    ensures forall i :: 0 <= i < |Product(years, quarters)| ==> Product(years, quarters)[i].year in years
    decreases |years|
  {
    if years != [] {
      var init := years[..|years| - 1];
      ProductMembers(init, quarters);
      assert forall x :: x in init ==> x in years;
    }
  }

  /** With no year and no quarter listed twice, no period is listed twice. */
  lemma {:induction false} ProductDistinct(years: seq<int>, quarters: seq<string>)
    requires NoDuplicates(years) && NoDuplicates(quarters)
    ensures NoDuplicates(Product(years, quarters))
    decreases |years|
  {
    if years != [] {
      var init, last := years[..|years| - 1], years[|years| - 1];
      assert NoDuplicates(init);
      ProductDistinct(init, quarters);
      ProductMembers(init, quarters);
      var earlier, latest := Product(init, quarters), YearPeriods(last, quarters);
      assert last !in init;
      forall i, j | 0 <= i < |earlier| && 0 <= j < |latest|
        ensures earlier[i] != latest[j]
      {
        assert earlier[i].year in init;
      }
    }
  }

  /** With no year and no quarter listed twice, no period label is listed twice. */
  lemma ProductLabelsDistinct(years: seq<int>, quarters: seq<string>)
    requires NoDuplicates(years) && NoDuplicates(quarters)
    ensures NoDuplicates(Labels(Product(years, quarters), PeriodLabel))
  {
    var ps := Product(years, quarters);
    ProductDistinct(years, quarters);
    forall a, b | 0 <= a < b < |ps|
      ensures Labels(ps, PeriodLabel)[a] != Labels(ps, PeriodLabel)[b]
    {
      PeriodLabelInjective(ps[a], ps[b]);
    }
  }

  /** `periods`: `[f"{year} {quarter}" for year in years for quarter in quarters]`. */
  function Periods(years: seq<int>, quarters: seq<string>): (ls: seq<string>)
    ensures |ls| == |Product(years, quarters)|
    ensures forall i :: 0 <= i < |ls| ==> ls[i] == PeriodLabel(Product(years, quarters)[i])
    ensures NoDuplicates(years) && NoDuplicates(quarters) ==> NoDuplicates(ls)
  {
    var ls := Labels(Product(years, quarters), PeriodLabel);
    if NoDuplicates(years) && NoDuplicates(quarters) then
      ProductLabelsDistinct(years, quarters);
      ls
    else
      ls
  }

  /** The `revenue_trends` (First) or `profit_trends` (Second) list for the given divisions. */
  function FinancialSeries(rows: seq<TrendRow<Period>>, divisions: seq<string>, years: seq<int>,
                           quarters: seq<string>, m: Measure): (group: seq<Series>)
    ensures |group| == |divisions|
  {
    SeriesGroup(rows, divisions, Product(years, quarters), PeriodLabel, m)
  }

  /**
    The two inner loops of the financial-trends endpoint for one division: over every year
    and, within it, every quarter, appending a revenue and a profit point when the
    aggregated table has a row for that division and period.
   */
  method DivisionPoints(rows: seq<TrendRow<Period>>, division: string, years: seq<int>, quarters: seq<string>)
    returns (revenuePoints: seq<Point>, profitPoints: seq<Point>)
    ensures revenuePoints == Collect(rows, division, Product(years, quarters), PeriodLabel, First)
    ensures profitPoints == Collect(rows, division, Product(years, quarters), PeriodLabel, Second)
  {
    revenuePoints, profitPoints := [], [];
    var y := 0;
    while y < |years|
      invariant 0 <= y <= |years|
      invariant revenuePoints == Collect(rows, division, Product(years[..y], quarters), PeriodLabel, First)
      invariant profitPoints == Collect(rows, division, Product(years[..y], quarters), PeriodLabel, Second)
    {
      var done := Product(years[..y], quarters);
      assert done + YearPeriods(years[y], quarters[..0]) == done;
      var q := 0;
      while q < |quarters|
        invariant 0 <= q <= |quarters|
        invariant revenuePoints == Collect(rows, division, done + YearPeriods(years[y], quarters[..q]), PeriodLabel, First)
        invariant profitPoints == Collect(rows, division, done + YearPeriods(years[y], quarters[..q]), PeriodLabel, Second)
      {
        var period := Period(years[y], quarters[q]);
        YearPeriodsPrefix(done, years[y], quarters, q);
        var found := FirstRow(rows, division, period);
        CollectStep(rows, division, done + YearPeriods(years[y], quarters[..q]), period, PeriodLabel, First, found);
        CollectStep(rows, division, done + YearPeriods(years[y], quarters[..q]), period, PeriodLabel, Second, found);
        if found.Some? {
          revenuePoints := revenuePoints + [Point(PeriodLabel(period), found.value.first)];
          profitPoints := profitPoints + [Point(PeriodLabel(period), found.value.second)];
        }
        q := q + 1;
      }
      assert quarters[..q] == quarters;
      ProductPrefix(years, quarters, y);
      y := y + 1;
    }
    assert years[..y] == years;
  }

  /**
    The series-building loops of the financial-trends endpoint, over the aggregated
    `(division, quarter, year)` table with revenue as the first and net profit as the second
    measure. Returns `revenue_trends`, `profit_trends` and `periods`.
   */
  method FinancialTrends(rows: seq<TrendRow<Period>>, divisions: seq<string>, years: seq<int>, quarters: seq<string>)
    returns (revenue: seq<Series>, profit: seq<Series>, periods: seq<string>)
    ensures revenue == FinancialSeries(rows, divisions, years, quarters, First)
    ensures profit == FinancialSeries(rows, divisions, years, quarters, Second)
    ensures periods == Periods(years, quarters)
  {
    revenue, profit := [], [];
    var d := 0;
    while d < |divisions|
      invariant 0 <= d <= |divisions|
      invariant revenue == FinancialSeries(rows, divisions[..d], years, quarters, First)
      invariant profit == FinancialSeries(rows, divisions[..d], years, quarters, Second)
    {
      var revenuePoints, profitPoints := DivisionPoints(rows, divisions[d], years, quarters);
      FinancialSeriesPrefix(rows, divisions, years, quarters, First, d);
      FinancialSeriesPrefix(rows, divisions, years, quarters, Second, d);
      revenue := revenue + [Series(divisions[d], Some(revenuePoints))];
      profit := profit + [Series(divisions[d], Some(profitPoints))];
      d := d + 1;
    }
    assert divisions[..d] == divisions;
    periods := Periods(years, quarters);
  }

  /**
    What the financial endpoint guarantees about each division's pair of series: named after
    the division, the same period list in both, that list a subsequence of `periods`.
   */
  lemma FinancialSeriesShape(rows: seq<TrendRow<Period>>, divisions: seq<string>, years: seq<int>,
                             quarters: seq<string>, d: nat)
    requires d < |divisions|
    ensures var revenue, profit := FinancialSeries(rows, divisions, years, quarters, First),
                                   FinancialSeries(rows, divisions, years, quarters, Second);
      && revenue[d].name == divisions[d] && profit[d].name == divisions[d]
      && Keys(revenue[d].data.value) == Keys(profit[d].data.value)
      && IsSubsequence(Keys(revenue[d].data.value), Periods(years, quarters))
  {
    PairedSeriesShareKeys(rows, divisions[d], Product(years, quarters), PeriodLabel, First, Second);
    SeriesKeysAreSubsequence(rows, divisions[d], Product(years, quarters), PeriodLabel, First);
  }

  // ---------------------------------------------------------------------------------------
  // Security and supply-chain trends: buckets are date strings, emitted unchanged.

  /** The `date` field of an emitted point: the raw date string. */
  function DateText(date: string): string {
    date
  }

  /** The series of one measure for each entity, over the sorted dates. */
  function DateSeries(rows: seq<TrendRow<string>>, entities: seq<string>, dates: seq<string>, m: Measure)
    : (group: seq<Series>)
    ensures |group| == |entities|
  {
    SeriesGroup(rows, entities, dates, DateText, m)
  }

  /** The inner loop for one entity: over the dates, a point pair for each date with a row. */
  method EntityPoints(rows: seq<TrendRow<string>>, entity: string, dates: seq<string>)
    returns (firstPoints: seq<Point>, secondPoints: seq<Point>)
    ensures firstPoints == Collect(rows, entity, dates, DateText, WholeFirst)
    ensures secondPoints == Collect(rows, entity, dates, DateText, Second)
  {
    firstPoints, secondPoints := [], [];
    var t := 0;
    while t < |dates|
      invariant 0 <= t <= |dates|
      invariant firstPoints == Collect(rows, entity, dates[..t], DateText, WholeFirst)
      invariant secondPoints == Collect(rows, entity, dates[..t], DateText, Second)
    {
      assert dates[..t + 1] == dates[..t] + [dates[t]];
      var found := FirstRow(rows, entity, dates[t]);
      CollectStep(rows, entity, dates[..t], dates[t], DateText, WholeFirst, found);
      CollectStep(rows, entity, dates[..t], dates[t], DateText, Second, found);
      if found.Some? {
        firstPoints := firstPoints + [Point(dates[t], Truncate(found.value.first) as real)];
        secondPoints := secondPoints + [Point(dates[t], found.value.second)];
      }
      t := t + 1;
    }
    assert dates[..t] == dates;
  }

  lemma DateSeriesPrefix(rows: seq<TrendRow<string>>, entities: seq<string>, dates: seq<string>, m: Measure, e: nat)
    requires e < |entities|
    ensures DateSeries(rows, entities[..e + 1], dates, m)
         == DateSeries(rows, entities[..e], dates, m) + [Series(entities[e], Some(Collect(rows, entities[e], dates, DateText, m)))]
  {
  }

  /**
    The shared outer loop of the security and supply-chain endpoints: for each entity, in
    order, the series of its whole first measure and of its second measure over the dates.
   */
  method DateTrends(rows: seq<TrendRow<string>>, entities: seq<string>, dates: seq<string>)
    returns (firsts: seq<Series>, seconds: seq<Series>)
    ensures firsts == DateSeries(rows, entities, dates, WholeFirst)
    ensures seconds == DateSeries(rows, entities, dates, Second)
  {
    firsts, seconds := [], [];
    var e := 0;
    while e < |entities|
      invariant 0 <= e <= |entities|
      invariant firsts == DateSeries(rows, entities[..e], dates, WholeFirst)
      invariant seconds == DateSeries(rows, entities[..e], dates, Second)
    {
      var firstPoints, secondPoints := EntityPoints(rows, entities[e], dates);
      DateSeriesPrefix(rows, entities, dates, WholeFirst, e);
      DateSeriesPrefix(rows, entities, dates, Second, e);
      firsts := firsts + [Series(entities[e], Some(firstPoints))];
      seconds := seconds + [Series(entities[e], Some(secondPoints))];
      e := e + 1;
    }
    assert entities[..e] == entities;
  }

  /**
    The security-districts endpoint's series, over the aggregated `(district, date)` table
    with incident count as the first and public safety score as the second measure:
    `incidents_trends` and `safety_trends`.
   */
  method SecurityTrends(rows: seq<TrendRow<string>>, districts: seq<string>, dates: seq<string>)
    returns (incidents: seq<Series>, safety: seq<Series>)
    ensures incidents == DateSeries(rows, districts, dates, WholeFirst)
    ensures safety == DateSeries(rows, districts, dates, Second)
  {
    incidents, safety := DateTrends(rows, districts, dates);
  }

  /**
    The supply-chain-facilities endpoint's series, over the aggregated `(facility, date)`
    table with production volume as the first and quality score as the second measure:
    `production_trends` and `quality_trends`.
   */
  method SupplyChainTrends(rows: seq<TrendRow<string>>, facilities: seq<string>, dates: seq<string>)
    returns (production: seq<Series>, quality: seq<Series>)
    ensures production == DateSeries(rows, facilities, dates, WholeFirst)
    ensures quality == DateSeries(rows, facilities, dates, Second)
  {
    production, quality := DateTrends(rows, facilities, dates);
  }

  /** Leaving dates out of a strictly increasing list keeps it strictly increasing. */
  lemma {:induction false} BucketsWithRowsIncrease(rows: seq<TrendRow<string>>, entity: string, dates: seq<string>)
    requires StrictlyIncreasing(dates)
    ensures StrictlyIncreasing(BucketsWithRows(rows, entity, dates))
    decreases |dates|
  {
    if dates != [] {
      var init := dates[..|dates| - 1];
      var last := dates[|dates| - 1];
      assert StrictlyIncreasing(init);
      BucketsWithRowsIncrease(rows, entity, init);
      var w := BucketsWithRows(rows, entity, init);
      forall i | 0 <= i < |w|
        ensures StrLess(w[i], last)
      {
        assert w[i] in init;
        var j :| 0 <= j < |init| && init[j] == w[i];
        assert dates[j] == w[i];
      }
    }
  }

  /**
    Over sorted, de-duplicated dates, every security or supply-chain series has strictly
    increasing dates, and so no date twice.
   */
  lemma DateSeriesIncrease(rows: seq<TrendRow<string>>, entity: string, dates: seq<string>, m: Measure)
    requires StrictlyIncreasing(dates)
    ensures StrictlyIncreasing(Keys(Collect(rows, entity, dates, DateText, m)))
    ensures var pts := Collect(rows, entity, dates, DateText, m);
      forall a, b :: 0 <= a < b < |pts| ==> pts[a].key != pts[b].key
  {
    var pts := Collect(rows, entity, dates, DateText, m);
    CollectIsFilteredBuckets(rows, entity, dates, DateText, m);
    BucketsWithRowsIncrease(rows, entity, dates);
    assert Keys(pts) == BucketsWithRows(rows, entity, dates);
    forall a, b | 0 <= a < b < |pts|
      ensures pts[a].key != pts[b].key
    {
      StrLessIrreflexive(pts[a].key);
      assert StrLess(Keys(pts)[a], Keys(pts)[b]);
    }
  }
}
