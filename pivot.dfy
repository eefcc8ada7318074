/**
  The series pivot shared by the financial, security and supply-chain line charts.

  Each chart receives two groups of series (a primary group, whose first series is the
  reference, and a secondary group). It builds one row per point of the reference series;
  the row carries the x-axis value and, for every series of both groups, a column named
  `series.name + suffix` holding the value of that series' first point with the same raw
  key, or 0. A group's columns are written by a left fold (`reduce` assigning
  `acc[label] = …`), so when two series of a group share a name the later one wins; the
  row object is `{ key, ...primaryColumns, ...secondaryColumns }`.
 */
module Pivot {
  import opened Wrappers
  import opened SeriesModel

  /** One entry of the chart's `data` array: the x-axis value and the named columns. */
  datatype Row = Row(key: string, columns: map<string, real>)

  /** A drawn `<Line>`: its React key, its `dataKey`, its stroke colour and whether it is dashed. */
  datatype Line = Line(id: string, dataKey: string, color: string, dashed: bool)

  /** What a chart component renders: the placeholder text, or a line chart. */
  datatype ChartView =
    | Placeholder(message: string)
    | LineChart(xAxisKey: string, rows: seq<Row>, lines: seq<Line>)

  /** A tooltip's value text: a formatted string, or the number passed through unformatted. */
  datatype Shown = Formatted(text: string) | Raw(number: real)

  /** The `[value, name]` pair a tooltip formatter returns. */
  datatype TooltipEntry = TooltipEntry(value: Shown, name: string)

  /** The two fields of the backend response that a chart reads; either may be missing. */
  datatype Payload = Payload(primary: Option<seq<Series>>, secondary: Option<seq<Series>>)

  /**
    What distinguishes the three charts: the placeholder text, the x-axis field, the two
    column suffixes, the two React-key prefixes, the colour palette and how a reference
    key becomes the row's x-axis value.
   */
  datatype ChartConfig = ChartConfig(
    placeholder: string,
    xAxisKey: string,
    primarySuffix: string,
    secondarySuffix: string,
    primaryId: string,
    secondaryId: string,
    colors: seq<string>,
    rowLabel: string -> string)

  predicate EndsWith(s: string, suffix: string) {
    |suffix| <= |s| && s[|s| - |suffix|..] == suffix
  }

  /**
    A usable configuration: a non-empty palette, two suffixes neither of which ends the
    other, and an x-axis field that ends in neither suffix.
   */
  predicate ValidConfig(cfg: ChartConfig) {
    && |cfg.colors| > 0
    && !EndsWith(cfg.primarySuffix, cfg.secondarySuffix)
    && !EndsWith(cfg.secondarySuffix, cfg.primarySuffix)
    && !EndsWith(cfg.xAxisKey, cfg.primarySuffix)
    && !EndsWith(cfg.xAxisKey, cfg.secondarySuffix)
  }

  /** The column label `${series.name}${suffix}`. */
  function Label(name: string, suffix: string): string {
    name + suffix
  }

  /** The labels a group writes. */
  function LabelSet(group: seq<Series>, suffix: string): set<string> {
    set i | 0 <= i < |group| :: Label(group[i].name, suffix)
  }

  /** No series after index `i` has the name of series `i`. */
  predicate LastOfName(group: seq<Series>, i: nat)
    requires i < |group|
  {
    forall j :: i < j < |group| ==> group[j].name != group[i].name
  }

  lemma LabelInjective(a: string, b: string, suffix: string)
    ensures Label(a, suffix) == Label(b, suffix) ==> a == b
  {
    if Label(a, suffix) == Label(b, suffix) {
      assert a == Label(a, suffix)[..|a|];
    }
  }

  lemma LabelEndsWith(name: string, suffix: string)
    ensures EndsWith(Label(name, suffix), suffix)
  {
    assert Label(name, suffix)[|name|..] == suffix;
  }

  /** A string that ends with two suffixes has the longer one ending with the shorter one. */
  lemma EndsWithBoth(s: string, a: string, b: string)
    requires EndsWith(s, a) && EndsWith(s, b)
    ensures EndsWith(a, b) || EndsWith(b, a)
  {
    if |b| <= |a| {
      assert a[|a| - |b|..] == s[|s| - |b|..];
    } else {
      assert b[|b| - |a|..] == s[|s| - |a|..];
    }
  }

  /**
    `group.reduce((acc, series) => { acc[label] = find(...)?.value || 0; return acc }, acc)`
    for the row whose reference key is `k`. The result has exactly the labels of `acc` and
    of the group; the column of a series that no later series shares its name with holds
    its first point at `k` (or 0); labels the group does not write keep their value.
   */
  function GroupColumns(group: seq<Series>, k: string, suffix: string, acc: map<string, real>)
    : (r: map<string, real>)
    requires AllHaveData(group)
    ensures r.Keys == acc.Keys + LabelSet(group, suffix)
    ensures forall i :: 0 <= i < |group| && LastOfName(group, i) ==>
              r[Label(group[i].name, suffix)] == Lookup(group[i].data.value, k)
    ensures forall l :: l in acc && l !in LabelSet(group, suffix) ==> r[l] == acc[l]
    decreases |group|
  {
    if group == [] then acc
    else
      var first := Label(group[0].name, suffix);
      var r := GroupColumns(group[1..], k, suffix, acc[first := Lookup(group[0].data.value, k)]);
      LabelSetCons(group, suffix);
      LastHasNoLaterLabel(group, suffix);
      LastOfNameInTail(group);
      r
  }

  lemma LabelSetCons(group: seq<Series>, suffix: string)
    requires |group| > 0
    ensures LabelSet(group, suffix) == {Label(group[0].name, suffix)} + LabelSet(group[1..], suffix)
  {
    forall l | l in LabelSet(group, suffix)
      ensures l in {Label(group[0].name, suffix)} + LabelSet(group[1..], suffix)
    {
      var i :| 0 <= i < |group| && l == Label(group[i].name, suffix);
      if i > 0 {
        assert group[1..][i - 1] == group[i];
      }
    }
  }

  lemma LastHasNoLaterLabel(group: seq<Series>, suffix: string)
    requires |group| > 0
    ensures LastOfName(group, 0) ==> Label(group[0].name, suffix) !in LabelSet(group[1..], suffix)
  {
    forall j | 0 <= j < |group[1..]|
      ensures LastOfName(group, 0) ==> Label(group[0].name, suffix) != Label(group[1..][j].name, suffix)
    {
      LabelInjective(group[0].name, group[1..][j].name, suffix);
      assert group[1..][j] == group[j + 1];
    }
  }

  lemma LastOfNameInTail(group: seq<Series>)
    requires |group| > 0
    ensures forall i :: 1 <= i < |group| ==> group[1..][i - 1] == group[i]
    ensures forall i :: 1 <= i < |group| && LastOfName(group, i) ==> LastOfName(group[1..], i - 1)
  {
  }

  /** A group of one series writes exactly that series' column. */
  lemma SingleSeriesColumns(s: Series, k: string, suffix: string)
    requires s.data.Some?
    ensures GroupColumns([s], k, suffix, map[]) == map[Label(s.name, suffix) := Lookup(s.data.value, k)]
  {
    assert [s][1..] == [];
  }

  /**
    The columns of the row for reference key `k`: the primary group's labels spread first,
    then the secondary group's.
   */
  function RowColumns(primary: seq<Series>, secondary: seq<Series>, k: string, cfg: ChartConfig)
    : map<string, real>
    requires AllHaveData(primary) && AllHaveData(secondary)
  {
    GroupColumns(primary, k, cfg.primarySuffix, map[]) + GroupColumns(secondary, k, cfg.secondarySuffix, map[])
  }

  /** The first series of the primary group exists and has at least one point. */
  predicate ReferenceHasRows(primary: seq<Series>) {
    |primary| > 0 && primary[0].data.Some? && |primary[0].data.value| > 0
  }

  /**
    What the JavaScript needs not to throw while building rows: once the reference series
    has a point, every series of both groups must carry `data` (`series.data.find`).
   */
  predicate RowsSafe(primary: seq<Series>, secondary: seq<Series>) {
    ReferenceHasRows(primary) ==> AllHaveData(primary) && AllHaveData(secondary)
  }

  /**
    `chartData`: `primary[0]?.data?.map(item => ({ key: rowLabel(item.key), ...columns })) || []`.
    Rows follow the reference series one to one and in order; keys that occur only in other
    series produce no row.
   */
  function ChartData(primary: seq<Series>, secondary: seq<Series>, cfg: ChartConfig): (rows: seq<Row>)
    requires RowsSafe(primary, secondary)
    ensures !ReferenceHasRows(primary) ==> rows == []
    ensures ReferenceHasRows(primary) ==>
              && |rows| == |primary[0].data.value|
              && forall i :: 0 <= i < |rows| ==> rows[i].key == cfg.rowLabel(primary[0].data.value[i].key)
  {
    if |primary| == 0 || primary[0].data.None? then []
    else
      var reference := primary[0].data.value;
      seq(|reference|, i requires 0 <= i < |reference| =>
        Row(cfg.rowLabel(reference[i].key), RowColumns(primary, secondary, reference[i].key, cfg)))
  }

  lemma RowAt(primary: seq<Series>, secondary: seq<Series>, cfg: ChartConfig, i: nat)
    requires RowsSafe(primary, secondary) && ReferenceHasRows(primary)
    requires i < |primary[0].data.value|
    ensures ChartData(primary, secondary, cfg)[i]
            == Row(cfg.rowLabel(primary[0].data.value[i].key),
                   RowColumns(primary, secondary, primary[0].data.value[i].key, cfg))
  {
  }

  /** A row of a chart with one series in each group. */
  lemma SinglePairRow(p: Series, q: Series, cfg: ChartConfig, i: nat)
    requires p.data.Some? && q.data.Some? && i < |p.data.value|
    ensures var k := p.data.value[i].key;
      ChartData([p], [q], cfg)[i]
      == Row(cfg.rowLabel(k), map[Label(p.name, cfg.primarySuffix) := Lookup(p.data.value, k)]
                              + map[Label(q.name, cfg.secondarySuffix) := Lookup(q.data.value, k)])
  {
    var k := p.data.value[i].key;
    RowAt([p], [q], cfg, i);
    SingleSeriesColumns(p, k, cfg.primarySuffix);
    SingleSeriesColumns(q, k, cfg.secondarySuffix);
  }

  /** `group.map((series, index) => <Line key={id + name} dataKey={name + suffix} stroke={colors[index % n]} />)`. */
  function Lines(group: seq<Series>, suffix: string, id: string, colors: seq<string>, dashed: bool): (ls: seq<Line>)
    requires |colors| > 0
    ensures |ls| == |group|
    ensures forall i :: 0 <= i < |group| ==>
              ls[i] == Line(id + group[i].name, Label(group[i].name, suffix), colors[i % |colors|], dashed)
              && ls[i].color in colors
  {
    seq(|group|, i requires 0 <= i < |group| =>
      Line(id + group[i].name, Label(group[i].name, suffix), colors[i % |colors|], dashed))
  }

  /**
    What a chart needs not to throw: with the primary group present, the secondary group must
    be present too (its `reduce` and `map` are called unguarded), and the rows must be safe.
   */
  predicate RendersSafely(data: Option<Payload>) {
    data.Some? && data.value.primary.Some? ==>
      && data.value.secondary.Some?
      && RowsSafe(data.value.primary.value, data.value.secondary.value)
  }

  /**
    A chart component: the placeholder exactly when the payload or its primary group is
    missing (an empty group is still drawn); otherwise the rows and the lines of both groups.
   */
  function Render(data: Option<Payload>, cfg: ChartConfig): (view: ChartView)
    requires ValidConfig(cfg) && RendersSafely(data)
    ensures view.Placeholder? <==> data.None? || data.value.primary.None?
    ensures view.Placeholder? ==> view.message == cfg.placeholder
    ensures view.LineChart? ==>
              && view.xAxisKey == cfg.xAxisKey
              && view.rows == ChartData(data.value.primary.value, data.value.secondary.value, cfg)
              && |view.lines| == |data.value.primary.value| + |data.value.secondary.value|
  {
    if data.None? || data.value.primary.None? then Placeholder(cfg.placeholder)
    else
      var primary := data.value.primary.value;
      var secondary := data.value.secondary.value;
      LineChart(cfg.xAxisKey, ChartData(primary, secondary, cfg),
        Lines(primary, cfg.primarySuffix, cfg.primaryId, cfg.colors, false)
        + Lines(secondary, cfg.secondarySuffix, cfg.secondaryId, cfg.colors, true))
  }

  /** A label of one group is never a label of the other, nor the x-axis field. */
  lemma {:induction false} LabelsDisjoint(primary: seq<Series>, secondary: seq<Series>, cfg: ChartConfig)
    requires ValidConfig(cfg)
    ensures LabelSet(primary, cfg.primarySuffix) !! LabelSet(secondary, cfg.secondarySuffix)
    ensures cfg.xAxisKey !in LabelSet(primary, cfg.primarySuffix) + LabelSet(secondary, cfg.secondarySuffix)
  {
    forall l | l in LabelSet(primary, cfg.primarySuffix)
      ensures EndsWith(l, cfg.primarySuffix)
    {
      var i :| 0 <= i < |primary| && l == Label(primary[i].name, cfg.primarySuffix);
      LabelEndsWith(primary[i].name, cfg.primarySuffix);
    }
    forall l | l in LabelSet(secondary, cfg.secondarySuffix)
      ensures EndsWith(l, cfg.secondarySuffix)
    {
      var i :| 0 <= i < |secondary| && l == Label(secondary[i].name, cfg.secondarySuffix);
      LabelEndsWith(secondary[i].name, cfg.secondarySuffix);
    }
    forall l | l in LabelSet(primary, cfg.primarySuffix) && l in LabelSet(secondary, cfg.secondarySuffix)
      ensures false
    {
      EndsWithBoth(l, cfg.primarySuffix, cfg.secondarySuffix);
    }
  }

  /**
    The cell values of row `i`: the column of primary series `j` (one that no later primary
    series shares its name with) holds that series' first point at the row's raw reference
    key, or 0; likewise for the secondary group. The two groups never overwrite each other.
   */
  lemma {:induction false} CellValues(primary: seq<Series>, secondary: seq<Series>, cfg: ChartConfig, i: nat)
    requires ValidConfig(cfg) && ReferenceHasRows(primary) && RowsSafe(primary, secondary)
    requires i < |primary[0].data.value|
    ensures forall j :: 0 <= j < |primary| ==>
              Label(primary[j].name, cfg.primarySuffix) in ChartData(primary, secondary, cfg)[i].columns
    ensures forall j :: 0 <= j < |secondary| ==>
              Label(secondary[j].name, cfg.secondarySuffix) in ChartData(primary, secondary, cfg)[i].columns
    ensures forall j :: 0 <= j < |primary| && LastOfName(primary, j) ==>
              ChartData(primary, secondary, cfg)[i].columns[Label(primary[j].name, cfg.primarySuffix)]
                == Lookup(primary[j].data.value, primary[0].data.value[i].key)
    ensures forall j :: 0 <= j < |secondary| && LastOfName(secondary, j) ==>
              ChartData(primary, secondary, cfg)[i].columns[Label(secondary[j].name, cfg.secondarySuffix)]
                == Lookup(secondary[j].data.value, primary[0].data.value[i].key)
  {
    var k := primary[0].data.value[i].key;
    var m1 := GroupColumns(primary, k, cfg.primarySuffix, map[]);
    var m2 := GroupColumns(secondary, k, cfg.secondarySuffix, map[]);
    assert ChartData(primary, secondary, cfg)[i].columns == m1 + m2;
    LabelsDisjoint(primary, secondary, cfg);
    forall j | 0 <= j < |primary| && LastOfName(primary, j)
      ensures (m1 + m2)[Label(primary[j].name, cfg.primarySuffix)] == m1[Label(primary[j].name, cfg.primarySuffix)]
    {
      assert Label(primary[j].name, cfg.primarySuffix) in LabelSet(primary, cfg.primarySuffix);
    }
  }

  /** The `dataKey`s of a group's lines are its labels. */
  lemma LineKeysOfGroup(group: seq<Series>, suffix: string, id: string, colors: seq<string>, dashed: bool)
    requires |colors| > 0
    ensures (set l | l in Lines(group, suffix, id, colors, dashed) :: l.dataKey) == LabelSet(group, suffix)
  {
    var lines := Lines(group, suffix, id, colors, dashed);
    forall l | l in LabelSet(group, suffix)
      ensures l in (set x | x in lines :: x.dataKey)
    {
      var j :| 0 <= j < |group| && l == Label(group[j].name, suffix);
      assert lines[j].dataKey == l;
    }
  }

  lemma DataKeysOfConcat(p: seq<Line>, s: seq<Line>)
    ensures (set l | l in p + s :: l.dataKey) == (set l | l in p :: l.dataKey) + (set l | l in s :: l.dataKey)
  {
  }

  /**
    Every row has exactly one column per line: its columns are the `dataKey`s of the drawn
    lines, and the x-axis field is not among them.
   */
  lemma ColumnsAreLineKeys(data: Option<Payload>, cfg: ChartConfig, i: nat)
    requires ValidConfig(cfg) && RendersSafely(data)
    requires Render(data, cfg).LineChart? && i < |Render(data, cfg).rows|
    ensures Render(data, cfg).rows[i].columns.Keys
              == set l | l in Render(data, cfg).lines :: l.dataKey
    ensures cfg.xAxisKey !in Render(data, cfg).rows[i].columns
  {
    var primary := data.value.primary.value;
    var secondary := data.value.secondary.value;
    var view := Render(data, cfg);
    var k := primary[0].data.value[i].key;
    assert view.rows[i].columns
      == GroupColumns(primary, k, cfg.primarySuffix, map[]) + GroupColumns(secondary, k, cfg.secondarySuffix, map[]);
    var p := Lines(primary, cfg.primarySuffix, cfg.primaryId, cfg.colors, false);
    var s := Lines(secondary, cfg.secondarySuffix, cfg.secondaryId, cfg.colors, true);
    assert view.lines == p + s;
    DataKeysOfConcat(p, s);
    LineKeysOfGroup(primary, cfg.primarySuffix, cfg.primaryId, cfg.colors, false);
    LineKeysOfGroup(secondary, cfg.secondarySuffix, cfg.secondaryId, cfg.colors, true);
    LabelsDisjoint(primary, secondary, cfg);
  }

  /**
    The drawn lines: line `i` of the primary group is solid, keyed and labelled by series `i`
    and coloured `colors[i mod n]`; the secondary group follows, dashed, with its own index.
   */
  lemma LineLayout(data: Option<Payload>, cfg: ChartConfig)
    requires ValidConfig(cfg) && RendersSafely(data)
    requires Render(data, cfg).LineChart?
    ensures var primary, secondary, lines := data.value.primary.value, data.value.secondary.value, Render(data, cfg).lines;
      && (forall i :: 0 <= i < |primary| ==>
            lines[i] == Line(cfg.primaryId + primary[i].name, Label(primary[i].name, cfg.primarySuffix),
                             cfg.colors[i % |cfg.colors|], false))
      && (forall i :: 0 <= i < |secondary| ==>
            lines[|primary| + i] == Line(cfg.secondaryId + secondary[i].name, Label(secondary[i].name, cfg.secondarySuffix),
                                         cfg.colors[i % |cfg.colors|], true))
  {
    var primary, secondary := data.value.primary.value, data.value.secondary.value;
    var p := Lines(primary, cfg.primarySuffix, cfg.primaryId, cfg.colors, false);
    var q := Lines(secondary, cfg.secondarySuffix, cfg.secondaryId, cfg.colors, true);
    assert Render(data, cfg).lines == p + q;
    assert forall i :: 0 <= i < |secondary| ==> (p + q)[|primary| + i] == q[i];
  }
}
