/**
  The supply-chain trends chart. Its payload is the supply-chain-facilities response:
  `production_trends` is the primary group and `quality_trends` the secondary one. A row's
  x-axis value is the month label of the reference point's raw date, but every column is
  looked up by the raw date itself. Columns are `"<facility> Production"` and
  `"<facility> Quality"`.

  `monthLabel` stands for `new Date(d).toLocaleDateString('en-US', { month: 'short',
  year: '2-digit' })`, `shown` for the template-literal rendering of a number and
  `localised` for `Number.prototype.toLocaleString`.
 */
module SupplyChainChart {
  import opened Wrappers
  import opened SeriesModel
  import opened Pivot
  import opened Text

  const Colors: seq<string> := ["#0ea5e9", "#10b981", "#f59e0b", "#ef4444", "#8b5cf6", "#06b6d4"]

  function Config(monthLabel: string -> string): (cfg: ChartConfig)
    ensures ValidConfig(cfg)
  {
    var cfg := ChartConfig("No supply chain data available", "date", " Production", " Quality",
                           "production-", "quality-", Colors, monthLabel);
    assert " Production"[3..] != " Quality";
    cfg
  }

  /**
    `SupplyChainChart({ data })`: the placeholder when the payload or its
    `production_trends` is missing; `quality_trends` is not part of the guard.
   */
  function SupplyChainChart(data: Option<Payload>, monthLabel: string -> string): (view: ChartView)
    requires RendersSafely(data)
    ensures view.Placeholder? <==> data.None? || data.value.primary.None?
    ensures view.Placeholder? ==> view.message == "No supply chain data available"
    ensures view.LineChart? ==> view.xAxisKey == "date"
  {
    Render(data, Config(monthLabel))
  }

  /**
    Rows follow `production_trends[0].data` one to one and in order, labelled with the month
    of each point's date; none when that series or its `data` is missing. A date that only
    non-reference series have gives no row: every row comes from a reference point.
   */
  lemma SupplyChainRows(production: seq<Series>, quality: seq<Series>, monthLabel: string -> string)
    requires RowsSafe(production, quality)
    ensures var rows := ChartData(production, quality, Config(monthLabel));
      && (|production| == 0 || production[0].data.None? ==> rows == [])
      && (|production| > 0 && production[0].data.Some? ==>
            && |rows| == |production[0].data.value|
            && (forall i :: 0 <= i < |rows| ==> rows[i].key == monthLabel(production[0].data.value[i].key)))
      && (forall r :: r in rows ==>
            exists i :: 0 <= i < |production[0].data.value| && r.key == monthLabel(production[0].data.value[i].key))
  {
    var rows := ChartData(production, quality, Config(monthLabel));
    forall r | r in rows
      ensures exists i :: 0 <= i < |production[0].data.value| && r.key == monthLabel(production[0].data.value[i].key)
    {
      var i :| 0 <= i < |rows| && rows[i] == r;
      assert r.key == monthLabel(production[0].data.value[i].key);
    }
  }

  /**
    The cells of row `i` are looked up by the reference point's raw date: each production
    series (no later one sharing its name) gives `"<name> Production"` its first point on that
    date, else 0, and each quality series likewise gives `"<name> Quality"`.
   */
  lemma SupplyChainCells(production: seq<Series>, quality: seq<Series>, monthLabel: string -> string, i: nat)
    requires ReferenceHasRows(production) && RowsSafe(production, quality)
    requires i < |production[0].data.value|
    ensures var row, date := ChartData(production, quality, Config(monthLabel))[i], production[0].data.value[i].key;
      && (forall j :: 0 <= j < |production| && LastOfName(production, j) ==>
            row.columns[production[j].name + " Production"] == Lookup(production[j].data.value, date))
      && (forall j :: 0 <= j < |quality| && LastOfName(quality, j) ==>
            row.columns[quality[j].name + " Quality"] == Lookup(quality[j].data.value, date))
  {
    CellValues(production, quality, Config(monthLabel), i);
  }

  /**
    Production line `i` draws `"<name> Production"` and quality line `i` draws
    `"<name> Quality"` (dashed), both in `Colors[i mod 6]`; every row has exactly the
    columns the lines draw.
   */
  lemma SupplyChainLines(data: Option<Payload>, monthLabel: string -> string)
    requires RendersSafely(data) && SupplyChainChart(data, monthLabel).LineChart?
    ensures var view, production, quality := SupplyChainChart(data, monthLabel), data.value.primary.value, data.value.secondary.value;
      && (forall i :: 0 <= i < |production| ==>
            view.lines[i] == Line("production-" + production[i].name, production[i].name + " Production", Colors[i % 6], false))
      && (forall i :: 0 <= i < |quality| ==>
            view.lines[|production| + i] == Line("quality-" + quality[i].name, quality[i].name + " Quality", Colors[i % 6], true))
      && (forall r :: r in view.rows ==> r.columns.Keys == set l | l in view.lines :: l.dataKey)
  {
    var view := SupplyChainChart(data, monthLabel);
    LineLayout(data, Config(monthLabel));
    forall r | r in view.rows
      ensures r.columns.Keys == set l | l in view.lines :: l.dataKey
    {
      var i :| 0 <= i < |view.rows| && view.rows[i] == r;
      ColumnsAreLineKeys(data, Config(monthLabel), i);
    }
  }

  /**
    The tooltip formatter, testing "Production" before "Quality": a label including
    "Production" shows `<localised> units` and has its first " Production" spelt
    " Production Volume"; otherwise a label including "Quality" shows `<value>%` and has its
    first " Quality" spelt " Quality Score"; any other label is passed through with the raw value.
   */
  function Tooltip(value: real, name: string, shown: real -> string, localised: real -> string): (entry: TooltipEntry)
    ensures Includes(name, "Production") ==> entry.value == Formatted(localised(value) + " units")
    ensures !Includes(name, "Production") && Includes(name, "Quality") ==> entry.value == Formatted(shown(value) + "%")
    ensures Includes(name, "Production") ==> entry.name == ReplaceFirst(name, " Production", " Production Volume")
    ensures !Includes(name, "Production") && Includes(name, "Quality") ==>
              entry.name == ReplaceFirst(name, " Quality", " Quality Score")
    ensures !Includes(name, "Production") && !Includes(name, "Quality") ==> entry == TooltipEntry(Raw(value), name)
    ensures |entry.name| >= |name|
  {
    if Includes(name, "Production") then
      TooltipEntry(Formatted(localised(value) + " units"), ReplaceFirst(name, " Production", " Production Volume"))
    else if Includes(name, "Quality") then
      TooltipEntry(Formatted(shown(value) + "%"), ReplaceFirst(name, " Quality", " Quality Score"))
    else
      TooltipEntry(Raw(value), name)
  }

  /** The tooltip of a production line whose facility name lacks "Production". */
  lemma ProductionLineTooltip(facility: string, value: real, shown: real -> string, localised: real -> string)
    requires !Includes(facility, "Production")
    ensures Tooltip(value, facility + " Production", shown, localised)
              == TooltipEntry(Formatted(localised(value) + " units"), facility + " Production Volume")
  {
    assert facility + " Production" == facility + " " + "Production";
    assert " Production" == " " + "Production" && " Production Volume" == " " + "Production" + " Volume";
    assert facility + " Production Volume" == facility + " " + "Production" + " Volume";
    LabelIncludesWord(facility, "Production");
    RewriteLabelSuffix(facility, "Production", " Volume");
    assert Includes(facility + " Production", "Production");
    assert ReplaceFirst(facility + " Production", " Production", " Production Volume") == facility + " Production Volume";
  }

  /** The tooltip of a quality line whose facility name lacks both "Production" and "Quality". */
  lemma QualityLineTooltip(facility: string, value: real, shown: real -> string, localised: real -> string)
    requires !Includes(facility, "Production") && !Includes(facility, "Quality")
    ensures Tooltip(value, facility + " Quality", shown, localised)
              == TooltipEntry(Formatted(shown(value) + "%"), facility + " Quality Score")
  {
    assert facility + " Quality" == facility + " " + "Quality";
    assert " Quality" == " " + "Quality" && " Quality Score" == " " + "Quality" + " Score";
    assert facility + " Quality Score" == facility + " " + "Quality" + " Score";
    LabelExcludes(facility, "Quality", "Production");
    LabelIncludesWord(facility, "Quality");
    RewriteLabelSuffix(facility, "Quality", " Score");
  }

  /**
    The rules test the whole label, not its suffix: a quality line of a facility whose name
    includes "Production" is shown as a production volume in units, and its label has its
    first " Production" rewritten.
   */
  lemma QualityLineOfProductionNamedFacility(facility: string, value: real, shown: real -> string,
                                             localised: real -> string)
    requires Includes(facility, "Production")
    ensures Tooltip(value, facility + " Quality", shown, localised).value == Formatted(localised(value) + " units")
    ensures Tooltip(value, facility + " Quality", shown, localised).name
         == ReplaceFirst(facility + " Quality", " Production", " Production Volume")
  {
    IncludesExtended(facility, " Quality", "Production");
  }

  /** Labels including neither word are passed through with the raw value. */
  lemma OtherTooltip(name: string, value: real, shown: real -> string, localised: real -> string)
    requires !Includes(name, "Production") && !Includes(name, "Quality")
    ensures Tooltip(value, name, shown, localised) == TooltipEntry(Raw(value), name)
  {
  }
}
