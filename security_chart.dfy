/**
  The security trends chart. Its payload is the security-districts response:
  `safety_trends` is the primary group and `incidents_trends` the secondary one. A row's
  x-axis value is the month label of the reference point's raw date, but every column is
  looked up by the raw date itself. Columns are `"<district> Safety"` and
  `"<district> Incidents"`.

  `monthLabel` stands for `new Date(d).toLocaleDateString('en-US', { month: 'short',
  year: '2-digit' })`, and `shown` for the template-literal rendering of a number.
 */
module SecurityChart {
  import opened Wrappers
  import opened SeriesModel
  import opened Pivot
  import opened Text

  const Colors: seq<string> := ["#0ea5e9", "#10b981", "#f59e0b", "#ef4444", "#8b5cf6", "#06b6d4"]

  function Config(monthLabel: string -> string): (cfg: ChartConfig)
    ensures ValidConfig(cfg)
  {
    var cfg := ChartConfig("No security data available", "date", " Safety", " Incidents",
                           "safety-", "incidents-", Colors, monthLabel);
    assert " Incidents"[3..] != " Safety";
    cfg
  }

  /**
    `SecurityChart({ data })`: the placeholder when the payload or its `safety_trends` is
    missing; `incidents_trends` is not part of the guard.
   */
  function SecurityChart(data: Option<Payload>, monthLabel: string -> string): (view: ChartView)
    requires RendersSafely(data)
    ensures view.Placeholder? <==> data.None? || data.value.primary.None?
    ensures view.Placeholder? ==> view.message == "No security data available"
    ensures view.LineChart? ==> view.xAxisKey == "date"
  {
    Render(data, Config(monthLabel))
  }

  /**
    One row per point of `safety_trends[0].data`, in order, labelled with the month of that
    point's date; none when that series or its `data` is missing.
   */
  lemma SecurityRows(safety: seq<Series>, incidents: seq<Series>, monthLabel: string -> string)
    requires RowsSafe(safety, incidents)
    ensures var rows := ChartData(safety, incidents, Config(monthLabel));
      && (|safety| == 0 || safety[0].data.None? ==> rows == [])
      && (|safety| > 0 && safety[0].data.Some? ==>
            && |rows| == |safety[0].data.value|
            && forall i :: 0 <= i < |rows| ==> rows[i].key == monthLabel(safety[0].data.value[i].key))
  {
  }

  /**
    The cells of row `i` are looked up by the reference point's raw date: each safety
    series (no later one sharing its name) gives `"<name> Safety"` its first point on that
    date, else 0, and each incidents series likewise gives `"<name> Incidents"`.
   */
  lemma SecurityCells(safety: seq<Series>, incidents: seq<Series>, monthLabel: string -> string, i: nat)
    requires ReferenceHasRows(safety) && RowsSafe(safety, incidents)
    requires i < |safety[0].data.value|
    ensures var row, date := ChartData(safety, incidents, Config(monthLabel))[i], safety[0].data.value[i].key;
      && (forall j :: 0 <= j < |safety| && LastOfName(safety, j) ==>
            row.columns[safety[j].name + " Safety"] == Lookup(safety[j].data.value, date))
      && (forall j :: 0 <= j < |incidents| && LastOfName(incidents, j) ==>
            row.columns[incidents[j].name + " Incidents"] == Lookup(incidents[j].data.value, date))
  {
    CellValues(safety, incidents, Config(monthLabel), i);
  }

  /**
    Two reference dates in the same month give two rows with the same x-axis label, each
    holding the values found on its own raw date.
   */
  lemma SameMonthStillSeparateRows(safety: seq<Series>, incidents: seq<Series>, monthLabel: string -> string,
                                   a: nat, b: nat, j: nat)
    requires ReferenceHasRows(safety) && RowsSafe(safety, incidents)
    requires a < b < |safety[0].data.value| && j < |safety| && LastOfName(safety, j)
    requires monthLabel(safety[0].data.value[a].key) == monthLabel(safety[0].data.value[b].key)
    ensures var rows, reference := ChartData(safety, incidents, Config(monthLabel)), safety[0].data.value;
      && rows[a].key == rows[b].key
      && rows[a].columns[safety[j].name + " Safety"] == Lookup(safety[j].data.value, reference[a].key)
      && rows[b].columns[safety[j].name + " Safety"] == Lookup(safety[j].data.value, reference[b].key)
  {
    SecurityCells(safety, incidents, monthLabel, a);
    SecurityCells(safety, incidents, monthLabel, b);
  }

  /**
    Safety line `i` draws `"<name> Safety"` and incidents line `i` draws `"<name> Incidents"`
    (dashed), both in `Colors[i mod 6]`; every row has exactly the columns the lines draw.
   */
  lemma SecurityLines(data: Option<Payload>, monthLabel: string -> string)
    requires RendersSafely(data) && SecurityChart(data, monthLabel).LineChart?
    ensures var view, safety, incidents := SecurityChart(data, monthLabel), data.value.primary.value, data.value.secondary.value;
      && (forall i :: 0 <= i < |safety| ==>
            view.lines[i] == Line("safety-" + safety[i].name, safety[i].name + " Safety", Colors[i % 6], false))
      && (forall i :: 0 <= i < |incidents| ==>
            view.lines[|safety| + i] == Line("incidents-" + incidents[i].name, incidents[i].name + " Incidents", Colors[i % 6], true))
      && (forall r :: r in view.rows ==> r.columns.Keys == set l | l in view.lines :: l.dataKey)
  {
    var view := SecurityChart(data, monthLabel);
    LineLayout(data, Config(monthLabel));
    forall r | r in view.rows
      ensures r.columns.Keys == set l | l in view.lines :: l.dataKey
    {
      var i :| 0 <= i < |view.rows| && view.rows[i] == r;
      ColumnsAreLineKeys(data, Config(monthLabel), i);
    }
  }

  /**
    The tooltip formatter: a label including "Safety" shows `<value>/10` and has its first
    " Safety" spelt " Safety Score"; otherwise a label including "Incidents" shows the raw
    value and has its first " Incidents" spelt " Security Incidents"; any other label is
    passed through with the raw value.
   */
  function Tooltip(value: real, name: string, shown: real -> string): (entry: TooltipEntry)
    ensures entry.value == if Includes(name, "Safety") then Formatted(shown(value) + "/10") else Raw(value)
    ensures Includes(name, "Safety") ==> entry.name == ReplaceFirst(name, " Safety", " Safety Score")
    ensures !Includes(name, "Safety") && Includes(name, "Incidents") ==>
              entry.name == ReplaceFirst(name, " Incidents", " Security Incidents")
    ensures !Includes(name, "Safety") && !Includes(name, "Incidents") ==> entry.name == name
    ensures |entry.name| >= |name|
  {
    if Includes(name, "Safety") then
      TooltipEntry(Formatted(shown(value) + "/10"), ReplaceFirst(name, " Safety", " Safety Score"))
    else if Includes(name, "Incidents") then
      TooltipEntry(Raw(value), ReplaceFirst(name, " Incidents", " Security Incidents"))
    else
      TooltipEntry(Raw(value), name)
  }

  /** The tooltip of a safety line whose district name lacks "Safety". */
  lemma SafetyLineTooltip(district: string, value: real, shown: real -> string)
    requires !Includes(district, "Safety")
    ensures Tooltip(value, district + " Safety", shown)
              == TooltipEntry(Formatted(shown(value) + "/10"), district + " Safety Score")
  {
    assert district + " Safety" == district + " " + "Safety";
    assert " Safety" == " " + "Safety" && " Safety Score" == " " + "Safety" + " Score";
    assert district + " Safety Score" == district + " " + "Safety" + " Score";
    LabelIncludesWord(district, "Safety");
    RewriteLabelSuffix(district, "Safety", " Score");
    assert Includes(district + " Safety", "Safety");
    assert ReplaceFirst(district + " Safety", " Safety", " Safety Score") == district + " Safety Score";
  }

  /** The tooltip of an incidents line whose district name lacks both "Safety" and "Incidents". */
  lemma IncidentsLineTooltip(district: string, value: real, shown: real -> string)
    requires !Includes(district, "Safety") && !Includes(district, "Incidents")
    ensures Tooltip(value, district + " Incidents", shown)
              == TooltipEntry(Raw(value), district + " Security Incidents")
  {
    assert district + " Incidents" == district + " " + "Incidents";
    assert " Incidents" == " " + "Incidents";
    LabelExcludes(district, "Incidents", "Safety");
    LabelIncludesWord(district, "Incidents");
    SuffixIsFirstOccurrence(district, "Incidents");
    var lbl := district + " Incidents";
    assert lbl[..|district|] == district;
    assert lbl[|district| + |" Incidents"|..] == [];
  }

  /**
    The rules test the whole label, not its suffix: an incidents line of a district whose
    name includes "Safety" is shown as a safety score out of 10, and its label has its first
    " Safety" rewritten.
   */
  lemma IncidentsLineOfSafetyNamedDistrict(district: string, value: real, shown: real -> string)
    requires Includes(district, "Safety")
    ensures Tooltip(value, district + " Incidents", shown).value == Formatted(shown(value) + "/10")
    ensures Tooltip(value, district + " Incidents", shown).name
         == ReplaceFirst(district + " Incidents", " Safety", " Safety Score")
  {
    IncludesExtended(district, " Incidents", "Safety");
  }

  /**
    A district named "Safety Town": its incidents line is shown out of 10, and its label
    stays as it is, since the label holds "Safety" but no " Safety".
   */
  lemma SafetyTownIncidents(value: real, shown: real -> string)
    ensures Tooltip(value, "Safety Town Incidents", shown)
         == TooltipEntry(Formatted(shown(value) + "/10"), "Safety Town Incidents")
  {
    var lbl := "Safety Town Incidents";
    assert OccursAt(lbl, "Safety", 0);
    forall i: nat
      ensures !OccursAt(lbl, " Safety", i)
    {
      if i + 7 <= |lbl| {
        assert lbl[i..i + 7][0] == lbl[i] && lbl[i..i + 7][1] == lbl[i + 1];
      }
    }
  }

  /**
    A district named "New Safety": its own safety line "New Safety Safety" has the " Safety"
    inside the district name rewritten, not the suffix.
   */
  lemma NewSafetyOwnLine(value: real, shown: real -> string)
    ensures Tooltip(value, "New Safety Safety", shown)
         == TooltipEntry(Formatted(shown(value) + "/10"), "New Safety Score Safety")
  {
    var lbl := "New" + " Safety" + " Safety";
    NewSafetyLiterals();
    NewSafetyFirstOccurrence();
    assert OccursAt(lbl, "Safety", 4);
    assert ReplaceFirst(lbl, " Safety", " Safety Score") == "New" + " Safety Score" + " Safety";
  }

  /** The example's labels, spelt out. */
  lemma NewSafetyLiterals()
    ensures "New" + " Safety" + " Safety" == "New Safety Safety"
    ensures "New" + " Safety Score" + " Safety" == "New Safety Score Safety"
  {
  }

  /** In "New Safety Safety" the first " Safety" is the one inside the district name. */
  lemma NewSafetyFirstOccurrence()
    ensures var lbl := "New" + " Safety" + " Safety";
      && IndexOf(lbl, " Safety") == Some(3)
      && lbl[..3] == "New" && lbl[10..] == " Safety"
  {
    var lbl := "New" + " Safety" + " Safety";
    assert lbl[3..10] == " Safety";
    assert OccursAt(lbl, " Safety", 3);
    forall j | 0 <= j < 3
      ensures !OccursAt(lbl, " Safety", j)
    {
      assert lbl[j..j + 7][0] == lbl[j];
    }
    var r := IndexOf(lbl, " Safety");
    assert r.Some?;
    assert r.value == 3;
    assert lbl[..3] == "New" && lbl[10..] == " Safety";
  }




  /** Labels including neither word are passed through with the raw value. */
  lemma OtherTooltip(name: string, value: real, shown: real -> string)
    requires !Includes(name, "Safety") && !Includes(name, "Incidents")
    ensures Tooltip(value, name, shown) == TooltipEntry(Raw(value), name)
  {
  }
}
