/**
  The financial trends chart. Its payload is the financial-trends response:
  `revenue_trends` is the primary group (its first series gives the rows) and
  `profit_trends` the secondary one. Rows are keyed by the raw `period`; columns are
  `"<division> Revenue"` and `"<division> Profit"`.
 */
module FinancialChart {
  import opened Wrappers
  import opened SeriesModel
  import opened Pivot

  const Colors: seq<string> := ["#0ea5e9", "#10b981", "#f59e0b", "#ef4444", "#8b5cf6"]

  function Config(): (cfg: ChartConfig)
    ensures ValidConfig(cfg)
  {
    var cfg := ChartConfig("No financial data available", "period", " Revenue", " Profit",
                           "revenue-", "profit-", Colors, (period: string) => period);
    assert " Revenue"[1..] != " Profit" && " Profit"[1..] != " Revenue"[1..];
    cfg
  }

  /** `FinancialChart({ data })`, with the payload's `revenue_trends` and `profit_trends`. */
  function FinancialChart(data: Option<Payload>): (view: ChartView)
    requires RendersSafely(data)
    ensures view.Placeholder? <==> data.None? || data.value.primary.None?
    ensures view.Placeholder? ==> view.message == "No financial data available"
    ensures view.LineChart? ==> view.xAxisKey == "period"
  {
    Render(data, Config())
  }

  /**
    The rows follow `revenue_trends[0].data` one to one and in order, each keyed by that
    point's period; a period that only other series have yields no row; without a first
    revenue series, or without its `data`, there are no rows.
   */
  lemma FinancialRows(revenue: seq<Series>, profit: seq<Series>)
    requires RowsSafe(revenue, profit)
    ensures var rows := ChartData(revenue, profit, Config());
      && (|revenue| == 0 || revenue[0].data.None? ==> rows == [])
      && (|revenue| > 0 && revenue[0].data.Some? ==>
            && |rows| == |revenue[0].data.value|
            && (forall i :: 0 <= i < |rows| ==> rows[i].key == revenue[0].data.value[i].key)
            && (forall p :: p !in Keys(revenue[0].data.value) ==> forall r :: r in rows ==> r.key != p))
  {
    var rows := ChartData(revenue, profit, Config());
    if ReferenceHasRows(revenue) {
      forall p, r | r in rows && r.key == p
        ensures p in Keys(revenue[0].data.value)
      {
        var i :| 0 <= i < |rows| && rows[i] == r;
        assert Keys(revenue[0].data.value)[i] == p;
      }
    }
  }

  /**
    Row `i` holds, for every revenue series (that no later revenue series shares its name
    with), the value of its first point whose period is the row's period, else 0, under
    `"<name> Revenue"`; and likewise for every profit series under `"<name> Profit"`.
   */
  lemma FinancialCells(revenue: seq<Series>, profit: seq<Series>, i: nat)
    requires ReferenceHasRows(revenue) && RowsSafe(revenue, profit)
    requires i < |revenue[0].data.value|
    ensures var row, period := ChartData(revenue, profit, Config())[i], revenue[0].data.value[i].key;
      && (forall j :: 0 <= j < |revenue| && LastOfName(revenue, j) ==>
            row.columns[revenue[j].name + " Revenue"] == Lookup(revenue[j].data.value, period))
      && (forall j :: 0 <= j < |profit| && LastOfName(profit, j) ==>
            row.columns[profit[j].name + " Profit"] == Lookup(profit[j].data.value, period))
  {
    CellValues(revenue, profit, Config(), i);
  }

  /**
    Revenue line `i` draws the column `"<name> Revenue"` in `Colors[i mod 5]`, profit line
    `i` the column `"<name> Profit"` dashed in `Colors[i mod 5]`; every row has exactly the
    columns that the lines draw, so each `dataKey` names a column of every row.
   */
  lemma FinancialLines(data: Option<Payload>)
    requires RendersSafely(data) && FinancialChart(data).LineChart?
    ensures var view, revenue, profit := FinancialChart(data), data.value.primary.value, data.value.secondary.value;
      && (forall i :: 0 <= i < |revenue| ==>
            view.lines[i] == Line("revenue-" + revenue[i].name, revenue[i].name + " Revenue", Colors[i % 5], false))
      && (forall i :: 0 <= i < |profit| ==>
            view.lines[|revenue| + i] == Line("profit-" + profit[i].name, profit[i].name + " Profit", Colors[i % 5], true))
      && (forall r :: r in view.rows ==> r.columns.Keys == set l | l in view.lines :: l.dataKey)
  {
    var view := FinancialChart(data);
    LineLayout(data, Config());
    forall r | r in view.rows
      ensures r.columns.Keys == set l | l in view.lines :: l.dataKey
    {
      var i :| 0 <= i < |view.rows| && view.rows[i] == r;
      ColumnsAreLineKeys(data, Config(), i);
    }
  }

  /**
    The tooltip formatter: the value as `$<localised>M`, and the series label unchanged.
    `localised` stands for `Number.prototype.toLocaleString`.
   */
  function Tooltip(value: real, name: string, localised: real -> string): (entry: TooltipEntry)
    ensures entry.name == name
    ensures entry.value == Formatted("$" + localised(value) + "M")
  {
    TooltipEntry(Formatted("$" + localised(value) + "M"), name)
  }

  /** The worked example: Gotham's revenue has Q1 = 100 and Q2 = 120, its profit only Q1 = 20. */
  const GothamRevenue: seq<Series> := [Series("Gotham", Some([Point("Q1", 100.0), Point("Q2", 120.0)]))]
  const GothamProfit: seq<Series> := [Series("Gotham", Some([Point("Q1", 20.0)]))]

  lemma GothamCells(i: nat, period: string, revenue: real, profit: real)
    requires i < 2
    requires GothamRevenue[0].data.value[i] == Point(period, revenue)
    requires Lookup(GothamProfit[0].data.value, period) == profit
    ensures ChartData(GothamRevenue, GothamProfit, Config())[i]
            == Row(period, map["Gotham" + " Revenue" := revenue, "Gotham" + " Profit" := profit])
  {
    assert ("Gotham" + " Revenue")[7] != ("Gotham" + " Profit")[7];
    LookupOwnKey(GothamRevenue[0].data.value, i);
    SinglePairRow(GothamRevenue[0], GothamProfit[0], Config(), i);
  }

  /**
    The rows of the worked example are Q1 with both columns and Q2 with the missing profit
    defaulted to 0.
   */
  lemma GothamExample()
    ensures ChartData(GothamRevenue, GothamProfit, Config())
            == [Row("Q1", map["Gotham Revenue" := 100.0, "Gotham Profit" := 20.0]),
                Row("Q2", map["Gotham Revenue" := 120.0, "Gotham Profit" := 0.0])]
  {
    assert "Q2" != "Q1";
    assert "Gotham" + " Revenue" == "Gotham Revenue" && "Gotham" + " Profit" == "Gotham Profit";
    GothamCells(0, "Q1", 100.0, 20.0);
    GothamCells(1, "Q2", 120.0, 0.0);
  }
}
