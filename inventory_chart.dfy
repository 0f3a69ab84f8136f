/** The inventory bar chart: for every month number, the stock of the core and of the outlet
    products of one channel in 2024 and in 2025, and the year-on-year ratio of their totals. */
module InventoryChart {
  import opened Wrappers
  import opened Numbers
  import opened PreprocessSales
  import opened PreprocessSalesJson
  import opened StockWeeksChart

  /** The month numbers of the chart. */
  const MonthNumbers: seq<string> := ["01", "02", "03", "04", "05", "06", "07", "08", "09", "10", "11", "12"]

  /** The rounded stock of the core and of the outlet products. */
  datatype ChannelInventory = ChannelInventory(core: int, outlet: int)

  /** The field prefix a channel reads: "FRS", the head-office stock "HQ_OR" for "창고" (no
      deduction of the direct stores' stock here), and the total for "ALL" and any other tab. */
  function ChannelPrefix(channelTab: string): (p: string)
    ensures p in InventoryChannelGroups
  {
    if channelTab == "FRS" then "FRS" else if channelTab == "창고" then "HQ_OR" else TotalLabel
  }

  /** `getChannelInventory`: 0 and 0 without a record, else the channel's two fields (a missing
      field counting as 0), each rounded half up. */
  function GetChannelInventory(inv: Option<MonthData>, channelTab: string): (r: ChannelInventory)
    ensures inv.None? ==> r == ChannelInventory(0, 0)
    ensures inv.Some? ==>
      && -0.5 < r.core as real - Field(inv.value, FieldName(ChannelPrefix(channelTab), Core)) <= 0.5
      && -0.5 < r.outlet as real - Field(inv.value, FieldName(ChannelPrefix(channelTab), Outlet)) <= 0.5
  {
    if inv.None? then ChannelInventory(0, 0)
    else
      var prefix := ChannelPrefix(channelTab);
      ChannelInventory(JsRound(Field(inv.value, FieldName(prefix, Core))), JsRound(Field(inv.value, FieldName(prefix, Outlet))))
  }

  /** The stock of both operation groups. */
  function Total(c: ChannelInventory): int {
    c.core + c.outlet
  }

  /** One month of the chart. */
  datatype ChartRow = ChartRow(
    month: string, prevCore: int, prevOutlet: int, currCore: int, currOutlet: int, yoy: Option<int>)

  /** `yoy`: the 2025 total as a rounded percentage of the 2024 total, only when both months
      have a record and both totals are positive. */
  function Yoy(hasPrev: bool, hasCurr: bool, prev: ChannelInventory, curr: ChannelInventory): (y: Option<int>)
    ensures y.Some? <==> hasPrev && hasCurr && Total(prev) > 0 && Total(curr) > 0
    ensures y.Some? ==> -0.5 < y.value as real - Total(curr) as real / Total(prev) as real * 100.0 <= 0.5
  {
    if hasPrev && hasCurr && Total(prev) > 0 && Total(curr) > 0
    then Some(JsRound(Total(curr) as real / Total(prev) as real * 100.0))
    else None
  }

  /** The label of a month number: `${parseInt(monthNum)}월`. */
  function RowLabel(monthNum: string): string {
    match JsParseInt(monthNum)
    case Some(n) => IntToString(n) + "월"
    case None => "NaN월"
  }

  /** The row of one month number, from the records of "2024.MM" and "2025.MM". */
  function ChartRowOf(tabData: TabData, channelTab: string, monthNum: string): (r: ChartRow)
    ensures r.month == RowLabel(monthNum)
    ensures var prev := GetChannelInventory(Lookup(tabData, "2024." + monthNum), channelTab);
            var curr := GetChannelInventory(Lookup(tabData, "2025." + monthNum), channelTab);
      && r.prevCore == prev.core && r.prevOutlet == prev.outlet && r.currCore == curr.core && r.currOutlet == curr.outlet
      && r.yoy == Yoy("2024." + monthNum in tabData, "2025." + monthNum in tabData, prev, curr)
  {
    var inv2024 := Lookup(tabData, "2024." + monthNum);
    var inv2025 := Lookup(tabData, "2025." + monthNum);
    var prev := GetChannelInventory(inv2024, channelTab);
    var curr := GetChannelInventory(inv2025, channelTab);
    ChartRow(RowLabel(monthNum), prev.core, prev.outlet, curr.core, curr.outlet, Yoy(inv2024.Some?, inv2025.Some?, prev, curr))
  }

  /** `chartData`: one row per month number, from the selected tab of the brand's table (a
      missing tab behaving as a tab without months). */
  function ChartData(inventoryBrandData: BrandData, selectedTab: string, channelTab: string): (r: seq<ChartRow>)
    ensures |r| == |MonthNumbers|
    ensures forall i :: 0 <= i < |r| ==> r[i] == ChartRowOf(TabOf(inventoryBrandData, selectedTab), channelTab, MonthNumbers[i])
  {
    seq(|MonthNumbers|, i requires 0 <= i < |MonthNumbers| =>
      ChartRowOf(TabOf(inventoryBrandData, selectedTab), channelTab, MonthNumbers[i]))
  }

  /** Row `i` is labelled with the month number `i + 1`, without a leading zero. */
  lemma RowLabels(i: nat)
    requires i < |MonthNumbers|
    ensures RowLabel(MonthNumbers[i]) == NatToString(i + 1) + "월"
  {
    var s := MonthNumbers[i];
    assert |s| == 2 && AllDigits(s);
    DigitsValueTwo(s);
    assert DigitsValue(s) == i + 1;
  }

  /** The ratio reads the direction of the change: at least 100 when the stock did not fall, at
      most 100 when it did not rise, and exactly 100 when it stayed the same. */
  lemma YoyDirection(prev: ChannelInventory, curr: ChannelInventory)
    requires Total(prev) > 0 && Total(curr) > 0
    ensures var y := Yoy(true, true, prev, curr).value;
      && (Total(curr) >= Total(prev) ==> y >= 100)
      && (Total(curr) <= Total(prev) ==> y <= 100)
      && (Total(curr) == Total(prev) ==> y == 100)
  {
    var p, c := Total(prev) as real, Total(curr) as real;
    var x := c / p * 100.0;
    if c >= p {
      assert c / p >= 1.0;
    }
    if c <= p {
      assert c / p <= 1.0;
    }
  }

  /** The months after the analysis period have no record in the inventory file, so the 2025
      bars of November and December are 0 and they have no ratio. */
  lemma NoCurrentYearAfterAnalysis(tabData: TabData, channelTab: string, i: nat)
    requires tabData.Keys == set m | m in AnalysisMonths
    requires 10 <= i < |MonthNumbers|
    ensures var r := ChartRowOf(tabData, channelTab, MonthNumbers[i]);
      r.currCore == 0 && r.currOutlet == 0 && r.yoy.None?
  {
    var month := "2025." + MonthNumbers[i];
    if i == 10 {
      assert month == "2025.11";
    } else {
      assert month == "2025.12";
    }
    assert month !in AnalysisMonths;
  }

  /** Rounding a whole number changes nothing. */
  lemma JsRoundWhole(n: int)
    ensures JsRound(n as real) == n
  {
  }

  /** The inventory file holds whole numbers in its stock fields, so the chart shows them as
      they are. */
  lemma ChartShowsFileValues(md: MonthData, inv: map<AggKey, real>, sales: map<AggKey, real>,
                             brand: string, tab: string, month: string, channelTab: string)
    requires FieldsOk(md, RecordPrefixes(InventorySums(inv, sales)), RecordValue(InventorySums(inv, sales), brand, tab, month))
    ensures var prefix := ChannelPrefix(channelTab);
            var r := GetChannelInventory(Some(md), channelTab);
      && FieldName(prefix, Core) in md && FieldName(prefix, Outlet) in md
      && r.core as real == md[FieldName(prefix, Core)] && r.outlet as real == md[FieldName(prefix, Outlet)]
  {
    var prefix := ChannelPrefix(channelTab);
    var prefixes := RecordPrefixes(InventorySums(inv, sales));
    var value := RecordValue(InventorySums(inv, sales), brand, tab, month);
    assert prefix in prefixes && prefix != OrSalesPrefix;
    assert FieldName(prefix, Core) in FieldNames(prefixes);
    assert FieldName(prefix, Outlet) in FieldNames(prefixes);
    var nc := PyRound(Get(inv, AggKey(brand, tab, month, prefix, Core)));
    var no := PyRound(Get(inv, AggKey(brand, tab, month, prefix, Outlet)));
    assert md[FieldName(prefix, Core)] == value(prefix, Core) == nc as real;
    assert md[FieldName(prefix, Outlet)] == value(prefix, Outlet) == no as real;
    JsRoundWhole(nc);
    JsRoundWhole(no);
  }
}
