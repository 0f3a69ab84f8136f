/** The stock-weeks line chart: for every month of 2025, how many weeks the stock of the core
    and of the outlet products lasts at the month's sales rate, for one channel, either for the
    selected item tab or for all five tabs at once. */
module StockWeeksChart {
  import opened Wrappers
  import opened Numbers
  import opened Text
  import opened PreprocessSales
  import opened PreprocessSalesJson

  /** One item tab of a JSON file: month → record. */
  type TabData = map<string, MonthData>

  /** All item tabs of one brand: item tab → month → record. */
  type BrandData = map<string, TabData>

  /** The months the chart shows. */
  const Months2025: seq<string> := [
    "2025.01", "2025.02", "2025.03", "2025.04", "2025.05", "2025.06",
    "2025.07", "2025.08", "2025.09", "2025.10", "2025.11", "2025.12"]

  /** The chart's label of a month: `month.replace("2025.", "") + "월"`. */
  function MonthLabel(month: string): string {
    ReplaceFirst(month, "2025.", "") + "월"
  }

  lemma MonthLabels(i: nat)
    requires i < |Months2025|
    ensures MonthLabel(Months2025[i]) == Months2025[i][5..] + "월"
  {
    assert StartsWith(Months2025[i], "2025.");
  }

  // ---------------------------------------------------------------------------------------------
  // Weeks of stock

  /** `calculateWeeks`: stock divided by a week's sales (the month's sales per day, times 7);
      no figure when the sales or the month length is zero. */
  function CalculateWeeks(inventory: real, sales: real, days: int): (r: Option<real>)
    ensures r.None? <==> sales == 0.0 || days == 0
    ensures r.Some? ==> r.value * (sales / days as real * 7.0) == inventory
  {
    if sales == 0.0 || days == 0 then None
    else
      var weeklySales := sales / days as real * 7.0;
      assert weeklySales != 0.0;
      if weeklySales == 0.0 then None else Some(inventory / weeklySales)
  }

  /** `parseFloat(x.toFixed(1))`: rounded to one decimal, halves away from zero. */
  function Fixed1(x: real): (r: real)
    ensures -0.05 <= r - x <= 0.05
    ensures x >= 0.0 ==> r >= 0.0
  {
    if x < 0.0 then -(JsRound(-x * 10.0) as real) / 10.0 else JsRound(x * 10.0) as real / 10.0
  }

  /** `w !== null ? parseFloat(w.toFixed(1)) : null`. */
  function Fixed1Of(w: Option<real>): (r: Option<real>)
    ensures r.Some? <==> w.Some?
    ensures r.Some? ==> -0.05 <= r.value - w.value <= 0.05
    ensures w.Some? ==> r == Some(Fixed1(w.value))
  {
    if w.Some? then Some(Fixed1(w.value)) else None
  }

  // ---------------------------------------------------------------------------------------------
  // The figures of one channel

  /** `record.field || 0`: a missing field counts as 0. */
  function Field(md: MonthData, name: string): real {
    if name in md then md[name] else 0.0
  }

  /** `calculateRetailStock`: the stock the direct stores hold, estimated as `stockWeek` weeks
      of their sales, in millions; 0 for a month of no days. */
  function RetailStock(orSales: real, days: int, stockWeek: real): real {
    if days == 0 then 0.0 else orSales / days as real * 7.0 * stockWeek / 1000000.0
  }

  /** The stock figure of a channel: the franchise stock for "FRS", the head-office stock less
      the direct stores' estimated stock (never below 0) for "창고", the total stock for "ALL"
      and for any other tab. */
  function ChannelStock(inv: MonthData, days: int, stockWeek: real, channelTab: string, g: OpGroup): (s: real)
    ensures channelTab == "FRS" ==> s == Field(inv, FieldName("FRS", g))
    ensures channelTab == "창고" ==>
      var estimate := Field(inv, FieldName("HQ_OR", g)) - RetailStock(Field(inv, FieldName(OrSalesPrefix, g)), days, stockWeek);
      s >= 0.0 && s >= estimate && (s == 0.0 || s == estimate)
    ensures channelTab != "FRS" && channelTab != "창고" ==> s == Field(inv, FieldName(TotalLabel, g))
  {
    if channelTab == "FRS" then Field(inv, FieldName("FRS", g))
    else if channelTab == "창고" then
      var warehouse := Field(inv, FieldName("HQ_OR", g)) - RetailStock(Field(inv, FieldName(OrSalesPrefix, g)), days, stockWeek);
      if 0.0 >= warehouse then 0.0 else warehouse
    else Field(inv, FieldName(TotalLabel, g))
  }

  /** The sales figure of a channel: the franchise sales for "FRS", the total sales otherwise
      (the warehouse is measured against every sale). */
  function ChannelSales(sls: MonthData, channelTab: string, g: OpGroup): (s: real)
    ensures channelTab == "FRS" ==> s == Field(sls, FieldName("FRS", g))
    ensures channelTab != "FRS" ==> s == Field(sls, FieldName(TotalLabel, g))
  {
    if channelTab == "FRS" then Field(sls, FieldName("FRS", g)) else Field(sls, FieldName(TotalLabel, g))
  }

  datatype ChannelData = ChannelData(stockCore: real, stockOutlet: real, salesCore: real, salesOutlet: real)

  /** `getChannelData`: zeros without both records, else the channel's stock and sales of the
      core and the outlet products. */
  function GetChannelData(inv: Option<MonthData>, sls: Option<MonthData>, days: int, stockWeek: real, channelTab: string)
    : (r: ChannelData)
    ensures inv.None? || sls.None? ==> r == ChannelData(0.0, 0.0, 0.0, 0.0)
    ensures inv.Some? && sls.Some? ==>
      && r.stockCore == ChannelStock(inv.value, days, stockWeek, channelTab, Core)
      && r.stockOutlet == ChannelStock(inv.value, days, stockWeek, channelTab, Outlet)
      && r.salesCore == ChannelSales(sls.value, channelTab, Core)
      && r.salesOutlet == ChannelSales(sls.value, channelTab, Outlet)
  {
    if inv.None? || sls.None? then ChannelData(0.0, 0.0, 0.0, 0.0)
    else
      ChannelData(
        ChannelStock(inv.value, days, stockWeek, channelTab, Core),
        ChannelStock(inv.value, days, stockWeek, channelTab, Outlet),
        ChannelSales(sls.value, channelTab, Core),
        ChannelSales(sls.value, channelTab, Outlet))
  }

  /** Without a month length or without direct-store sales nothing is deducted: the warehouse
      holds the head-office stock, or 0 if that is negative. */
  lemma WarehouseWithoutDeduction(inv: MonthData, days: int, stockWeek: real, g: OpGroup)
    requires days == 0 || Field(inv, FieldName(OrSalesPrefix, g)) == 0.0 || stockWeek == 0.0
    ensures ChannelStock(inv, days, stockWeek, "창고", g) == Max0(Field(inv, FieldName("HQ_OR", g)))
  {
    var or := Field(inv, FieldName(OrSalesPrefix, g));
    if days != 0 {
      assert or / days as real * 7.0 * stockWeek == 0.0;
    }
  }

  function Max0(x: real): real {
    if x > 0.0 then x else 0.0
  }

  /** The estimated direct-store stock grows with the direct-store sales. */
  lemma RetailStockMonotone(a: real, b: real, days: int, stockWeek: real)
    requires a <= b && days > 0 && stockWeek >= 0.0
    ensures RetailStock(a, days, stockWeek) <= RetailStock(b, days, stockWeek)
  {
    var d := days as real;
    var x, y := a / d * 7.0, b / d * 7.0;
    assert x <= y;
    assert (y - x) * stockWeek >= 0.0;
    assert x * stockWeek <= y * stockWeek;
  }

  /** Where the direct stores sell, the warehouse holds at most the head-office stock, and more
      direct-store sales never leave more in the warehouse. */
  lemma WarehouseBounds(inv: MonthData, inv': MonthData, days: int, stockWeek: real, g: OpGroup)
    requires days > 0 && stockWeek >= 0.0
    requires Field(inv, FieldName("HQ_OR", g)) == Field(inv', FieldName("HQ_OR", g))
    requires 0.0 <= Field(inv, FieldName(OrSalesPrefix, g)) <= Field(inv', FieldName(OrSalesPrefix, g))
    ensures ChannelStock(inv, days, stockWeek, "창고", g) <= Max0(Field(inv, FieldName("HQ_OR", g)))
    ensures ChannelStock(inv', days, stockWeek, "창고", g) <= ChannelStock(inv, days, stockWeek, "창고", g)
  {
    var a, b := Field(inv, FieldName(OrSalesPrefix, g)), Field(inv', FieldName(OrSalesPrefix, g));
    RetailStockMonotone(0.0, a, days, stockWeek);
    RetailStockMonotone(a, b, days, stockWeek);
  }

  // ---------------------------------------------------------------------------------------------
  // The single-tab series

  /** One point of the single-tab chart: the month label and the two rounded week figures. */
  datatype WeeksPoint = WeeksPoint(month: string, core: Option<real>, outlet: Option<real>)

  function Lookup(t: TabData, month: string): Option<MonthData> {
    if month in t then Some(t[month]) else None
  }

  /** `daysInMonth[month]`, with a missing month read as 0 (both are falsy). */
  function DaysOf(daysInMonth: map<string, int>, month: string): int {
    if month in daysInMonth then daysInMonth[month] else 0
  }

  /** The point of one month: no figures without both records and a month length, else the
      rounded weeks of the core and of the outlet products. */
  function WeeksPointOf(inventoryData: TabData, salesData: TabData, daysInMonth: map<string, int>,
                        stockWeek: real, channelTab: string, month: string): (p: WeeksPoint)
    ensures p.month == MonthLabel(month)
    ensures p.core.Some? <==>
      month in inventoryData && month in salesData && DaysOf(daysInMonth, month) != 0
      && ChannelSales(salesData[month], channelTab, Core) != 0.0
    ensures p.core.Some? ==>
      var weekly := ChannelSales(salesData[month], channelTab, Core) / DaysOf(daysInMonth, month) as real * 7.0;
      var weeks := ChannelStock(inventoryData[month], DaysOf(daysInMonth, month), stockWeek, channelTab, Core) / weekly;
      p.core.value == Fixed1(weeks) && -0.05 <= p.core.value - weeks <= 0.05
    ensures p.outlet.Some? <==>
      month in inventoryData && month in salesData && DaysOf(daysInMonth, month) != 0
      && ChannelSales(salesData[month], channelTab, Outlet) != 0.0
    ensures p.outlet.Some? ==>
      var weekly := ChannelSales(salesData[month], channelTab, Outlet) / DaysOf(daysInMonth, month) as real * 7.0;
      var weeks := ChannelStock(inventoryData[month], DaysOf(daysInMonth, month), stockWeek, channelTab, Outlet) / weekly;
      p.outlet.value == Fixed1(weeks) && -0.05 <= p.outlet.value - weeks <= 0.05
  {
    var inv := Lookup(inventoryData, month);
    var sls := Lookup(salesData, month);
    var days := DaysOf(daysInMonth, month);
    if inv.None? || sls.None? || days == 0 then WeeksPoint(MonthLabel(month), None, None)
    else
      var cd := GetChannelData(inv, sls, days, stockWeek, channelTab);
      WeeksPoint(MonthLabel(month),
        Fixed1Of(CalculateWeeks(cd.stockCore, cd.salesCore, days)),
        Fixed1Of(CalculateWeeks(cd.stockOutlet, cd.salesOutlet, days)))
  }

  /** `singleItemChartData`: one point per month of 2025, in calendar order. */
  function SingleItemChartData(inventoryData: TabData, salesData: TabData, daysInMonth: map<string, int>,
                               stockWeek: real, channelTab: string): (r: seq<WeeksPoint>)
    ensures |r| == |Months2025|
    ensures forall i :: 0 <= i < |r| ==>
      r[i] == WeeksPointOf(inventoryData, salesData, daysInMonth, stockWeek, channelTab, Months2025[i])
  {
    seq(|Months2025|, i requires 0 <= i < |Months2025| =>
      WeeksPointOf(inventoryData, salesData, daysInMonth, stockWeek, channelTab, Months2025[i]))
  }

  // ---------------------------------------------------------------------------------------------
  // The all-tabs series

  /** `ITEM_LABELS`: the display name of each item tab. */
  const ItemLabels: map<string, string> :=
    map[TotalLabel := "전체", "Shoes" := "신발", "Headwear" := "모자", "Bag" := "가방", "Acc_etc" := "기타"]

  /** `ITEM_LABELS[itemTab]`; a tab without a label prints as "undefined". */
  function ItemLabel(tab: string): string {
    if tab in ItemLabels then ItemLabels[tab] else "undefined"
  }

  /** `${label}_주력`, the key of the core-product line of a tab. */
  function CoreKey(tab: string): string {
    ItemLabel(tab) + "_주력"
  }

  /** `${label}_아울렛`, the key of the outlet-product line of a tab. */
  function OutletKey(tab: string): string {
    ItemLabel(tab) + "_아울렛"
  }

  /** The five item tabs have five different labels. */
  lemma ItemLabelsDistinct(a: string, b: string)
    requires a in ItemTabs && b in ItemTabs && a != b
    ensures ItemLabel(a) != ItemLabel(b)
  {
  }

  /** The keys of different tabs, and the two keys of one tab, never collide. */
  lemma KeysDistinct(a: string, b: string)
    requires a in ItemTabs && b in ItemTabs
    ensures CoreKey(a) != OutletKey(b)
    ensures a != b ==> CoreKey(a) != CoreKey(b) && OutletKey(a) != OutletKey(b)
  {
    var ca, ob := CoreKey(a), OutletKey(b);
    assert ca[|ca| - 1] == '력' && ob[|ob| - 1] == '렛';
    if a != b {
      ItemLabelsDistinct(a, b);
      var cb, oa := CoreKey(b), OutletKey(a);
      if |ItemLabel(a)| == |ItemLabel(b)| {
        assert ca[..|ItemLabel(a)|] == ItemLabel(a) && cb[..|ItemLabel(b)|] == ItemLabel(b);
        assert oa[..|ItemLabel(a)|] == ItemLabel(a) && ob[..|ItemLabel(b)|] == ItemLabel(b);
      }
    }
  }

  /** `allInventoryData[itemTab]?.[month]`: a missing tab behaves as a tab without months. */
  function TabOf(data: BrandData, tab: string): TabData {
    if tab in data then data[tab] else map[]
  }

  /** The two figures of every tab in `tabs` for one month, keyed by `CoreKey` and `OutletKey`,
      as the `forEach` over the tabs writes them into the point. */
  function PointValues(tabs: seq<string>, allInv: BrandData, allSales: BrandData, daysInMonth: map<string, int>,
                       stockWeek: real, channelTab: string, month: string): map<string, Option<real>>
  {
    if tabs == [] then map[]
    else
      var tab := tabs[|tabs| - 1];
      var p := WeeksPointOf(TabOf(allInv, tab), TabOf(allSales, tab), daysInMonth, stockWeek, channelTab, month);
      PointValues(tabs[..|tabs| - 1], allInv, allSales, daysInMonth, stockWeek, channelTab, month)
        [CoreKey(tab) := p.core][OutletKey(tab) := p.outlet]
  }

  /** One point of the all-tabs chart: the month label and the figures by key. */
  datatype ItemsPoint = ItemsPoint(month: string, values: map<string, Option<real>>)

  /** The body of the `forEach` for one tab: its null figures, or its rounded weeks. */
  method PutTab(dataPoint: map<string, Option<real>>, allInv: BrandData, allSales: BrandData, days: int,
                daysInMonth: map<string, int>, stockWeek: real, channelTab: string, month: string, tab: string)
    returns (r: map<string, Option<real>>)
    requires days == DaysOf(daysInMonth, month)
    ensures var p := WeeksPointOf(TabOf(allInv, tab), TabOf(allSales, tab), daysInMonth, stockWeek, channelTab, month);
      r == dataPoint[CoreKey(tab) := p.core][OutletKey(tab) := p.outlet]
  {
    var invData := Lookup(TabOf(allInv, tab), month);
    var slsData := Lookup(TabOf(allSales, tab), month);
    if invData.None? || slsData.None? || days == 0 {
      r := dataPoint[CoreKey(tab) := None];
      r := r[OutletKey(tab) := None];
      return;
    }
    var channelData := GetChannelData(invData, slsData, days, stockWeek, channelTab);
    var weeksCore := CalculateWeeks(channelData.stockCore, channelData.salesCore, days);
    r := dataPoint[CoreKey(tab) := Fixed1Of(weeksCore)];
    var weeksOutlet := CalculateWeeks(channelData.stockOutlet, channelData.salesOutlet, days);
    r := r[OutletKey(tab) := Fixed1Of(weeksOutlet)];
  }

  /** Adding one more tab to the point. */
  lemma PointValuesSnoc(tabs: seq<string>, allInv: BrandData, allSales: BrandData, daysInMonth: map<string, int>,
                        stockWeek: real, channelTab: string, month: string, tab: string)
    ensures var p := WeeksPointOf(TabOf(allInv, tab), TabOf(allSales, tab), daysInMonth, stockWeek, channelTab, month);
      PointValues(tabs + [tab], allInv, allSales, daysInMonth, stockWeek, channelTab, month)
        == PointValues(tabs, allInv, allSales, daysInMonth, stockWeek, channelTab, month)[CoreKey(tab) := p.core][OutletKey(tab) := p.outlet]
  {
    assert (tabs + [tab])[..|tabs|] == tabs;
  }

  /** The `forEach` over the tabs of `tabs`, writing into a fresh point. */
  method PointOfTabs(tabs: seq<string>, allInv: BrandData, allSales: BrandData, daysInMonth: map<string, int>,
                     stockWeek: real, channelTab: string, month: string)
    returns (dataPoint: map<string, Option<real>>)
    ensures dataPoint == PointValues(tabs, allInv, allSales, daysInMonth, stockWeek, channelTab, month)
  {
    var days := DaysOf(daysInMonth, month);
    dataPoint := map[];
    for j := 0 to |tabs|
      invariant dataPoint == PointValues(tabs[..j], allInv, allSales, daysInMonth, stockWeek, channelTab, month)
    {
      var tab := tabs[j];
      dataPoint := PutTab(dataPoint, allInv, allSales, days, daysInMonth, stockWeek, channelTab, month, tab);
      PointValuesSnoc(tabs[..j], allInv, allSales, daysInMonth, stockWeek, channelTab, month, tab);
      assert tabs[..j + 1] == tabs[..j] + [tab];
    }
    assert tabs[..|tabs|] == tabs;
  }

  /** The figures of one month: `ITEM_TABS.forEach(...)` writing into a fresh point. */
  method MonthPoint(allInv: BrandData, allSales: BrandData, daysInMonth: map<string, int>,
                    stockWeek: real, channelTab: string, month: string)
    returns (dataPoint: map<string, Option<real>>)
    ensures dataPoint == PointValues(ItemTabs, allInv, allSales, daysInMonth, stockWeek, channelTab, month)
  {
    dataPoint := PointOfTabs(ItemTabs, allInv, allSales, daysInMonth, stockWeek, channelTab, month);
  }

  /** `allItemsChartData`: nothing unless the all-tabs mode is on and both brand tables are
      there; else one point per month of 2025, each holding the figures of the five tabs. */
  method AllItemsChartData(showAllItems: bool, allInventoryData: Option<BrandData>, allSalesData: Option<BrandData>,
                           daysInMonth: map<string, int>, stockWeek: real, channelTab: string)
    returns (points: seq<ItemsPoint>)
    ensures !showAllItems || allInventoryData.None? || allSalesData.None? ==> points == []
    ensures showAllItems && allInventoryData.Some? && allSalesData.Some? ==>
      && |points| == |Months2025|
      && forall i :: 0 <= i < |points| ==>
           points[i] == ItemsPoint(MonthLabel(Months2025[i]),
             PointValues(ItemTabs, allInventoryData.value, allSalesData.value, daysInMonth, stockWeek, channelTab, Months2025[i]))
  {
    if !showAllItems || allInventoryData.None? || allSalesData.None? {
      return [];
    }
    points := PointsOfMonths(Months2025, allInventoryData.value, allSalesData.value, daysInMonth, stockWeek, channelTab);
  }

  /** The points of the months of `months`, in order. */
  method PointsOfMonths(months: seq<string>, allInv: BrandData, allSales: BrandData,
                        daysInMonth: map<string, int>, stockWeek: real, channelTab: string)
    returns (points: seq<ItemsPoint>)
    ensures |points| == |months|
    ensures forall i :: 0 <= i < |points| ==>
      points[i] == ItemsPoint(MonthLabel(months[i]),
        PointValues(ItemTabs, allInv, allSales, daysInMonth, stockWeek, channelTab, months[i]))
  {
    points := [];
    for i := 0 to |months|
      invariant |points| == i
      invariant forall k :: 0 <= k < i ==>
        points[k] == ItemsPoint(MonthLabel(months[k]),
          PointValues(ItemTabs, allInv, allSales, daysInMonth, stockWeek, channelTab, months[k]))
    {
      var month := months[i];
      var dataPoint := MonthPoint(allInv, allSales, daysInMonth, stockWeek, channelTab, month);
      points := points + [ItemsPoint(MonthLabel(month), dataPoint)];
    }
  }

  /** Every tab's two figures are in the point, under its own keys. */
  lemma {:induction false} PointValuesAt(tabs: seq<string>, allInv: BrandData, allSales: BrandData,
                                         daysInMonth: map<string, int>, stockWeek: real, channelTab: string,
                                         month: string, tab: string)
    requires tab in tabs && forall t :: t in tabs ==> t in ItemTabs
    ensures var values := PointValues(tabs, allInv, allSales, daysInMonth, stockWeek, channelTab, month);
            var p := WeeksPointOf(TabOf(allInv, tab), TabOf(allSales, tab), daysInMonth, stockWeek, channelTab, month);
      CoreKey(tab) in values && OutletKey(tab) in values
      && values[CoreKey(tab)] == p.core && values[OutletKey(tab)] == p.outlet
  {
    var last := tabs[|tabs| - 1];
    var init := tabs[..|tabs| - 1];
    assert tabs == init + [last];
    var prev := PointValues(init, allInv, allSales, daysInMonth, stockWeek, channelTab, month);
    var q := WeeksPointOf(TabOf(allInv, last), TabOf(allSales, last), daysInMonth, stockWeek, channelTab, month);
    PointValuesSnoc(init, allInv, allSales, daysInMonth, stockWeek, channelTab, month, last);
    KeysDistinct(tab, last);
    KeysDistinct(last, tab);
    if tab != last {
      assert tab in init;
      PointValuesAt(init, allInv, allSales, daysInMonth, stockWeek, channelTab, month, tab);
      UpdateOther(prev, CoreKey(last), q.core, OutletKey(last), q.outlet, CoreKey(tab));
      UpdateOther(prev, CoreKey(last), q.core, OutletKey(last), q.outlet, OutletKey(tab));
    }
  }

  /** Two map updates leave every other key as it was. */
  lemma UpdateOther(m: map<string, Option<real>>, a: string, va: Option<real>, b: string, vb: Option<real>, k: string)
    requires k != a && k != b
    ensures (k in m[a := va][b := vb]) == (k in m)
    ensures k in m ==> m[a := va][b := vb][k] == m[k]
  {
  }

  /** The all-tabs chart shows, for each tab, the same figures as the single-tab chart of that
      tab. */
  lemma AllItemsMatchSingle(allInv: BrandData, allSales: BrandData, daysInMonth: map<string, int>,
                            stockWeek: real, channelTab: string, tab: string, i: nat)
    requires tab in ItemTabs && i < |Months2025|
    ensures var values := PointValues(ItemTabs, allInv, allSales, daysInMonth, stockWeek, channelTab, Months2025[i]);
            var single := SingleItemChartData(TabOf(allInv, tab), TabOf(allSales, tab), daysInMonth, stockWeek, channelTab);
      CoreKey(tab) in values && OutletKey(tab) in values
      && values[CoreKey(tab)] == single[i].core && values[OutletKey(tab)] == single[i].outlet
  {
    PointValuesAt(ItemTabs, allInv, allSales, daysInMonth, stockWeek, channelTab, Months2025[i], tab);
  }

  /** Months after the analysis period have no record in the JSON files, so November and
      December show no figure. */
  lemma NoFiguresAfterAnalysis(inventoryData: TabData, salesData: TabData, daysInMonth: map<string, int>,
                               stockWeek: real, channelTab: string, i: nat)
    requires inventoryData.Keys == set m | m in AnalysisMonths
    requires 10 <= i < |Months2025|
    ensures var r := SingleItemChartData(inventoryData, salesData, daysInMonth, stockWeek, channelTab);
      r[i].core.None? && r[i].outlet.None?
  {
    assert Months2025[i] !in AnalysisMonths;
  }
}
