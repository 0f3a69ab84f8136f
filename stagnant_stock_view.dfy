/** The computations of the stagnant-stock screen that sit between the report and the page:
    the item-tab filter of the detail tables, the sort-header state, the numeric column sort,
    month formatting, month lengths, the stock-weeks label, the order of the summary rows and
    the cross-check table of the four detail tables. */
module StagnantStockView {
  import opened Wrappers
  import opened Numbers
  import opened StockTypes
  import opened ItemSums
  import Sorting
  import Calendar
  import StagnantStock
  import StockWeeksChart

  // ---------------------------------------------------------------------------------------------
  // The item tabs of the detail tables

  /** The item tabs of the screen: every accessory, then the four categories. */
  const ItemFilterTabs: seq<string> := [AccTotalLabel, "신발", "모자", "가방", "기타"]

  /** The category whose label is `s`, if there is one. */
  function CategoryOfLabel(s: string): (r: Option<MidCategory>)
    ensures r.Some? ==> MidCategoryLabel(r.value) == s
    ensures r.None? ==> forall c :: MidCategoryLabel(c) != s
  {
    if s == "전체" then Some(Total) else ParseItemCategory(s)
  }

  /** `items.filter(item => item.mid_category_kr === tab)`. */
  function ItemsOfTab(items: seq<StagnantStockItem>, tab: string): seq<StagnantStockItem> {
    match CategoryOfLabel(tab)
    case Some(c) => Select(items, InCategory(c))
    case None => []
  }

  /** The kept items are exactly the items whose category label is the tab. */
  lemma ItemsOfTabMembers(items: seq<StagnantStockItem>, tab: string)
    ensures forall it :: it in ItemsOfTab(items, tab) <==> it in items && MidCategoryLabel(it.category) == tab
  {
    match CategoryOfLabel(tab)
    case Some(c) =>
      SelectMultiset(items, InCategory(c));
      forall it ensures it in ItemsOfTab(items, tab) <==> it in items && MidCategoryLabel(it.category) == tab {
        assert MidCategoryLabel(it.category) == tab <==> it.category == c;
        assert it in ItemsOfTab(items, tab) <==> multiset(Select(items, InCategory(c)))[it] > 0;
      }
    case None =>
  }

  /** Filtering keeps the original order: the filter of a concatenation is the concatenation of
      the filters. */
  lemma ItemsOfTabAppend(a: seq<StagnantStockItem>, b: seq<StagnantStockItem>, tab: string)
    ensures ItemsOfTab(a + b, tab) == ItemsOfTab(a, tab) + ItemsOfTab(b, tab)
  {
    match CategoryOfLabel(tab)
    case Some(c) => SelectAppend(a, b, InCategory(c));
    case None =>
  }

  /** The totals row of a list of items: the three column sums. */
  function TotalsOf(items: seq<StagnantStockItem>): TotalRow {
    TotalRow(Sum(items, Qty), Sum(items, Amt), Sum(items, Sales))
  }

  /** `filterDetailTableByItem`: ACC합계 shows the table as received; any other tab keeps the
      items of that category, in order, and totals them again. */
  function FilterDetailTableByItem(detail: DetailTableData, tab: string): (r: DetailTableData)
    ensures tab == AccTotalLabel ==> r == detail
    ensures tab != AccTotalLabel ==> r.title == detail.title && r.seasonGroup == detail.seasonGroup
    ensures tab != AccTotalLabel ==>
      forall it :: it in r.items <==> it in detail.items && MidCategoryLabel(it.category) == tab
    ensures tab != AccTotalLabel ==> r.totalRow == TotalsOf(r.items)
  {
    if tab == AccTotalLabel then detail
    else
      var filtered := ItemsOfTab(detail.items, tab);
      ItemsOfTabMembers(detail.items, tab);
      DetailTableData(detail.title, detail.seasonGroup, filtered, TotalsOf(filtered))
  }

  /** Every item of the four real categories lands in exactly one category tab. */
  lemma {:induction false} CountByCategories(items: seq<StagnantStockItem>)
    requires forall it :: it in items ==> IsItemCategory(it.category)
    ensures |Select(items, InCategory(Shoes))| + |Select(items, InCategory(Headwear))|
          + |Select(items, InCategory(Bag))| + |Select(items, InCategory(Etc))| == |items|
  {
    if items != [] {
      var p, x := items[..|items| - 1], items[|items| - 1];
      assert items == p + [x];
      assert x in items;
      CountByCategories(p);
      SelectSnoc(p, x, InCategory(Shoes));
      SelectSnoc(p, x, InCategory(Headwear));
      SelectSnoc(p, x, InCategory(Bag));
      SelectSnoc(p, x, InCategory(Etc));
    }
  }

  /** For a table whose totals are its column sums, the four category tabs share out its items
      and their totals rows add up to the ACC합계 totals row. */
  lemma CategoryTabsAddUp(detail: DetailTableData)
    requires detail.totalRow == TotalsOf(detail.items)
    requires forall it :: it in detail.items ==> IsItemCategory(it.category)
    ensures var s := FilterDetailTableByItem(detail, "신발");
            var h := FilterDetailTableByItem(detail, "모자");
            var b := FilterDetailTableByItem(detail, "가방");
            var e := FilterDetailTableByItem(detail, "기타");
            var all := FilterDetailTableByItem(detail, AccTotalLabel);
      && |s.items| + |h.items| + |b.items| + |e.items| == |all.items|
      && s.totalRow.stockQty + h.totalRow.stockQty + b.totalRow.stockQty + e.totalRow.stockQty == all.totalRow.stockQty
      && s.totalRow.stockAmt + h.totalRow.stockAmt + b.totalRow.stockAmt + e.totalRow.stockAmt == all.totalRow.stockAmt
      && s.totalRow.salesTagAmt + h.totalRow.salesTagAmt + b.totalRow.salesTagAmt + e.totalRow.salesTagAmt
         == all.totalRow.salesTagAmt
  {
    CategoryTab(detail, Shoes);
    CategoryTab(detail, Headwear);
    CategoryTab(detail, Bag);
    CategoryTab(detail, Etc);
    CountByCategories(detail.items);
    SumByCategories(detail.items, Qty);
    SumByCategories(detail.items, Amt);
    SumByCategories(detail.items, Sales);
  }

  /** The tab of a real category holds that category's items and their column sums. */
  lemma CategoryTab(detail: DetailTableData, c: MidCategory)
    requires IsItemCategory(c)
    ensures var t := FilterDetailTableByItem(detail, MidCategoryLabel(c));
      t.items == Select(detail.items, InCategory(c)) && t.totalRow == TotalsOf(t.items)
  {
    var tab := MidCategoryLabel(c);
    assert tab != AccTotalLabel;
    assert CategoryOfLabel(tab) == Some(c);
  }

  // ---------------------------------------------------------------------------------------------
  // Sorting the detail tables

  /** The updater `handleSort` gives `setSortConfig`: the clicked column becomes the key; it is
      sorted ascending only when it was already the key and sorted descending. */
  function NextSortConfig(prev: SortConfig, key: SortKey): (r: SortConfig)
    ensures r.key == key
    ensures r.direction == Asc <==> prev.key == key && prev.direction == Desc
  {
    SortConfig(key, if prev.key == key && prev.direction == Desc then Asc else Desc)
  }

  /** Clicking the same header again flips the direction, so three clicks do what one does. */
  lemma {:induction false} SortClickCycle(prev: SortConfig, key: SortKey)
    ensures NextSortConfig(NextSortConfig(prev, key), key).direction != NextSortConfig(prev, key).direction
    ensures NextSortConfig(NextSortConfig(NextSortConfig(prev, key), key), key) == NextSortConfig(prev, key)
  {
    var once := NextSortConfig(prev, key);
    var twice := NextSortConfig(once, key);
    assert twice.direction == Asc <==> once.direction == Desc;
  }

  /** The sort state of the screen, `useState<SortConfig>`. */
  class SortState {
    var config: SortConfig

    /** Initially the largest stock amount comes first. */
    constructor ()
      ensures config == SortConfig(KeyStockAmt, Desc)
    {
      config := SortConfig(KeyStockAmt, Desc);
    }

    /** `handleSort(key)`. */
    method HandleSort(key: SortKey)
      modifies this
      ensures config == NextSortConfig(old(config), key)
    {
      config := NextSortConfig(config, key);
    }
  }

  /** The columns whose values are numbers. */
  predicate IsNumericKey(k: SortKey) {
    k in {KeyStockQty, KeyStockAmt, KeySalesTagAmt, KeyRatio}
  }

  /** The value of a numeric column. */
  function NumericValue(k: SortKey, it: StagnantStockItem): real {
    match k
    case KeyStockQty => it.stockQty
    case KeyStockAmt => it.stockAmt
    case KeySalesTagAmt => it.salesTagAmt
    case _ => it.ratio
  }

  /** The sort key in the descending order the sort produces: the value itself for `desc`, its
      negation for `asc`. */
  function DirectedKey(config: SortConfig): StagnantStockItem -> real {
    if config.direction == Desc then it => NumericValue(config.key, it) else it => -NumericValue(config.key, it)
  }

  /** `[...data.items].sort(...)` on a numeric column: a fresh list holding the same items,
      ordered by the column in the configured direction. */
  function SortedItems(items: seq<StagnantStockItem>, config: SortConfig): (r: seq<StagnantStockItem>)
    requires IsNumericKey(config.key)
    ensures multiset(r) == multiset(items)
    ensures config.direction == Desc ==>
      forall i, j :: 0 <= i < j < |r| ==> NumericValue(config.key, r[i]) >= NumericValue(config.key, r[j])
    ensures config.direction == Asc ==>
      forall i, j :: 0 <= i < j < |r| ==> NumericValue(config.key, r[i]) <= NumericValue(config.key, r[j])
  {
    var key := DirectedKey(config);
    var r := Sorting.SortDesc(items, key);
    assert forall i, j :: 0 <= i < j < |r| ==> key(r[i]) >= key(r[j]);
    r
  }

  /** The table's sort is stable: items whose column values are equal stay in the order they had. */
  lemma SortedItemsStable(items: seq<StagnantStockItem>, config: SortConfig, v: real)
    requires IsNumericKey(config.key)
    ensures Sorting.WithKey(SortedItems(items, config), DirectedKey(config), v) == Sorting.WithKey(items, DirectedKey(config), v)
  {
    Sorting.SortDescStable(items, DirectedKey(config), v);
  }

  // ---------------------------------------------------------------------------------------------
  // Months

  /** `formatMonth`: "YYYYMM" becomes "YYYY.MM"; text of any other length is shown as it is. */
  function FormatMonth(ym: string): (r: string)
    ensures |ym| != 6 ==> r == ym
    ensures |ym| == 6 ==> |r| == 7 && r[4] == '.' && r[..4] + r[5..] == ym
  {
    if |ym| != 6 then ym
    else
      var r := ym[..4] + "." + ym[4..];
      assert r[..4] == ym[..4] && r[5..] == ym[4..];
      r
  }

  /** `getDaysInMonth`: 30 for text that is not six characters long, else the length of the
      month `new Date(year, month, 0)` lands in; `None` is the `NaN` a non-numeric year or
      month gives. */
  function GetDaysInMonth(yyyymm: string): (d: Option<int>)
    ensures |yyyymm| != 6 ==> d == Some(30)
    ensures d.Some? ==> 28 <= d.value <= 31
  {
    if |yyyymm| != 6 then Some(30)
    else
      var year := JsParseInt(yyyymm[..4]);
      var month := JsParseInt(yyyymm[4..6]);
      if year.Some? && month.Some? then Some(Calendar.JsLastDayBefore(year.value, month.value)) else None
  }

  /** For a six-digit month with a month number from 1 to 12, that month's calendar length. */
  lemma GetDaysInMonthCalendar(yyyymm: string)
    requires |yyyymm| == 6 && AllDigits(yyyymm)
    requires DigitsValue(yyyymm[..4]) >= 100 && 1 <= DigitsValue(yyyymm[4..]) <= 12
    ensures GetDaysInMonth(yyyymm) == Some(Calendar.DaysInMonth(DigitsValue(yyyymm[..4]), DigitsValue(yyyymm[4..])))
  {
    assert yyyymm[4..6] == yyyymm[4..];
    assert AllDigits(yyyymm[..4]) && AllDigits(yyyymm[4..]);
    Calendar.JsLastDayIsMonthLength(DigitsValue(yyyymm[..4]), DigitsValue(yyyymm[4..]));
  }

  // ---------------------------------------------------------------------------------------------
  // Stock weeks of a detail row

  /** What `calcStockWeeks` shows: "판매0", a whole number of weeks, or "NaN주". */
  datatype WeeksLabel = NoSales | Weeks(n: int) | NotANumber

  /** `calcStockWeeks`: no sales (or a negative week's sales) shows "판매0"; otherwise the stock
      divided by a week's sales, rounded half up. Zero days make a week's sales infinite, and
      the rounded quotient 0; a month length that is `NaN` gives `NaN`. */
  function CalcStockWeeks(stockAmt: real, salesAmt: real, days: Option<int>): (r: WeeksLabel)
    ensures r == NoSales <==> salesAmt <= 0.0 || (days.Some? && days.value < 0)
    ensures r == NotANumber <==> salesAmt > 0.0 && days.None?
    ensures r.Weeks? && days.value > 0 ==> r.n == JsRound(stockAmt / (salesAmt / days.value as real * 7.0))
  {
    if salesAmt <= 0.0 then NoSales
    else if days.None? then NotANumber
    else if days.value == 0 then Weeks(0)
    else
      var weekSales := salesAmt / days.value as real * 7.0;
      if weekSales <= 0.0 then NoSales else Weeks(JsRound(stockAmt / weekSales))
  }

  /** A row with stock and sales in a month of known length shows a number of weeks, and no
      negative number for a non-negative stock. */
  lemma CalcStockWeeksOfMonth(stockAmt: real, salesAmt: real, yyyymm: string)
    requires salesAmt > 0.0 && GetDaysInMonth(yyyymm).Some?
    ensures CalcStockWeeks(stockAmt, salesAmt, GetDaysInMonth(yyyymm)).Weeks?
    ensures stockAmt >= 0.0 ==> CalcStockWeeks(stockAmt, salesAmt, GetDaysInMonth(yyyymm)).n >= 0
  {
    var days := GetDaysInMonth(yyyymm).value;
    var weekSales := salesAmt / days as real * 7.0;
    assert weekSales > 0.0;
    if stockAmt >= 0.0 {
      assert stockAmt / weekSales >= 0.0;
    }
  }

  /** The detail table and the stock-weeks chart divide by the same week's sales: the table's
      figure is the chart's unrounded weeks, rounded half up. */
  lemma DetailWeeksMatchChart(stockAmt: real, salesAmt: real, days: int)
    requires salesAmt > 0.0 && days > 0
    ensures StockWeeksChart.CalculateWeeks(stockAmt, salesAmt, days).Some?
    ensures CalcStockWeeks(stockAmt, salesAmt, Some(days))
      == Weeks(JsRound(StockWeeksChart.CalculateWeeks(stockAmt, salesAmt, days).value))
  {
    var weekSales := salesAmt / days as real * 7.0;
    assert weekSales > 0.0;
  }

  // ---------------------------------------------------------------------------------------------
  // The summary boxes: the order of the rows

  /** The position of a category in the display order 전체, 신발, 모자, 가방, 기타. */
  function Rank(c: MidCategory): (k: nat)
    ensures k < |MidCategories| && MidCategories[k] == c
  {
    match c
    case Total => 0
    case Shoes => 1
    case Headwear => 2
    case Bag => 3
    case Etc => 4
  }

  function Present(o: Option<CategorySummary>): seq<CategorySummary> {
    if o.Some? then [o.value] else []
  }

  /** Some row of the list is of category `c`. */
  predicate HasRow(cats: seq<CategorySummary>, c: MidCategory) {
    exists x :: x in cats && x.category == c
  }

  /** The rows found for the categories from position `k` of the display order on. */
  function RowsFrom(cats: seq<CategorySummary>, k: nat): seq<CategorySummary>
    requires k <= |MidCategories|
    decreases |MidCategories| - k
  {
    if k == |MidCategories| then []
    else Present(StagnantStock.FindCategory(cats, MidCategories[k])) + RowsFrom(cats, k + 1)
  }

  /** `categoryOrder.map(name => data.categories.find(...)).filter(Boolean)`. */
  function SortedCategories(cats: seq<CategorySummary>): seq<CategorySummary> {
    RowsFrom(cats, 0)
  }

  /** The rows come in display order. */
  predicate InDisplayOrder(r: seq<CategorySummary>) {
    forall i, j :: 0 <= i < j < |r| ==> Rank(r[i].category) < Rank(r[j].category)
  }

  /** A row of the category at position `k`, put before rows of later categories, keeps the
      display order. */
  lemma PrependInOrder(head: seq<CategorySummary>, rest: seq<CategorySummary>, k: nat)
    requires |head| <= 1 && (forall x :: x in head ==> Rank(x.category) == k)
    requires InDisplayOrder(rest) && (forall x :: x in rest ==> Rank(x.category) > k)
    ensures InDisplayOrder(head + rest)
  {
    var r := head + rest;
    if |head| == 1 {
      forall i, j | 0 <= i < j < |r| ensures Rank(r[i].category) < Rank(r[j].category) {
        assert r[j] == rest[j - 1] && r[j] in rest;
        if i > 0 {
          assert r[i] == rest[i - 1];
        } else {
          assert r[i] in head;
        }
      }
    } else {
      assert r == rest;
    }
  }

  /** The rows from position `k` on: each is the first row of its category, of a category from
      position `k` on, and they come in display order; every category there that has a row is
      shown. */
  lemma {:induction false} RowsFromSpec(cats: seq<CategorySummary>, k: nat)
    requires k <= |MidCategories|
    ensures forall x :: x in RowsFrom(cats, k) ==>
      x in cats && Rank(x.category) >= k && StagnantStock.FindCategory(cats, x.category) == Some(x)
    ensures InDisplayOrder(RowsFrom(cats, k))
    ensures forall c :: Rank(c) >= k && HasRow(cats, c) ==> HasRow(RowsFrom(cats, k), c)
    decreases |MidCategories| - k
  {
    if k < |MidCategories| {
      RowsFromSpec(cats, k + 1);
      var f := StagnantStock.FindCategory(cats, MidCategories[k]);
      var head := Present(f);
      var rest := RowsFrom(cats, k + 1);
      var r := RowsFrom(cats, k);
      assert r == head + rest;
      FoundRow(cats, k);
      PrependInOrder(head, rest, k);
      forall x | x in r
        ensures x in cats && Rank(x.category) >= k && StagnantStock.FindCategory(cats, x.category) == Some(x)
      {
        if x !in head {
          assert x in rest;
        }
      }
      forall c | Rank(c) >= k && HasRow(cats, c)
        ensures HasRow(r, c)
      {
        if Rank(c) == k {
          assert f.Some? && f.value in r;
        } else {
          var y :| y in rest && y.category == c;
          assert y in r;
        }
      }
    }
  }

  /** The row found for the category at position `k`: at most one, of that category, the first
      of its category, and present when the category has a row. */
  lemma FoundRow(cats: seq<CategorySummary>, k: nat)
    requires k < |MidCategories|
    ensures var f := StagnantStock.FindCategory(cats, MidCategories[k]);
      && |Present(f)| <= 1
      && (forall x :: x in Present(f) ==>
            x in cats && Rank(x.category) == k && StagnantStock.FindCategory(cats, x.category) == Some(x))
      && (HasRow(cats, MidCategories[k]) ==> f.Some?)
  {
    var c := MidCategories[k];
    assert Rank(c) == k;
  }

  /** The rows of a summary box as listed: the first row of each category, in display order,
      categories without a row dropped. */
  lemma SortedCategoriesSpec(cats: seq<CategorySummary>)
    ensures forall x :: x in SortedCategories(cats) ==> x in cats && StagnantStock.FindCategory(cats, x.category) == Some(x)
    ensures InDisplayOrder(SortedCategories(cats))
    ensures forall c :: HasRow(cats, c) <==> HasRow(SortedCategories(cats), c)
  {
    RowsFromSpec(cats, 0);
    forall c | HasRow(SortedCategories(cats), c) ensures HasRow(cats, c) {
      var y :| y in SortedCategories(cats) && y.category == c;
      assert y in cats;
    }
  }

  /** `find` returns the first row of the category. */
  lemma {:induction false} FindFirst(cs: seq<CategorySummary>, c: MidCategory, k: nat)
    requires k < |cs| && cs[k].category == c
    requires forall i :: 0 <= i < k ==> cs[i].category != c
    ensures StagnantStock.FindCategory(cs, c) == Some(cs[k])
  {
    if k > 0 {
      assert cs[0].category != c;
      FindFirst(cs[1..], c, k - 1);
    }
  }

  /** Rows already in display order, one per category, are listed as they are. */
  lemma {:induction false} RowsFromOrdered(cs: seq<CategorySummary>, k: nat)
    requires |cs| == |MidCategories| && k <= |MidCategories|
    requires forall i :: 0 <= i < |cs| ==> cs[i].category == MidCategories[i]
    ensures RowsFrom(cs, k) == cs[k..]
    decreases |MidCategories| - k
  {
    if k < |MidCategories| {
      StockTypes.MidCategoriesOrder();
      FindFirst(cs, MidCategories[k], k);
      RowsFromOrdered(cs, k + 1);
      assert cs[k..] == [cs[k]] + cs[k + 1..];
    }
  }

  /** The boxes the report builds already hold one row per category in display order, so the
      screen lists them unchanged. */
  lemma SummaryBoxOrderKept(title: string, items: seq<StagnantStockItem>, totalStockAmt: real)
    ensures var b := StagnantStock.CreateSummaryBox(title, items, totalStockAmt);
      SortedCategories(b.categories) == b.categories
  {
    var b := StagnantStock.CreateSummaryBox(title, items, totalStockAmt);
    RowsFromOrdered(b.categories, 0);
    assert b.categories[0..] == b.categories;
  }

  // ---------------------------------------------------------------------------------------------
  // The cross-check table

  /** One category row of the cross-check table. */
  datatype CheckRow = CheckRow(
    category: MidCategory, stockQty: real, stockAmt: real, salesTagAmt: real, ratio: real, itemCount: nat)

  /** The cross-check table: totals over the four detail tables, their sales ratio, and one row
      per category. */
  datatype CheckSummary = CheckSummary(total: TotalRow, totalRatio: real, categories: seq<CheckRow>)

  /** The items of the four detail tables, one after the other. */
  function AllDetailItems(data: StagnantStockResponse): seq<StagnantStockItem> {
    data.stagnantDetail.items + data.currentSeasonDetail.items + data.nextSeasonDetail.items + data.pastSeasonDetail.items
  }

  /** Sales as a percentage of stock, 0 when there is no positive stock. */
  function SalesRatio(stockAmt: real, salesTagAmt: real): (r: real)
    ensures stockAmt <= 0.0 ==> r == 0.0
    ensures stockAmt > 0.0 ==> r * stockAmt == salesTagAmt * 100.0
  {
    if stockAmt > 0.0 then salesTagAmt / stockAmt * 100.0 else 0.0
  }

  const CheckCategories: seq<MidCategory> := [Shoes, Headwear, Bag, Etc]

  function CheckRowOf(items: seq<StagnantStockItem>, c: MidCategory): (r: CheckRow)
    ensures r.category == c
  {
    var f := Select(items, InCategory(c));
    CheckRow(c, Sum(f, Qty), Sum(f, Amt), Sum(f, Sales), SalesRatio(Sum(f, Amt), Sum(f, Sales)), |f|)
  }

  /** The body of `CheckSummaryTable`. */
  function CheckSummaryOf(data: StagnantStockResponse): (s: CheckSummary)
    ensures |s.categories| == |CheckCategories|
    ensures forall i :: 0 <= i < |s.categories| ==> s.categories[i].category == CheckCategories[i]
  {
    var all := AllDetailItems(data);
    var total := TotalsOf(all);
    CheckSummary(total, SalesRatio(total.stockAmt, total.salesTagAmt),
      seq(|CheckCategories|, i requires 0 <= i < |CheckCategories| => CheckRowOf(all, CheckCategories[i])))
  }

  /** The category rows of the cross-check table add up to its totals row, items and amounts. */
  lemma CheckCategoriesAddUp(data: StagnantStockResponse)
    requires forall it :: it in AllDetailItems(data) ==> IsItemCategory(it.category)
    ensures var s := CheckSummaryOf(data);
      && s.categories[0].itemCount + s.categories[1].itemCount + s.categories[2].itemCount + s.categories[3].itemCount
         == |AllDetailItems(data)|
      && s.categories[0].stockAmt + s.categories[1].stockAmt + s.categories[2].stockAmt + s.categories[3].stockAmt
         == s.total.stockAmt
      && s.categories[0].stockQty + s.categories[1].stockQty + s.categories[2].stockQty + s.categories[3].stockQty
         == s.total.stockQty
      && s.categories[0].salesTagAmt + s.categories[1].salesTagAmt + s.categories[2].salesTagAmt
         + s.categories[3].salesTagAmt == s.total.salesTagAmt
  {
    var all := AllDetailItems(data);
    CountByCategories(all);
    SumByCategories(all, Qty);
    SumByCategories(all, Amt);
    SumByCategories(all, Sales);
  }

  /** Concatenated lists sum to the sum of their sums. */
  lemma SumOfFour(a: seq<StagnantStockItem>, b: seq<StagnantStockItem>, c: seq<StagnantStockItem>,
                  d: seq<StagnantStockItem>, f: Field)
    ensures Sum(a + b + c + d, f) == Sum(a, f) + Sum(b, f) + Sum(c, f) + Sum(d, f)
  {
    SumAppend(a + b + c, d, f);
    SumAppend(a + b, c, f);
    SumAppend(a, b, f);
  }

  /** Tables that total their own items: the cross-check totals are the sums of the four
      totals rows. */
  lemma CheckTotalsOfTables(data: StagnantStockResponse)
    requires data.stagnantDetail.totalRow == TotalsOf(data.stagnantDetail.items)
    requires data.currentSeasonDetail.totalRow == TotalsOf(data.currentSeasonDetail.items)
    requires data.nextSeasonDetail.totalRow == TotalsOf(data.nextSeasonDetail.items)
    requires data.pastSeasonDetail.totalRow == TotalsOf(data.pastSeasonDetail.items)
    ensures var s := CheckSummaryOf(data);
      && s.total.stockAmt == data.stagnantDetail.totalRow.stockAmt + data.currentSeasonDetail.totalRow.stockAmt
                           + data.nextSeasonDetail.totalRow.stockAmt + data.pastSeasonDetail.totalRow.stockAmt
      && s.total.stockQty == data.stagnantDetail.totalRow.stockQty + data.currentSeasonDetail.totalRow.stockQty
                           + data.nextSeasonDetail.totalRow.stockQty + data.pastSeasonDetail.totalRow.stockQty
      && s.total.salesTagAmt == data.stagnantDetail.totalRow.salesTagAmt + data.currentSeasonDetail.totalRow.salesTagAmt
                              + data.nextSeasonDetail.totalRow.salesTagAmt + data.pastSeasonDetail.totalRow.salesTagAmt
  {
    var a, b, c, d := data.stagnantDetail.items, data.currentSeasonDetail.items, data.nextSeasonDetail.items, data.pastSeasonDetail.items;
    assert AllDetailItems(data) == a + b + c + d;
    SumOfFour(a, b, c, d, Qty);
    SumOfFour(a, b, c, d, Amt);
    SumOfFour(a, b, c, d, Sales);
  }

  /** On a report the API built, the cross-check totals equal the total box's totals: the four
      detail tables hold every item once. */
  lemma CheckTotalsMatchReport(availableMonths: seq<string>, items: seq<StagnantStockItem>, meta: Meta)
    ensures var r := StagnantStock.Report(availableMonths, items, meta);
            var s := CheckSummaryOf(r);
      && s.total.stockAmt == r.totalSummary.total.stockAmt
      && s.total.stockQty == r.totalSummary.total.stockQty
      && s.total.salesTagAmt == r.totalSummary.total.salesTagAmt
  {
    var r := StagnantStock.Report(availableMonths, items, meta);
    StagnantStock.ReportDetailTotals(availableMonths, items, meta);
    CheckTotalsOfTables(r);
  }

  /** A category row of the cross-check table over any arrangement of the items carries the
      sums of that category's summary row. */
  lemma CheckRowOfPermutation(all: seq<StagnantStockItem>, items: seq<StagnantStockItem>, c: MidCategory, t: real)
    requires multiset(all) == multiset(items) && IsItemCategory(c)
    ensures var row := CheckRowOf(all, c);
            var box := StagnantStock.CategoryRow(items, c, t);
      row.stockAmt == box.stockAmt && row.stockQty == box.stockQty && row.salesTagAmt == box.salesTagAmt
  {
    SelectPermutation(all, items, InCategory(c));
    SumPermutation(Select(all, InCategory(c)), Select(items, InCategory(c)), Qty);
    SumPermutation(Select(all, InCategory(c)), Select(items, InCategory(c)), Amt);
    SumPermutation(Select(all, InCategory(c)), Select(items, InCategory(c)), Sales);
  }

  /** The cross-check categories are the summary categories after 전체. */
  lemma CheckCategoryPosition(i: nat)
    requires i < |CheckCategories|
    ensures MidCategories[i + 1] == CheckCategories[i]
  {
  }

  /** Row `k` of the total box of a report. */
  lemma ReportBoxRow(availableMonths: seq<string>, items: seq<StagnantStockItem>, meta: Meta, k: nat)
    requires k < |MidCategories|
    ensures StagnantStock.Report(availableMonths, items, meta).totalSummary.categories[k]
      == StagnantStock.CategoryRow(items, MidCategories[k], Sum(items, Amt))
  {
    StagnantStock.BoxRow("전체 재고", items, Sum(items, Amt), k);
  }

  /** On a report the API built, each category row of the cross-check table carries the sums of
      that category's row in the total box. */
  lemma CheckCategoriesMatchReport(availableMonths: seq<string>, items: seq<StagnantStockItem>, meta: Meta, i: nat)
    requires i < |CheckCategories|
    ensures var r := StagnantStock.Report(availableMonths, items, meta);
            var row := CheckSummaryOf(r).categories[i];
            var box := r.totalSummary.categories[i + 1];
      && box.category == row.category
      && row.stockAmt == box.stockAmt && row.stockQty == box.stockQty && row.salesTagAmt == box.salesTagAmt
  {
    var r := StagnantStock.Report(availableMonths, items, meta);
    var all := AllDetailItems(r);
    var c := CheckCategories[i];
    StagnantStock.ReportDetailPartition(availableMonths, items, meta);
    assert multiset(all) == multiset(items);
    assert CheckSummaryOf(r).categories[i] == CheckRowOf(all, c);
    CheckRowOfPermutation(all, items, c, Sum(items, Amt));
    CheckCategoryPosition(i);
    ReportBoxRow(availableMonths, items, meta, i + 1);
  }
}
