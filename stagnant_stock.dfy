/** The report the stagnant-stock endpoint assembles from the classified rows: the season
    grouping, the three summary boxes, the four detail tables and the request handler. */
module StagnantStock {
  import opened Wrappers
  import opened Text
  import opened Numbers
  import opened StockTypes
  import opened Sorting
  import opened ItemSums
  import opened StagnantQuery

  /** The bucket of an item: stagnant items all go to 정체재고 whatever their season; a normal
      item goes by the year prefix of its season, the current year taking precedence. */
  function GetSeasonGroup(status: StockStatus, season: string, currentYear: string, nextYear: string): (g: SeasonGroup)
    ensures g == StagnantStock <==> status == Stagnant
    ensures g == CurrentSeason ==> season != "" && StartsWith(season, currentYear)
    ensures g == NextSeason ==> season != "" && StartsWith(season, nextYear) && !StartsWith(season, currentYear)
    ensures g == PastSeason ==> season == "" || (!StartsWith(season, currentYear) && !StartsWith(season, nextYear))
  {
    if status == Stagnant then StagnantStock
    else if season != "" && StartsWith(season, currentYear) then CurrentSeason
    else if season != "" && StartsWith(season, nextYear) then NextSeason
    else PastSeason
  }

  /** A current-season item that the query classifies as stagnant is reported as 정체재고. */
  lemma CurrentSeasonStagnantIsStagnant(season: string, currentYear: string, nextYear: string)
    requires StartsWith(season, currentYear)
    ensures GetSeasonGroup(Stagnant, season, currentYear, nextYear) == StagnantStock
    ensures season != "" ==> GetSeasonGroup(Normal, season, currentYear, nextYear) == CurrentSeason
  {
  }

  /** The row mapping: NULL texts become "", an unrecognised status is normal, and the item is
      put in its season group. */
  function RowToItem(row: QueryRow, currentYear: string, nextYear: string): (it: StagnantStockItem)
    ensures it.status == Stagnant <==> row.status == StatusLabel(Stagnant)
    ensures it.seasonGroup == GetSeasonGroup(it.status, it.season, currentYear, nextYear)
    ensures it.dimensionKey == row.dimensionKey.GetOr("") && it.season == row.season.GetOr("")
    ensures it.stockQty == row.stockQty && it.stockAmt == row.stockAmt && it.salesTagAmt == row.salesTagAmt
    ensures ParseItemCategory(row.category).Some? ==> MidCategoryLabel(it.category) == row.category
  {
    var status := StatusFromLabel(row.status);
    var season := row.season.GetOr("");
    StagnantStockItem(
      row.dimensionKey.GetOr(""), row.prdtCd.GetOr(""), row.prdtNm.GetOr(""), row.colorCd, row.sizeCd,
      ParseItemCategory(row.category).GetOr(Etc), season,
      row.stockQty, row.stockAmt, row.salesTagAmt, row.ratio, status,
      GetSeasonGroup(status, season, currentYear, nextYear))
  }

  function ToItems(rows: seq<QueryRow>, currentYear: string, nextYear: string): (items: seq<StagnantStockItem>)
    ensures |items| == |rows|
    ensures forall i :: 0 <= i < |rows| ==> items[i] == RowToItem(rows[i], currentYear, nextYear)
  {
    if rows == [] then []
    else ToItems(rows[..|rows| - 1], currentYear, nextYear) + [RowToItem(rows[|rows| - 1], currentYear, nextYear)]
  }

  /** What every item of the report satisfies. */
  predicate ItemInvariant(it: StagnantStockItem, currentYear: string, nextYear: string) {
    && it.stockAmt > 0.0
    && IsItemCategory(it.category)
    && it.seasonGroup == GetSeasonGroup(it.status, it.season, currentYear, nextYear)
  }

  /** Every item satisfies the item invariant. */
  predicate ValidItems(items: seq<StagnantStockItem>, currentYear: string, nextYear: string) {
    forall it :: it in items ==> ItemInvariant(it, currentYear, nextYear)
  }

  /** Every item built from the query has positive stock, one of the four categories, and the
      season group of its status and season. */
  lemma QueryItemsInvariant(rel: Relations, thresholdRatio: real, currentYear: string, nextYear: string)
    ensures ValidItems(ToItems(StagnantStockQuery(rel, thresholdRatio), currentYear, nextYear), currentYear, nextYear)
  {
    var rows := StagnantStockQuery(rel, thresholdRatio);
    var items := ToItems(rows, currentYear, nextYear);
    QueryRowsFiltered(rel, thresholdRatio);
    forall it | it in items ensures ItemInvariant(it, currentYear, nextYear) {
      var i :| 0 <= i < |items| && items[i] == it;
      assert rows[i] in rows;
    }
  }

  // ---------------------------------------------------------------------------------------------
  // Summary boxes

  /** The items a category row aggregates: all of them for 전체, else that category's. */
  function CategoryItems(items: seq<StagnantStockItem>, c: MidCategory): seq<StagnantStockItem> {
    if c == Total then items else Select(items, InCategory(c))
  }

  /** The share of the report's stock total, in percent; 0 when the total is not positive. */
  function Pct(amt: real, total: real): (p: real)
    ensures total <= 0.0 ==> p == 0.0
    ensures total > 0.0 ==> p * total == amt * 100.0
  {
    if total > 0.0 then amt / total * 100.0 else 0.0
  }

  lemma PctAdd(a: real, b: real, total: real)
    ensures Pct(a + b, total) == Pct(a, total) + Pct(b, total)
  {
  }

  function CategoryRow(items: seq<StagnantStockItem>, c: MidCategory, totalStockAmt: real): CategorySummary {
    var f := CategoryItems(items, c);
    CategorySummary(c, Sum(f, Amt), Pct(Sum(f, Amt), totalStockAmt), Sum(f, Qty), |KeySet(f)|, Sum(f, Sales))
  }

  /** One row per entry of the category list, in its order; the first covers every item, each
      other row the items of its category, and every row's share is taken of the same total. */
  function AggregateByCategory(items: seq<StagnantStockItem>, totalStockAmt: real): (r: seq<CategorySummary>)
    ensures |r| == |MidCategories|
    ensures forall i :: 0 <= i < |r| ==> r[i].category == MidCategories[i]
    ensures r[0].stockAmt == Sum(items, Amt) && r[0].stockQty == Sum(items, Qty) && r[0].salesTagAmt == Sum(items, Sales)
    ensures r[0].itemCount == |KeySet(items)|
    ensures forall k :: 1 <= k < |r| ==>
      var f := Select(items, InCategory(MidCategories[k]));
      && r[k].stockAmt == Sum(f, Amt) && r[k].stockQty == Sum(f, Qty) && r[k].salesTagAmt == Sum(f, Sales)
      && r[k].itemCount == |KeySet(f)|
    ensures forall k :: 0 <= k < |r| ==> r[k].stockAmtPct == Pct(r[k].stockAmt, totalStockAmt)
  {
    seq(|MidCategories|, i requires 0 <= i < |MidCategories| => CategoryRow(items, MidCategories[i], totalStockAmt))
  }

  /** `categories.find(c => c.category === "전체")`. */
  function FindCategory(cs: seq<CategorySummary>, c: MidCategory): (r: Option<CategorySummary>)
    ensures r.Some? ==> r.value in cs && r.value.category == c
    ensures r.None? ==> forall x :: x in cs ==> x.category != c
    ensures cs != [] && cs[0].category == c ==> r == Some(cs[0])
  {
    if cs == [] then None else if cs[0].category == c then Some(cs[0]) else FindCategory(cs[1..], c)
  }

  /** The box's total is the first category row, the one over every item. */
  function CreateSummaryBox(title: string, items: seq<StagnantStockItem>, totalStockAmt: real): (b: SummaryBoxData)
    ensures b.categories == AggregateByCategory(items, totalStockAmt)
    ensures b.title == title && b.total == b.categories[0] && b.total.category == Total
  {
    var categories := AggregateByCategory(items, totalStockAmt);
    SummaryBoxData(title, categories, FindCategory(categories, Total).value)
  }

  /** Rows whose shares are taken against the same total: amounts that add up give shares that add up. */
  lemma PctOfRows(s: CategorySummary, n: CategorySummary, t: CategorySummary, total: real)
    requires s.stockAmtPct == Pct(s.stockAmt, total) && n.stockAmtPct == Pct(n.stockAmt, total)
    requires t.stockAmtPct == Pct(t.stockAmt, total)
    requires s.stockAmt + n.stockAmt == t.stockAmt
    ensures s.stockAmtPct + n.stockAmtPct == t.stockAmtPct
  {
    PctAdd(s.stockAmt, n.stockAmt, total);
  }

  lemma PctOfRows4(r: seq<CategorySummary>, total: real)
    requires |r| == 5
    requires forall i :: 0 <= i < 5 ==> r[i].stockAmtPct == Pct(r[i].stockAmt, total)
    requires r[0].stockAmt == r[1].stockAmt + r[2].stockAmt + r[3].stockAmt + r[4].stockAmt
    ensures r[0].stockAmtPct == r[1].stockAmtPct + r[2].stockAmtPct + r[3].stockAmtPct + r[4].stockAmtPct
  {
    var a1, a2, a3, a4 := r[1].stockAmt, r[2].stockAmt, r[3].stockAmt, r[4].stockAmt;
    PctAdd(a1, a2, total);
    PctAdd(a1 + a2, a3, total);
    PctAdd(a1 + a2 + a3, a4, total);
  }

  /** With items of the four real categories only, the four category rows add up to the 전체 row. */
  lemma CategoryRowsAddUp(items: seq<StagnantStockItem>, totalStockAmt: real)
    requires forall it :: it in items ==> IsItemCategory(it.category)
    ensures var r := AggregateByCategory(items, totalStockAmt);
      && r[0].stockAmt == r[1].stockAmt + r[2].stockAmt + r[3].stockAmt + r[4].stockAmt
      && r[0].stockQty == r[1].stockQty + r[2].stockQty + r[3].stockQty + r[4].stockQty
      && r[0].salesTagAmt == r[1].salesTagAmt + r[2].salesTagAmt + r[3].salesTagAmt + r[4].salesTagAmt
      && r[0].stockAmtPct == r[1].stockAmtPct + r[2].stockAmtPct + r[3].stockAmtPct + r[4].stockAmtPct
  {
    var r := AggregateByCategory(items, totalStockAmt);
    SumByCategories(items, Amt);
    SumByCategories(items, Qty);
    SumByCategories(items, Sales);
    PctOfRows4(r, totalStockAmt);
  }

  /** Taking a category's items of one status is taking that status among the category's items. */
  lemma CategoryItemsOfStatus(items: seq<StagnantStockItem>, c: MidCategory, st: StockStatus)
    ensures CategoryItems(Select(items, WithStatus(st)), c) == Select(CategoryItems(items, c), WithStatus(st))
  {
    if c != Total {
      SelectCommute(items, WithStatus(st), InCategory(c));
    }
  }

  /** Splitting a list by status splits each category row: the stagnant and the normal row of
      a category add up to that category's row over the whole list. */
  lemma CategoryRowSplit(items: seq<StagnantStockItem>, c: MidCategory, totalStockAmt: real)
    ensures var s := CategoryRow(Select(items, WithStatus(Stagnant)), c, totalStockAmt);
      var n := CategoryRow(Select(items, WithStatus(Normal)), c, totalStockAmt);
      var t := CategoryRow(items, c, totalStockAmt);
      && s.stockAmt + n.stockAmt == t.stockAmt
      && s.stockQty + n.stockQty == t.stockQty
      && s.salesTagAmt + n.salesTagAmt == t.salesTagAmt
      && s.stockAmtPct + n.stockAmtPct == t.stockAmtPct
  {
    var f := CategoryItems(items, c);
    var fs, fn := Select(f, WithStatus(Stagnant)), Select(f, WithStatus(Normal));
    CategoryItemsOfStatus(items, c, Stagnant);
    CategoryItemsOfStatus(items, c, Normal);
    SumByStatus(f, Amt);
    SumByStatus(f, Qty);
    SumByStatus(f, Sales);
    PctOfRows(CategoryRow(Select(items, WithStatus(Stagnant)), c, totalStockAmt),
              CategoryRow(Select(items, WithStatus(Normal)), c, totalStockAmt),
              CategoryRow(items, c, totalStockAmt), totalStockAmt);
  }

  /** With one item per key, the stagnant and normal item counts of a category add up too. */
  lemma CategoryCountSplit(items: seq<StagnantStockItem>, c: MidCategory, totalStockAmt: real)
    requires DistinctKeys(items)
    ensures CategoryRow(Select(items, WithStatus(Stagnant)), c, totalStockAmt).itemCount
          + CategoryRow(Select(items, WithStatus(Normal)), c, totalStockAmt).itemCount
         == CategoryRow(items, c, totalStockAmt).itemCount
  {
    var f := CategoryItems(items, c);
    var fs, fn := Select(f, WithStatus(Stagnant)), Select(f, WithStatus(Normal));
    CategoryItemsOfStatus(items, c, Stagnant);
    CategoryItemsOfStatus(items, c, Normal);
    if c != Total {
      SelectDistinct(items, InCategory(c));
    }
    SelectDistinct(f, WithStatus(Stagnant));
    SelectDistinct(f, WithStatus(Normal));
    KeyCountDistinct(f);
    KeyCountDistinct(fs);
    KeyCountDistinct(fn);
    CountByStatus(f);
  }

  // ---------------------------------------------------------------------------------------------
  // Detail tables

  function ItemStockAmt(it: StagnantStockItem): real {
    it.stockAmt
  }

  /** The items of one season group, largest stock first, with their column totals. */
  function CreateDetailTable(title: string, g: SeasonGroup, items: seq<StagnantStockItem>): (d: DetailTableData)
    ensures d.title == title && d.seasonGroup == g
    ensures multiset(d.items) == multiset(Select(items, InGroup(g)))
    ensures forall it :: it in d.items <==> it in items && it.seasonGroup == g
    ensures SortedDesc(d.items, ItemStockAmt)
    ensures d.totalRow == TotalRow(Sum(d.items, Qty), Sum(d.items, Amt), Sum(d.items, Sales))
  {
    var filtered := Select(items, InGroup(g));
    var sorted := SortDesc(filtered, ItemStockAmt);
    SumPermutation(filtered, sorted, Qty);
    SumPermutation(filtered, sorted, Amt);
    SumPermutation(filtered, sorted, Sales);
    SelectMultiset(items, InGroup(g));
    assert forall it :: it in sorted <==> it in multiset(filtered);
    DetailTableData(title, g, sorted, TotalRow(Sum(filtered, Qty), Sum(filtered, Amt), Sum(filtered, Sales)))
  }

  // ---------------------------------------------------------------------------------------------
  // The response

  function Report(availableMonths: seq<string>, items: seq<StagnantStockItem>, meta: Meta): StagnantStockResponse {
    var totalStockAmt := Sum(items, Amt);
    var stagnantItems := Select(items, WithStatus(Stagnant));
    var normalItems := Select(items, WithStatus(Normal));
    StagnantStockResponse(
      availableMonths,
      CreateSummaryBox("전체 재고", items, totalStockAmt),
      CreateSummaryBox("정체재고", stagnantItems, totalStockAmt),
      CreateSummaryBox("정상재고", normalItems, totalStockAmt),
      CreateDetailTable("정체재고 - 전체", StagnantStock, items),
      CreateDetailTable("당시즌 정상재고", CurrentSeason, items),
      CreateDetailTable("차기시즌 정상재고", NextSeason, items),
      CreateDetailTable("과시즌 정상재고", PastSeason, items),
      meta)
  }

  /** A detail table's total row is the group's column sums, whatever the row order. */
  lemma DetailTotalsOfGroup(title: string, g: SeasonGroup, items: seq<StagnantStockItem>)
    ensures var d := CreateDetailTable(title, g, items);
      && d.totalRow.stockAmt == Sum(Select(items, InGroup(g)), Amt)
      && d.totalRow.stockQty == Sum(Select(items, InGroup(g)), Qty)
      && d.totalRow.salesTagAmt == Sum(Select(items, InGroup(g)), Sales)
  {
    var d := CreateDetailTable(title, g, items);
    SumPermutation(d.items, Select(items, InGroup(g)), Amt);
    SumPermutation(d.items, Select(items, InGroup(g)), Qty);
    SumPermutation(d.items, Select(items, InGroup(g)), Sales);
  }

  /** The four detail tables share out the items: every item is listed in exactly one of them. */
  lemma ReportDetailPartition(availableMonths: seq<string>, items: seq<StagnantStockItem>, meta: Meta)
    ensures var r := Report(availableMonths, items, meta);
      multiset(r.stagnantDetail.items) + multiset(r.currentSeasonDetail.items)
      + multiset(r.nextSeasonDetail.items) + multiset(r.pastSeasonDetail.items) == multiset(items)
  {
    GroupsPartition(items);
  }

  /** The totals rows of the four detail tables add up to the total row of the total box. */
  lemma ReportDetailTotals(availableMonths: seq<string>, items: seq<StagnantStockItem>, meta: Meta)
    ensures var r := Report(availableMonths, items, meta);
      && r.stagnantDetail.totalRow.stockAmt + r.currentSeasonDetail.totalRow.stockAmt
         + r.nextSeasonDetail.totalRow.stockAmt + r.pastSeasonDetail.totalRow.stockAmt == r.totalSummary.total.stockAmt
      && r.stagnantDetail.totalRow.stockQty + r.currentSeasonDetail.totalRow.stockQty
         + r.nextSeasonDetail.totalRow.stockQty + r.pastSeasonDetail.totalRow.stockQty == r.totalSummary.total.stockQty
      && r.stagnantDetail.totalRow.salesTagAmt + r.currentSeasonDetail.totalRow.salesTagAmt
         + r.nextSeasonDetail.totalRow.salesTagAmt + r.pastSeasonDetail.totalRow.salesTagAmt == r.totalSummary.total.salesTagAmt
  {
    SumByGroups(items, Amt);
    SumByGroups(items, Qty);
    SumByGroups(items, Sales);
    DetailTotalsOfGroup("정체재고 - 전체", StagnantStock, items);
    DetailTotalsOfGroup("당시즌 정상재고", CurrentSeason, items);
    DetailTotalsOfGroup("차기시즌 정상재고", NextSeason, items);
    DetailTotalsOfGroup("과시즌 정상재고", PastSeason, items);
  }

  /** Row `i` of a summary box aggregates the items of the `i`-th category of the list. */
  lemma BoxRow(title: string, items: seq<StagnantStockItem>, totalStockAmt: real, i: nat)
    requires i < |MidCategories|
    ensures CreateSummaryBox(title, items, totalStockAmt).categories[i] == CategoryRow(items, MidCategories[i], totalStockAmt)
  {
  }

  /** Every row of the stagnant box plus the same row of the normal box is that row of the total
      box: amount, quantity, sales and share. */
  lemma ReportStatusSplit(availableMonths: seq<string>, items: seq<StagnantStockItem>, meta: Meta)
    ensures var r := Report(availableMonths, items, meta);
      forall i :: 0 <= i < |MidCategories| ==>
        && r.stagnantSummary.categories[i].stockAmt + r.normalSummary.categories[i].stockAmt == r.totalSummary.categories[i].stockAmt
        && r.stagnantSummary.categories[i].stockQty + r.normalSummary.categories[i].stockQty == r.totalSummary.categories[i].stockQty
        && r.stagnantSummary.categories[i].salesTagAmt + r.normalSummary.categories[i].salesTagAmt == r.totalSummary.categories[i].salesTagAmt
        && r.stagnantSummary.categories[i].stockAmtPct + r.normalSummary.categories[i].stockAmtPct == r.totalSummary.categories[i].stockAmtPct
  {
    var r := Report(availableMonths, items, meta);
    var total := Sum(items, Amt);
    var stagnantItems, normalItems := Select(items, WithStatus(Stagnant)), Select(items, WithStatus(Normal));
    assert r.totalSummary == CreateSummaryBox("전체 재고", items, total);
    assert r.stagnantSummary == CreateSummaryBox("정체재고", stagnantItems, total);
    assert r.normalSummary == CreateSummaryBox("정상재고", normalItems, total);
    forall i | 0 <= i < |MidCategories|
      ensures r.stagnantSummary.categories[i].stockAmt + r.normalSummary.categories[i].stockAmt == r.totalSummary.categories[i].stockAmt
      ensures r.stagnantSummary.categories[i].stockQty + r.normalSummary.categories[i].stockQty == r.totalSummary.categories[i].stockQty
      ensures r.stagnantSummary.categories[i].salesTagAmt + r.normalSummary.categories[i].salesTagAmt == r.totalSummary.categories[i].salesTagAmt
      ensures r.stagnantSummary.categories[i].stockAmtPct + r.normalSummary.categories[i].stockAmtPct == r.totalSummary.categories[i].stockAmtPct
    {
      BoxRow("전체 재고", items, total, i);
      BoxRow("정체재고", stagnantItems, total, i);
      BoxRow("정상재고", normalItems, total, i);
      CategoryRowSplit(items, MidCategories[i], total);
    }
  }

  /** With one item per key, the stagnant and normal item counts add up to the total count. */
  lemma ReportCountSplit(availableMonths: seq<string>, items: seq<StagnantStockItem>, meta: Meta)
    requires DistinctKeys(items)
    ensures var r := Report(availableMonths, items, meta);
      forall i :: 0 <= i < |MidCategories| ==>
        r.stagnantSummary.categories[i].itemCount + r.normalSummary.categories[i].itemCount == r.totalSummary.categories[i].itemCount
  {
    var r := Report(availableMonths, items, meta);
    var total := Sum(items, Amt);
    var stagnantItems, normalItems := Select(items, WithStatus(Stagnant)), Select(items, WithStatus(Normal));
    assert r.totalSummary == CreateSummaryBox("전체 재고", items, total);
    assert r.stagnantSummary == CreateSummaryBox("정체재고", stagnantItems, total);
    assert r.normalSummary == CreateSummaryBox("정상재고", normalItems, total);
    forall i | 0 <= i < |MidCategories|
      ensures r.stagnantSummary.categories[i].itemCount + r.normalSummary.categories[i].itemCount == r.totalSummary.categories[i].itemCount
    {
      BoxRow("전체 재고", items, total, i);
      BoxRow("정체재고", stagnantItems, total, i);
      BoxRow("정상재고", normalItems, total, i);
      CategoryCountSplit(items, MidCategories[i], total);
    }
  }

  /** When every item's season group agrees with its status, the stagnant detail table lists
      exactly the stagnant items. */
  lemma StagnantDetailItems(availableMonths: seq<string>, items: seq<StagnantStockItem>, meta: Meta)
    requires forall it :: it in items ==> it.seasonGroup == GetSeasonGroup(it.status, it.season, meta.currentYear, meta.nextYear)
    ensures var r := Report(availableMonths, items, meta);
      multiset(r.stagnantDetail.items) == multiset(Select(items, WithStatus(Stagnant)))
  {
    SelectEquivalent(items, InGroup(StagnantStock), WithStatus(Stagnant));
  }

  /** The stagnant detail table totals to the total row of the stagnant box, and the three
      normal tables together total to the total row of the normal box. */
  lemma ReportDetailMatchesStatus(availableMonths: seq<string>, items: seq<StagnantStockItem>, meta: Meta)
    requires forall it :: it in items ==> it.seasonGroup == GetSeasonGroup(it.status, it.season, meta.currentYear, meta.nextYear)
    ensures var r := Report(availableMonths, items, meta);
      && r.stagnantDetail.totalRow.stockAmt == r.stagnantSummary.total.stockAmt
      && r.stagnantDetail.totalRow.stockQty == r.stagnantSummary.total.stockQty
      && r.stagnantDetail.totalRow.salesTagAmt == r.stagnantSummary.total.salesTagAmt
      && r.currentSeasonDetail.totalRow.stockAmt + r.nextSeasonDetail.totalRow.stockAmt
         + r.pastSeasonDetail.totalRow.stockAmt == r.normalSummary.total.stockAmt
  {
    var r := Report(availableMonths, items, meta);
    StagnantDetailItems(availableMonths, items, meta);
    SumPermutation(r.stagnantDetail.items, Select(items, WithStatus(Stagnant)), Amt);
    SumPermutation(r.stagnantDetail.items, Select(items, WithStatus(Stagnant)), Qty);
    SumPermutation(r.stagnantDetail.items, Select(items, WithStatus(Stagnant)), Sales);
    ReportDetailTotals(availableMonths, items, meta);
    SumByStatus(items, Amt);
  }

  lemma PctOfWhole(total: real)
    requires total > 0.0
    ensures Pct(total, total) == 100.0
  {
    assert total / total == 1.0;
  }

  /** With positive stock throughout, the total box holds 100% and the stagnant and normal
      boxes' shares add up to 100%. */
  lemma ReportShares(availableMonths: seq<string>, items: seq<StagnantStockItem>, meta: Meta)
    requires items != []
    requires forall it :: it in items ==> it.stockAmt > 0.0
    ensures var r := Report(availableMonths, items, meta);
      && r.totalSummary.total.stockAmtPct == 100.0
      && r.stagnantSummary.total.stockAmtPct + r.normalSummary.total.stockAmtPct == 100.0
  {
    var r := Report(availableMonths, items, meta);
    var total := Sum(items, Amt);
    SumPositive(items);
    PctOfWhole(total);
    BoxRow("전체 재고", items, total, 0);
    assert r.totalSummary.total.stockAmtPct == 100.0;
    ReportStatusSplit(availableMonths, items, meta);
    assert r.stagnantSummary.total == r.stagnantSummary.categories[0];
    assert r.normalSummary.total == r.normalSummary.categories[0];
  }

  // ---------------------------------------------------------------------------------------------
  // The handler

  /** A query-string parameter: absent, given once, or repeated (which Next.js delivers as an array). */
  datatype QueryParam = Missing | Single(value: string) | Repeated(values: seq<string>)

  /** The request as the handler reads it. `dimensionTab` is the text given, if any;
      `thresholdPct` is what `parseFloat` made of its parameter, `None` for NaN. */
  datatype Request = Request(
    httpMethod: string,
    brand: QueryParam,
    targetMonth: QueryParam,
    dimensionTab: Option<string>,
    thresholdPct: Option<real>)

  datatype HttpResponse =
    | Ok(report: StagnantStockResponse)
    | MethodNotAllowed
    | BadRequest(error: string)
    | ServerError

  /** A required parameter is a single non-empty string. */
  function RequiredParam(p: QueryParam): (r: Option<string>)
    ensures r.Some? <==> p.Single? && p.value != ""
    ensures r.Some? ==> r.value == p.value
  {
    if p.Single? && p.value != "" then Some(p.value) else None
  }

  /** `dimensionTab || "스타일"`; an unknown text has no key columns, and building the query fails. */
  function ResolveDimensionTab(p: Option<string>): (r: Option<DimensionTab>)
    ensures p.None? || p.value == "" ==> r == Some(Style)
    ensures p.Some? && p.value != "" && r.Some? ==> DimensionTabLabel(r.value) == p.value
    ensures p.Some? && (exists t :: DimensionTabLabel(t) == p.value) ==> r.Some?
  {
    if p.None? || p.value == "" then Some(Style) else ParseDimensionTab(p.value)
  }

  /** `parseFloat(thresholdPct) || 0.01`: NaN and 0 fall back to 0.01 percent. */
  function Threshold(p: Option<real>): (t: real)
    ensures t != 0.0
    ensures p.Some? && p.value != 0.0 ==> t == p.value
    ensures p.None? || p.value == 0.0 ==> t == 0.01
  {
    if p.None? || p.value == 0.0 then 0.01 else p.value
  }

  /** The query compares sales ratios with the threshold given in percent, so with a hundredth of it. */
  function ThresholdRatio(thresholdPct: real): (r: real)
    ensures r * 100.0 == thresholdPct
  {
    thresholdPct / 100.0
  }

  /** `String(year).slice(-2)`. */
  function YearSuffix(year: nat): (s: string)
    ensures year >= 10 ==> |s| == 2 && AllDigits(s) && DigitsValue(s) == year % 100
  {
    var t := NatToString(year);
    NatToStringValue(year);
    if |t| <= 2 then t
    else
      LastTwoDigitsValue(t);
      t[|t| - 2..]
  }

  lemma YearSuffixExample()
    ensures YearSuffix(2025) == "25" && YearSuffix(2026) == "26"
  {
    assert NatToString(2025) == "2025";
    assert NatToString(2026) == "2026";
  }

  /** The answer for resolved parameters and the results of the two queries; the current and
      next year are the last two digits of the clock's year and of the year after. */
  function BuildReport(
    availableMonths: seq<string>, brand: string, targetMonth: string, tab: DimensionTab,
    threshold: real, year: nat, rel: Relations): (r: StagnantStockResponse)
    ensures r.availableMonths == availableMonths
    ensures r.meta == Meta(targetMonth, brand, tab, threshold, YearSuffix(year), YearSuffix(year + 1))
  {
    var currentYear := YearSuffix(year);
    var nextYear := YearSuffix(year + 1);
    var rows := StagnantStockQuery(rel, ThresholdRatio(threshold));
    Report(availableMonths, ToItems(rows, currentYear, nextYear),
           Meta(targetMonth, brand, tab, threshold, currentYear, nextYear))
  }

  /** The endpoint. `year` is the clock's current year; `runMonths` and `runMain` stand for the
      two warehouse queries (the month list for a brand; the aggregated relations for a brand,
      month and tab), `None` when the query throws. */
  function HandleStagnantStock(
    req: Request, year: nat,
    runMonths: string -> Option<seq<string>>,
    runMain: (string, string, DimensionTab) -> Option<Relations>): (r: HttpResponse)
    ensures r.MethodNotAllowed? <==> req.httpMethod != "GET"
    ensures r.BadRequest? <==> req.httpMethod == "GET" && (RequiredParam(req.brand).None? || RequiredParam(req.targetMonth).None?)
    ensures r.BadRequest? && RequiredParam(req.brand).None? ==> r.error == "brand parameter is required"
    ensures r.BadRequest? && RequiredParam(req.brand).Some? ==> r.error == "targetMonth parameter is required"
    ensures r.ServerError? <==> (
      && req.httpMethod == "GET" && RequiredParam(req.brand).Some? && RequiredParam(req.targetMonth).Some?
      && (|| runMonths(RequiredParam(req.brand).value).None?
          || ResolveDimensionTab(req.dimensionTab).None?
          || runMain(RequiredParam(req.brand).value, RequiredParam(req.targetMonth).value,
                     ResolveDimensionTab(req.dimensionTab).value).None?))
    ensures r.Ok? ==> (
      && RequiredParam(req.brand).Some? && RequiredParam(req.targetMonth).Some?
      && ResolveDimensionTab(req.dimensionTab).Some?
      && runMonths(RequiredParam(req.brand).value).Some?
      && var rel := runMain(RequiredParam(req.brand).value, RequiredParam(req.targetMonth).value,
                            ResolveDimensionTab(req.dimensionTab).value);
         rel.Some?
         && r.report == BuildReport(runMonths(RequiredParam(req.brand).value).value,
                                    RequiredParam(req.brand).value, RequiredParam(req.targetMonth).value,
                                    ResolveDimensionTab(req.dimensionTab).value, Threshold(req.thresholdPct), year, rel.value))
  {
    if req.httpMethod != "GET" then MethodNotAllowed
    else if RequiredParam(req.brand).None? then BadRequest("brand parameter is required")
    else if RequiredParam(req.targetMonth).None? then BadRequest("targetMonth parameter is required")
    else
      var brand := RequiredParam(req.brand).value;
      var targetMonth := RequiredParam(req.targetMonth).value;
      var months := runMonths(brand);
      var tab := ResolveDimensionTab(req.dimensionTab);
      if months.None? || tab.None? then ServerError
      else
        var rel := runMain(brand, targetMonth, tab.value);
        if rel.None? then ServerError
        else Ok(BuildReport(months.value, brand, targetMonth, tab.value, Threshold(req.thresholdPct), year, rel.value))
  }

  /** The method and parameter checks answer before any query runs: what the queries would
      return does not change a 405 or 400 answer. */
  lemma RejectionsIgnoreQueries(
    req: Request, year: nat,
    runMonths: string -> Option<seq<string>>, runMain: (string, string, DimensionTab) -> Option<Relations>,
    runMonths2: string -> Option<seq<string>>, runMain2: (string, string, DimensionTab) -> Option<Relations>)
    requires !HandleStagnantStock(req, year, runMonths, runMain).Ok?
    requires !HandleStagnantStock(req, year, runMonths, runMain).ServerError?
    ensures HandleStagnantStock(req, year, runMonths, runMain) == HandleStagnantStock(req, year, runMonths2, runMain2)
  {
  }

  /** What a consistent report promises: the stagnant table holds stagnant items, the current-
      and next-season tables normal items of their season year, all with positive stock; the
      stagnant table totals the stagnant box, and the four tables total the total box. */
  ghost predicate ReportConsistent(r: StagnantStockResponse) {
    && (forall it :: it in r.stagnantDetail.items ==> it.status == Stagnant && it.stockAmt > 0.0)
    && (forall it :: it in r.currentSeasonDetail.items ==>
          it.status == Normal && StartsWith(it.season, r.meta.currentYear) && it.stockAmt > 0.0)
    && (forall it :: it in r.nextSeasonDetail.items ==>
          it.status == Normal && StartsWith(it.season, r.meta.nextYear) && it.stockAmt > 0.0)
    && (forall it :: it in r.pastSeasonDetail.items ==> it.status == Normal && it.stockAmt > 0.0)
    && r.stagnantDetail.totalRow.stockAmt == r.stagnantSummary.total.stockAmt
    && r.stagnantDetail.totalRow.stockAmt + r.currentSeasonDetail.totalRow.stockAmt
       + r.nextSeasonDetail.totalRow.stockAmt + r.pastSeasonDetail.totalRow.stockAmt == r.totalSummary.total.stockAmt
  }

  /** Each detail table holds items of its own group, so of the status and season year the
      group stands for. */
  lemma DetailItems(title: string, g: SeasonGroup, items: seq<StagnantStockItem>, currentYear: string, nextYear: string)
    requires ValidItems(items, currentYear, nextYear)
    ensures var d := CreateDetailTable(title, g, items);
      forall it :: it in d.items ==>
        && it.stockAmt > 0.0
        && it.status == (if g == StagnantStock then Stagnant else Normal)
        && (g == CurrentSeason ==> StartsWith(it.season, currentYear))
        && (g == NextSeason ==> StartsWith(it.season, nextYear))
  {
  }

  /** The report of items that satisfy the item invariant is consistent. */
  lemma ReportOfValidItems(availableMonths: seq<string>, items: seq<StagnantStockItem>, meta: Meta)
    requires ValidItems(items, meta.currentYear, meta.nextYear)
    ensures ReportConsistent(Report(availableMonths, items, meta))
  {
    var r := Report(availableMonths, items, meta);
    StagnantDetailKinds(availableMonths, items, meta);
    CurrentDetailKinds(availableMonths, items, meta);
    NextDetailKinds(availableMonths, items, meta);
    PastDetailKinds(availableMonths, items, meta);
    ReportDetailTotals(availableMonths, items, meta);
    ReportDetailMatchesStatus(availableMonths, items, meta);
    assert r.meta == meta;
  }

  /** The stagnant detail table holds stagnant items with stock. */
  lemma StagnantDetailKinds(availableMonths: seq<string>, items: seq<StagnantStockItem>, meta: Meta)
    requires ValidItems(items, meta.currentYear, meta.nextYear)
    ensures forall it :: it in Report(availableMonths, items, meta).stagnantDetail.items ==> it.status == Stagnant && it.stockAmt > 0.0
  {
    ReportDetails(availableMonths, items, meta);
    DetailItems("정체재고 - 전체", StagnantStock, items, meta.currentYear, meta.nextYear);
  }

  /** The current-season detail table holds normal items with stock of the current year. */
  lemma CurrentDetailKinds(availableMonths: seq<string>, items: seq<StagnantStockItem>, meta: Meta)
    requires ValidItems(items, meta.currentYear, meta.nextYear)
    ensures forall it :: it in Report(availableMonths, items, meta).currentSeasonDetail.items ==>
      it.status == Normal && StartsWith(it.season, meta.currentYear) && it.stockAmt > 0.0
  {
    ReportDetails(availableMonths, items, meta);
    DetailItems("당시즌 정상재고", CurrentSeason, items, meta.currentYear, meta.nextYear);
  }

  /** The next-season detail table holds normal items with stock of the next year. */
  lemma NextDetailKinds(availableMonths: seq<string>, items: seq<StagnantStockItem>, meta: Meta)
    requires ValidItems(items, meta.currentYear, meta.nextYear)
    ensures forall it :: it in Report(availableMonths, items, meta).nextSeasonDetail.items ==>
      it.status == Normal && StartsWith(it.season, meta.nextYear) && it.stockAmt > 0.0
  {
    ReportDetails(availableMonths, items, meta);
    DetailItems("차기시즌 정상재고", NextSeason, items, meta.currentYear, meta.nextYear);
  }

  /** The past-season detail table holds normal items with stock. */
  lemma PastDetailKinds(availableMonths: seq<string>, items: seq<StagnantStockItem>, meta: Meta)
    requires ValidItems(items, meta.currentYear, meta.nextYear)
    ensures forall it :: it in Report(availableMonths, items, meta).pastSeasonDetail.items ==>
      it.status == Normal && it.stockAmt > 0.0
  {
    ReportDetails(availableMonths, items, meta);
    DetailItems("과시즌 정상재고", PastSeason, items, meta.currentYear, meta.nextYear);
  }

  /** The detail tables of the report. */
  lemma ReportDetails(availableMonths: seq<string>, items: seq<StagnantStockItem>, meta: Meta)
    ensures var r := Report(availableMonths, items, meta);
      && r.stagnantDetail == CreateDetailTable("정체재고 - 전체", StagnantStock, items)
      && r.currentSeasonDetail == CreateDetailTable("당시즌 정상재고", CurrentSeason, items)
      && r.nextSeasonDetail == CreateDetailTable("차기시즌 정상재고", NextSeason, items)
      && r.pastSeasonDetail == CreateDetailTable("과시즌 정상재고", PastSeason, items)
  {
  }

  /** The endpoint's report is the report of the query's items under the request's meta. */
  lemma BuildReportOfItems(
    availableMonths: seq<string>, brand: string, targetMonth: string, tab: DimensionTab,
    threshold: real, year: nat, rel: Relations)
    ensures BuildReport(availableMonths, brand, targetMonth, tab, threshold, year, rel)
      == Report(availableMonths, ToItems(StagnantStockQuery(rel, ThresholdRatio(threshold)), YearSuffix(year), YearSuffix(year + 1)),
           Meta(targetMonth, brand, tab, threshold, YearSuffix(year), YearSuffix(year + 1)))
  {
  }

  lemma ConsistentReport(r: StagnantStockResponse, availableMonths: seq<string>, items: seq<StagnantStockItem>, meta: Meta)
    requires r == Report(availableMonths, items, meta)
    requires ValidItems(items, meta.currentYear, meta.nextYear)
    ensures ReportConsistent(r)
  {
    ReportOfValidItems(availableMonths, items, meta);
  }

  /** Every report built from the query is consistent. */
  lemma BuildReportValid(
    availableMonths: seq<string>, brand: string, targetMonth: string, tab: DimensionTab,
    threshold: real, year: nat, rel: Relations)
    ensures ReportConsistent(BuildReport(availableMonths, brand, targetMonth, tab, threshold, year, rel))
  {
    var currentYear, nextYear := YearSuffix(year), YearSuffix(year + 1);
    BuildReportOfItems(availableMonths, brand, targetMonth, tab, threshold, year, rel);
    QueryItemsInvariant(rel, ThresholdRatio(threshold), currentYear, nextYear);
    ConsistentReport(BuildReport(availableMonths, brand, targetMonth, tab, threshold, year, rel), availableMonths,
                     ToItems(StagnantStockQuery(rel, ThresholdRatio(threshold)), currentYear, nextYear),
                     Meta(targetMonth, brand, tab, threshold, currentYear, nextYear));
  }

  /** The row mapping reads a NULL key as "", so two keys of `stock_agg` stay apart in the report
      unless one is NULL and the other the empty text. */
  predicate NullAndEmptyKeysApart(stock: seq<StockAggRow>) {
    forall a, b :: a in stock && b in stock && a.key.None? ==> b.key != Some("")
  }

  /** With one `stock_agg` row per key, the report's items have distinct dimension keys. */
  lemma QueryItemKeysDistinct(rel: Relations, thresholdRatio: real, currentYear: string, nextYear: string)
    requires UniqueStockKeys(rel.stock) && NullAndEmptyKeysApart(rel.stock)
    ensures DistinctKeys(ToItems(StagnantStockQuery(rel, thresholdRatio), currentYear, nextYear))
  {
    var rows := StagnantStockQuery(rel, thresholdRatio);
    var items := ToItems(rows, currentYear, nextYear);
    QueryKeysDistinct(rel, thresholdRatio);
    forall i, j | 0 <= i < j < |items| ensures items[i].dimensionKey != items[j].dimensionKey {
      assert rows[i] in rows && rows[j] in rows;
      assert rows[i].dimensionKey != rows[j].dimensionKey;
      var a :| a in rel.stock && a.key == rows[i].dimensionKey;
      var b :| b in rel.stock && b.key == rows[j].dimensionKey;
    }
  }

  /** For every warehouse answer with one `stock_agg` row per key, the stagnant and normal item
      counts of each category add up to the total box's count. */
  lemma BuildReportCountSplit(
    availableMonths: seq<string>, brand: string, targetMonth: string, tab: DimensionTab,
    threshold: real, year: nat, rel: Relations)
    requires UniqueStockKeys(rel.stock) && NullAndEmptyKeysApart(rel.stock)
    ensures var r := BuildReport(availableMonths, brand, targetMonth, tab, threshold, year, rel);
      forall i :: 0 <= i < |MidCategories| ==>
        r.stagnantSummary.categories[i].itemCount + r.normalSummary.categories[i].itemCount == r.totalSummary.categories[i].itemCount
  {
    var currentYear, nextYear := YearSuffix(year), YearSuffix(year + 1);
    BuildReportOfItems(availableMonths, brand, targetMonth, tab, threshold, year, rel);
    QueryItemKeysDistinct(rel, ThresholdRatio(threshold), currentYear, nextYear);
    ReportCountSplit(availableMonths, ToItems(StagnantStockQuery(rel, ThresholdRatio(threshold)), currentYear, nextYear),
                     Meta(targetMonth, brand, tab, threshold, currentYear, nextYear));
  }

  /** So every successful answer is consistent, and carries the request's brand, month, tab and threshold. */
  lemma HandlerReport(
    req: Request, year: nat,
    runMonths: string -> Option<seq<string>>, runMain: (string, string, DimensionTab) -> Option<Relations>)
    requires HandleStagnantStock(req, year, runMonths, runMain).Ok?
    ensures var r := HandleStagnantStock(req, year, runMonths, runMain).report;
      && req.brand == Single(r.meta.brand) && req.targetMonth == Single(r.meta.targetMonth)
      && r.meta.thresholdPct == Threshold(req.thresholdPct)
      && ResolveDimensionTab(req.dimensionTab) == Some(r.meta.dimensionTab)
      && ReportConsistent(r)
  {
    var brand, targetMonth := RequiredParam(req.brand).value, RequiredParam(req.targetMonth).value;
    var tab := ResolveDimensionTab(req.dimensionTab).value;
    BuildReportValid(runMonths(brand).value, brand, targetMonth, tab, Threshold(req.thresholdPct), year,
                     runMain(brand, targetMonth, tab).value);
  }
}
