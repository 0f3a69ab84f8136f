/** The monthly season-chart endpoint: the query that buckets one year of monthly stock into
    the four season groups, the fixed twelve-month table built from its result, and the handler
    that answers with the tables of 2024 and 2025. */
module SeasonChart {
  import opened Wrappers
  import opened Text
  import opened Numbers
  import opened StockTypes
  import StagnantQuery
  import SS = StagnantStock

  // ---------------------------------------------------------------------------------------------
  // Season prefixes

  /** JavaScript's `s.slice(-2)`: the last two characters, the whole text when it is shorter. */
  function LastTwo(s: string): string {
    if |s| <= 2 then s else s[|s| - 2..]
  }

  lemma LastTwoSpec(s: string)
    ensures |LastTwo(s)| == if |s| < 2 then |s| else 2
    ensures s == s[..|s| - |LastTwo(s)|] + LastTwo(s)
  {
  }

  /** The season prefix of the year a query covers: `yearPrefix.slice(-2)`. */
  function YearShort(yearPrefix: string): string {
    LastTwo(yearPrefix)
  }

  /** `String(parseInt(yearShort) + 1).padStart(2, "0")`; `"NaN"` when the text does not start
      with a digit. */
  function NextYearShort(yearShort: string): string {
    match JsParseInt(yearShort)
    case None => "NaN"
    case Some(n) => PadStart2(IntToString(n + 1))
  }

  /** For a year written with at least two digits, the season prefix is the year modulo 100. */
  lemma YearShortValue(yearPrefix: string)
    requires |yearPrefix| >= 2 && AllDigits(yearPrefix)
    ensures |YearShort(yearPrefix)| == 2 && AllDigits(YearShort(yearPrefix))
    ensures DigitsValue(YearShort(yearPrefix)) == DigitsValue(yearPrefix) % 100
  {
    if |yearPrefix| == 2 {
      assert yearPrefix[|yearPrefix| - 2..] == yearPrefix;
    }
    LastTwoDigitsValue(yearPrefix);
  }

  /** The next season prefix of a two-digit prefix below 99 is the next number in two digits. */
  lemma NextYearShortValue(yearShort: string)
    requires |yearShort| == 2 && AllDigits(yearShort) && DigitsValue(yearShort) < 99
    ensures NextYearShort(yearShort) == TwoDigits(DigitsValue(yearShort) + 1)
  {
  }

  /** The two prefixes of a query: a year written with four digits, whose last two are below
      99, covers the seasons of its last two digits and of the next number (2024 covers 24
      and 25, 2025 covers 25 and 26). */
  lemma SeasonPrefixes(yearPrefix: string)
    requires |yearPrefix| == 4 && AllDigits(yearPrefix) && DigitsValue(yearPrefix) % 100 < 99
    ensures YearShort(yearPrefix) == TwoDigits(DigitsValue(yearPrefix) % 100)
    ensures NextYearShort(YearShort(yearPrefix)) == TwoDigits(DigitsValue(yearPrefix) % 100 + 1)
  {
    YearShortValue(yearPrefix);
    TwoDigitsOfDigits(YearShort(yearPrefix));
    NextYearShortValue(YearShort(yearPrefix));
  }

  /** `padStart` never shortens: after 99 comes the three-character prefix "100". */
  lemma NextYearShortAfter99()
    ensures NextYearShort("99") == "100"
  {
    assert DigitsValue("99") == 99;
    assert NatToString(100) == "100";
  }

  // ---------------------------------------------------------------------------------------------
  // The query

  /** A row of `stock_monthly`: the stock of one dimension key in one month ("YYYYMM") of the
      year, with its season and mid-category; SQL NULLs are `None`. */
  datatype MonthlyStockRow = MonthlyStockRow(
    month: string,
    key: Option<string>,
    season: Option<string>,
    category: Option<string>,
    stockAmt: Option<real>)

  /** A row of `sales_monthly`: the sales of one dimension key in one month. */
  datatype MonthlySalesRow = MonthlySalesRow(month: string, key: Option<string>, salesAmt: Option<real>)

  /** What the warehouse holds for one brand, year and dimension tab. */
  datatype MonthlyRelations = MonthlyRelations(stock: seq<MonthlyStockRow>, sales: seq<MonthlySalesRow>)

  /** The `sales_monthly` row a stock row joins (`LEFT JOIN ... ON st.month = sa.month AND
      st.dimension_key = sa.dimension_key`); a NULL key equals nothing. */
  function MonthlySalesMatch(sales: seq<MonthlySalesRow>, month: string, key: Option<string>): (r: Option<MonthlySalesRow>)
    ensures r.Some? ==> r.value in sales && key.Some? && r.value.month == month && r.value.key == key
    ensures r.None? ==> key.None? || forall s :: s in sales ==> !(s.month == month && s.key == key)
  {
    if sales == [] || key.None? then None
    else if sales[0].month == month && sales[0].key == key then Some(sales[0])
    else MonthlySalesMatch(sales[1..], month, key)
  }

  /** `mid_category_totals` for one month and category: the SUM of `stock_amt` over that month's
      rows of the category, NULL amounts skipped, NULL when no amount is summed; a category
      outside the four has no row, so NULL. */
  function MonthCategoryTotal(stock: seq<MonthlyStockRow>, month: string, cat: string): Option<real> {
    if stock == [] || ParseItemCategory(cat).None? then None
    else
      var t := MonthCategoryTotal(stock[..|stock| - 1], month, cat);
      var r := stock[|stock| - 1];
      if r.month == month && r.category == Some(cat) && r.stockAmt.Some? then Some(t.GetOr(0.0) + r.stockAmt.value) else t
  }

  /** The WHERE clause of `combined`: positive stock and one of the four categories. */
  predicate MonthlyKept(st: MonthlyStockRow) {
    && st.stockAmt.Some? && st.stockAmt.value > 0.0
    && st.category.Some? && ParseItemCategory(st.category.value).Some?
  }

  /** `WHERE 1=1 AND mid_category_kr = '<itemFilter>'`, with no condition for "ACC합계". */
  predicate PassesItemFilter(category: string, itemFilter: string) {
    itemFilter == AccTotalLabel || category == itemFilter
  }

  /** `season LIKE '<prefix>%'`; a NULL season matches no pattern. */
  predicate SeasonLike(season: Option<string>, prefix: string) {
    season.Some? && StartsWith(season.value, prefix)
  }

  /** The CASE of `with_season_group`: the season prefix decides first, and only a row of
      neither the year's season nor the next one can be stagnant, by the same ratio rule as the
      stagnant-stock query. */
  function ChartSeasonGroup(
    season: Option<string>, yearShort: string, nextYearShort: string,
    salesAmt: real, totalMid: Option<real>, thresholdRatio: real): (g: SeasonGroup)
    ensures SeasonLike(season, yearShort) ==> g == CurrentSeason
    ensures SeasonLike(season, nextYearShort) && !SeasonLike(season, yearShort) ==> g == NextSeason
    ensures g == StagnantStock <==>
      !SeasonLike(season, yearShort) && !SeasonLike(season, nextYearShort) && StagnantQuery.StagnantCase(salesAmt, totalMid, thresholdRatio)
    ensures g == PastSeason <==>
      !SeasonLike(season, yearShort) && !SeasonLike(season, nextYearShort) && !StagnantQuery.StagnantCase(salesAmt, totalMid, thresholdRatio)
  {
    if SeasonLike(season, yearShort) then CurrentSeason
    else if SeasonLike(season, nextYearShort) then NextSeason
    else if StagnantQuery.StagnantCase(salesAmt, totalMid, thresholdRatio) then StagnantStock
    else PastSeason
  }

  /** A row of `with_season_group`. */
  datatype SeasonRow = SeasonRow(
    month: string,
    key: Option<string>,
    season: Option<string>,
    category: string,
    stockAmt: real,
    salesAmt: real,
    totalMid: Option<real>,
    group: SeasonGroup)

  /** A kept stock row, joined to its sales (`COALESCE(sa.sales_amt, 0)`) and to its month's
      category total, and put in its season group. */
  function ClassifyMonthly(st: MonthlyStockRow, rel: MonthlyRelations, yearShort: string, nextYearShort: string, thresholdRatio: real): SeasonRow
    requires MonthlyKept(st)
  {
    var sa := MonthlySalesMatch(rel.sales, st.month, st.key);
    var salesAmt := if sa.Some? then sa.value.salesAmt.GetOr(0.0) else 0.0;
    var total := MonthCategoryTotal(rel.stock, st.month, st.category.value);
    SeasonRow(st.month, st.key, st.season, st.category.value, st.stockAmt.value, salesAmt, total,
              ChartSeasonGroup(st.season, yearShort, nextYearShort, salesAmt, total, thresholdRatio))
  }

  /** `with_season_group` under the item filter: only stock rows can produce rows (the join is a
      LEFT JOIN from `stock_monthly`). */
  function SeasonRows(
    rel: MonthlyRelations, stock: seq<MonthlyStockRow>, yearShort: string, nextYearShort: string,
    thresholdRatio: real, itemFilter: string): (r: seq<SeasonRow>)
    ensures |r| <= |stock|
  {
    if stock == [] then []
    else
      var p := SeasonRows(rel, stock[..|stock| - 1], yearShort, nextYearShort, thresholdRatio, itemFilter);
      var st := stock[|stock| - 1];
      if MonthlyKept(st) && PassesItemFilter(st.category.value, itemFilter)
      then p + [ClassifyMonthly(st, rel, yearShort, nextYearShort, thresholdRatio)]
      else p
  }

  /** A row of the query's result as the driver hands it back; the sums are what `Number()`
      makes of them, `None` for NaN. */
  datatype ResultRow = ResultRow(month: string, seasonGroup: string, stockAmt: Option<real>, salesAmt: Option<real>)

  /** The result row of the group of `month` and `groupLabel`, if there is one yet. */
  function FindResultRow(p: seq<ResultRow>, month: string, groupLabel: string): (i: Option<nat>)
    ensures i.Some? ==> i.value < |p| && p[i.value].month == month && p[i.value].seasonGroup == groupLabel
  {
    if p == [] then None
    else if p[|p| - 1].month == month && p[|p| - 1].seasonGroup == groupLabel then Some(|p| - 1)
    else FindResultRow(p[..|p| - 1], month, groupLabel)
  }

  function AddToResult(x: ResultRow, s: SeasonRow): ResultRow {
    x.(stockAmt := Some(x.stockAmt.GetOr(0.0) + s.stockAmt), salesAmt := Some(x.salesAmt.GetOr(0.0) + s.salesAmt))
  }

  /** One season row added to the groups built so far: to its group's row when there is one,
      else as a new group at the end. */
  function GroupRow(p: seq<ResultRow>, s: SeasonRow): seq<ResultRow> {
    var groupLabel := SeasonGroupLabel(s.group);
    match FindResultRow(p, s.month, groupLabel)
    case Some(i) => p[i := AddToResult(p[i], s)]
    case None => p + [ResultRow(s.month, groupLabel, Some(s.stockAmt), Some(s.salesAmt))]
  }

  /** `GROUP BY month, season_group` with `SUM(stock_amt)` and `SUM(sales_amt)`: one result row
      per group, in order of first appearance. The query's `ORDER BY month, season_group` is not
      applied: `transformResults` files each row under its month and group, so the chart does not
      depend on the order of the rows (`ChartOfQuery`). */
  function GroupByMonthAndGroup(rows: seq<SeasonRow>): seq<ResultRow> {
    if rows == [] then [] else GroupRow(GroupByMonthAndGroup(rows[..|rows| - 1]), rows[|rows| - 1])
  }

  /** The query of one year (`yearPrefix` is "2024" or "2025"). */
  function MonthlyStockQuery(rel: MonthlyRelations, yearPrefix: string, thresholdRatio: real, itemFilter: string): seq<ResultRow> {
    var yearShort := YearShort(yearPrefix);
    GroupByMonthAndGroup(SeasonRows(rel, rel.stock, yearShort, NextYearShort(yearShort), thresholdRatio, itemFilter))
  }

  // ---------------------------------------------------------------------------------------------
  // The twelve-month table

  datatype Amounts = Amounts(stockAmt: real, salesAmt: real)

  /** One month of the table. */
  datatype MonthSeasonData = MonthSeasonData(
    month: string,
    stagnant: Amounts,
    pastSeason: Amounts,
    currentSeason: Amounts,
    nextSeason: Amounts,
    totalStockAmt: real,
    totalSalesAmt: real)

  /** `data[seasonGroup]`. */
  function GroupAmounts(d: MonthSeasonData, g: SeasonGroup): Amounts {
    match g
    case StagnantStock => d.stagnant
    case PastSeason => d.pastSeason
    case CurrentSeason => d.currentSeason
    case NextSeason => d.nextSeason
  }

  /** The key of the `i`-th month of the table, `m.toString().padStart(2, "0")` for `m = i + 1`. */
  function MonthKey(i: nat): string
    requires i < 12
  {
    PadStart2(IntToString(i + 1))
  }

  /** The keys of `monthMap`, in the order they are set. */
  const MonthKeys: seq<string> := ["01", "02", "03", "04", "05", "06", "07", "08", "09", "10", "11", "12"]

  lemma MonthKeyIsListed(i: nat)
    requires i < 12
    ensures MonthKey(i) == MonthKeys[i]
  {
    NatToStringSmall(i + 1);
  }

  /** Every key is the two decimal digits of its month. */
  lemma MonthKeyDigits(i: nat)
    requires i < 12
    ensures MonthKey(i) == TwoDigits(i + 1)
    ensures |MonthKey(i)| == 2 && AllDigits(MonthKey(i)) && DigitsValue(MonthKey(i)) == i + 1
  {
  }

  function EmptyMonth(month: string): MonthSeasonData {
    MonthSeasonData(month, Amounts(0.0, 0.0), Amounts(0.0, 0.0), Amounts(0.0, 0.0), Amounts(0.0, 0.0), 0.0, 0.0)
  }

  /** `monthMap.get(monthStr)`: the position of the month whose key is `s`, read off its two
      digits (`MonthIndexSpec` shows that this is the lookup of the key). */
  function MonthIndex(s: string): (r: Option<nat>)
    ensures r.Some? ==> r.value < 12
  {
    if |s| == 2 && IsDigit(s[0]) && IsDigit(s[1]) && 1 <= DigitValue(s[0]) * 10 + DigitValue(s[1]) <= 12
    then Some(DigitValue(s[0]) * 10 + DigitValue(s[1]) - 1)
    else None
  }

  /** The lookup finds month `i` exactly when `s` is the `i`-th key. */
  lemma MonthIndexSpec(s: string, i: nat)
    requires i < 12
    ensures MonthIndex(s) == Some(i) <==> MonthKey(i) == s
  {
    if MonthKey(i) == s {
      MonthIndexOfKey(i);
    }
    if MonthIndex(s) == Some(i) {
      KeyOfMonthIndex(s);
    }
  }

  lemma MonthIndexOfKey(i: nat)
    requires i < 12
    ensures MonthIndex(MonthKey(i)) == Some(i)
  {
    MonthKeyDigits(i);
    DigitsValueTwo(MonthKey(i));
  }

  lemma KeyOfMonthIndex(s: string)
    requires MonthIndex(s).Some?
    ensures MonthKey(MonthIndex(s).value) == s
  {
    assert AllDigits(s) by {
      forall k | 0 <= k < |s| ensures IsDigit(s[k]) {
        assert k == 0 || k == 1;
      }
    }
    DigitsValueTwo(s);
    TwoDigitsOfDigits(s);
    MonthKeyDigits(MonthIndex(s).value);
  }

  /** `data[g].stock_amt += stockAmt; data[g].sales_amt += salesAmt` and the same on the month's totals. */
  function AddAmounts(d: MonthSeasonData, g: SeasonGroup, stockAmt: real, salesAmt: real): (r: MonthSeasonData)
    ensures r.month == d.month
    ensures GroupAmounts(r, g) == Amounts(GroupAmounts(d, g).stockAmt + stockAmt, GroupAmounts(d, g).salesAmt + salesAmt)
    ensures forall h :: h != g ==> GroupAmounts(r, h) == GroupAmounts(d, h)
    ensures r.totalStockAmt == d.totalStockAmt + stockAmt && r.totalSalesAmt == d.totalSalesAmt + salesAmt
  {
    var b := GroupAmounts(d, g);
    var nb := Amounts(b.stockAmt + stockAmt, b.salesAmt + salesAmt);
    var e := match g
      case StagnantStock => d.(stagnant := nb)
      case PastSeason => d.(pastSeason := nb)
      case CurrentSeason => d.(currentSeason := nb)
      case NextSeason => d.(nextSeason := nb);
    e.(totalStockAmt := d.totalStockAmt + stockAmt, totalSalesAmt := d.totalSalesAmt + salesAmt)
  }

  /** The slot of the table a result row is added to: its month's last two characters name a
      month of the table and its group text is one of the four groups. */
  predicate InSlot(month: string, groupLabel: string, i: nat, g: SeasonGroup) {
    MonthIndex(LastTwo(month)) == Some(i) && ParseSeasonGroup(groupLabel) == Some(g)
  }

  /** One result row applied to the table: unrecognised months and groups are ignored, and a
      non-numeric amount counts as 0 (`Number(x) || 0`). */
  function ApplyRow(c: seq<MonthSeasonData>, row: ResultRow): seq<MonthSeasonData>
    requires |c| == 12
  {
    var i := MonthIndex(LastTwo(row.month));
    var g := ParseSeasonGroup(row.seasonGroup);
    if i.Some? && g.Some?
    then c[i.value := AddAmounts(c[i.value], g.value, row.stockAmt.GetOr(0.0), row.salesAmt.GetOr(0.0))]
    else c
  }

  /** The table `transformResults` builds: twelve zeroed months "01" .. "12", then every result
      row applied in turn. */
  function ChartOf(rows: seq<ResultRow>): (c: seq<MonthSeasonData>)
    ensures |c| == 12
    ensures forall i :: 0 <= i < 12 ==> c[i].month == MonthKeys[i]
  {
    if rows == [] then seq(12, i requires 0 <= i < 12 => EmptyMonth(MonthKeys[i]))
    else ApplyRow(ChartOf(rows[..|rows| - 1]), rows[|rows| - 1])
  }

  /** `transformResults`: fills a table of twelve months, then adds each row to its month in
      place. The final sort by `parseInt(month)` finds the months already in order (see
      `ChartInMonthOrder`), so it changes nothing. */
  method TransformResults(rows: seq<ResultRow>) returns (table: array<MonthSeasonData>)
    ensures fresh(table)
    ensures table[..] == ChartOf(rows)
  {
    table := new MonthSeasonData[12];
    var m := 1;
    while m <= 12
      invariant 1 <= m <= 13
      invariant forall i :: 0 <= i < m - 1 ==> table[i] == EmptyMonth(MonthKeys[i])
    {
      MonthKeyIsListed(m - 1);
      table[m - 1] := EmptyMonth(PadStart2(IntToString(m)));
      m := m + 1;
    }
    assert rows[..0] == [];
    assert table[..] == ChartOf(rows[..0]);
    var k := 0;
    while k < |rows|
      invariant 0 <= k <= |rows|
      invariant table[..] == ChartOf(rows[..k])
    {
      AddRow(table, rows[k]);
      ChartStep(rows, k);
      k := k + 1;
    }
    assert rows[..k] == rows;
  }

  /** The body of the `forEach`: adds one result row to its month of the table, in place. */
  method AddRow(table: array<MonthSeasonData>, row: ResultRow)
    requires table.Length == 12
    modifies table
    ensures table[..] == ApplyRow(old(table[..]), row)
  {
    var i := MonthIndex(LastTwo(row.month));
    var g := ParseSeasonGroup(row.seasonGroup);
    if i.Some? && g.Some? {
      table[i.value] := AddAmounts(table[i.value], g.value, row.stockAmt.GetOr(0.0), row.salesAmt.GetOr(0.0));
    }
  }

  /** The table of one more row is the table of the rows before with that row applied. */
  lemma ChartStep(rows: seq<ResultRow>, k: nat)
    requires k < |rows|
    ensures ChartOf(rows[..k + 1]) == ApplyRow(ChartOf(rows[..k]), rows[k])
  {
    assert rows[..k + 1][..k] == rows[..k];
  }

  // ---------------------------------------------------------------------------------------------
  // Properties of the table

  /** A month whose totals are the sums over its four groups. */
  predicate Balanced(d: MonthSeasonData) {
    && d.totalStockAmt == d.stagnant.stockAmt + d.pastSeason.stockAmt + d.currentSeason.stockAmt + d.nextSeason.stockAmt
    && d.totalSalesAmt == d.stagnant.salesAmt + d.pastSeason.salesAmt + d.currentSeason.salesAmt + d.nextSeason.salesAmt
  }

  /** Adding to one group and to the totals keeps a month balanced. */
  lemma AddAmountsBalanced(d: MonthSeasonData, g: SeasonGroup, stockAmt: real, salesAmt: real)
    requires Balanced(d)
    ensures Balanced(AddAmounts(d, g, stockAmt, salesAmt))
  {
    var r := AddAmounts(d, g, stockAmt, salesAmt);
    assert r.stagnant == GroupAmounts(r, StagnantStock) && d.stagnant == GroupAmounts(d, StagnantStock);
    assert r.pastSeason == GroupAmounts(r, PastSeason) && d.pastSeason == GroupAmounts(d, PastSeason);
    assert r.currentSeason == GroupAmounts(r, CurrentSeason) && d.currentSeason == GroupAmounts(d, CurrentSeason);
    assert r.nextSeason == GroupAmounts(r, NextSeason) && d.nextSeason == GroupAmounts(d, NextSeason);
  }

  /** Every month of the table has its totals equal to the sums over the four groups. */
  lemma {:induction false} ChartBalanced(rows: seq<ResultRow>)
    ensures forall i :: 0 <= i < 12 ==> Balanced(ChartOf(rows)[i])
  {
    if rows != [] {
      var c := ChartOf(rows[..|rows| - 1]);
      ChartBalanced(rows[..|rows| - 1]);
      var row := rows[|rows| - 1];
      var i := MonthIndex(LastTwo(row.month));
      var g := ParseSeasonGroup(row.seasonGroup);
      if i.Some? && g.Some? {
        AddAmountsBalanced(c[i.value], g.value, row.stockAmt.GetOr(0.0), row.salesAmt.GetOr(0.0));
      }
    }
  }

  /** The table is in calendar order, so sorting it by `parseInt(month)` leaves it as it is. */
  lemma ChartInMonthOrder(rows: seq<ResultRow>)
    ensures forall i, j :: 0 <= i < j < 12 ==>
      JsParseInt(ChartOf(rows)[i].month).Some? && JsParseInt(ChartOf(rows)[j].month).Some? &&
      JsParseInt(ChartOf(rows)[i].month).value < JsParseInt(ChartOf(rows)[j].month).value
  {
    forall i | 0 <= i < 12
      ensures JsParseInt(ChartOf(rows)[i].month) == Some(i + 1)
    {
      MonthKeyIsListed(i);
      MonthKeyDigits(i);
    }
  }

  datatype Measure = Stock | Sales

  function ResultAmount(r: ResultRow, m: Measure): real {
    if m == Stock then r.stockAmt.GetOr(0.0) else r.salesAmt.GetOr(0.0)
  }

  function Contribution(r: ResultRow, i: nat, g: SeasonGroup, m: Measure): real {
    if InSlot(r.month, r.seasonGroup, i, g) then ResultAmount(r, m) else 0.0
  }

  /** The amount of the result rows that land in month `i` and group `g`. */
  function Contributions(rows: seq<ResultRow>, i: nat, g: SeasonGroup, m: Measure): seq<real> {
    seq(|rows|, k requires 0 <= k < |rows| => Contribution(rows[k], i, g, m))
  }

  function ResultSum(rows: seq<ResultRow>, i: nat, g: SeasonGroup, m: Measure): real {
    RealSum(Contributions(rows, i, g, m))
  }

  function Amount(a: Amounts, m: Measure): real {
    if m == Stock then a.stockAmt else a.salesAmt
  }

  /** Each cell of the table holds the sum of the result rows of its month and group, every
      other row being ignored. */
  lemma {:induction false} ChartSums(rows: seq<ResultRow>, i: nat, g: SeasonGroup, m: Measure)
    requires i < 12
    ensures Amount(GroupAmounts(ChartOf(rows)[i], g), m) == ResultSum(rows, i, g, m)
  {
    if rows != [] {
      ChartSums(rows[..|rows| - 1], i, g, m);
      ApplyRowCell(ChartOf(rows[..|rows| - 1]), rows[|rows| - 1], i, g, m);
      ResultSumLast(rows, i, g, m);
    }
  }

  /** Applying one row adds its contribution to one cell. */
  lemma ApplyRowCell(c: seq<MonthSeasonData>, row: ResultRow, i: nat, g: SeasonGroup, m: Measure)
    requires |c| == 12 && i < 12
    ensures Amount(GroupAmounts(ApplyRow(c, row)[i], g), m) == Amount(GroupAmounts(c[i], g), m) + Contribution(row, i, g, m)
  {
    var j := MonthIndex(LastTwo(row.month));
    var h := ParseSeasonGroup(row.seasonGroup);
    if j.Some? && h.Some? {
      CellUpdate(c, j.value, h.value, row.stockAmt.GetOr(0.0), row.salesAmt.GetOr(0.0), i, g, m);
    }
  }

  /** Adding to the group `h` of month `j` changes cell (`i`, `g`) exactly when it is that cell. */
  lemma CellUpdate(c: seq<MonthSeasonData>, j: nat, h: SeasonGroup, stockAmt: real, salesAmt: real, i: nat, g: SeasonGroup, m: Measure)
    requires j < |c| && i < |c|
    ensures Amount(GroupAmounts(c[j := AddAmounts(c[j], h, stockAmt, salesAmt)][i], g), m)
      == Amount(GroupAmounts(c[i], g), m) + (if j == i && h == g then (if m == Stock then stockAmt else salesAmt) else 0.0)
  {
  }

  // ---------------------------------------------------------------------------------------------
  // Properties of the query

  /** Every season row comes from a kept stock row that passes the item filter; conversely every
      such stock row is present. */
  lemma {:induction false} SeasonRowsOrigin(
    rel: MonthlyRelations, stock: seq<MonthlyStockRow>, yearShort: string, nextYearShort: string,
    thresholdRatio: real, itemFilter: string)
    ensures forall s :: s in SeasonRows(rel, stock, yearShort, nextYearShort, thresholdRatio, itemFilter) ==>
      exists st :: st in stock && MonthlyKept(st) && PassesItemFilter(st.category.value, itemFilter)
        && s == ClassifyMonthly(st, rel, yearShort, nextYearShort, thresholdRatio)
    ensures forall st :: st in stock && MonthlyKept(st) && PassesItemFilter(st.category.value, itemFilter) ==>
      ClassifyMonthly(st, rel, yearShort, nextYearShort, thresholdRatio) in SeasonRows(rel, stock, yearShort, nextYearShort, thresholdRatio, itemFilter)
  {
    if stock != [] {
      var p := stock[..|stock| - 1];
      SeasonRowsOrigin(rel, p, yearShort, nextYearShort, thresholdRatio, itemFilter);
      assert stock == p + [stock[|stock| - 1]];
    }
  }

  /** Every season row has positive stock, one of the four categories, the item filter's
      category, its month's category total as denominator, and the group of the CASE. */
  lemma SeasonRowFacts(
    rel: MonthlyRelations, yearShort: string, nextYearShort: string, thresholdRatio: real, itemFilter: string, s: SeasonRow)
    requires s in SeasonRows(rel, rel.stock, yearShort, nextYearShort, thresholdRatio, itemFilter)
    ensures s.stockAmt > 0.0 && ParseItemCategory(s.category).Some?
    ensures itemFilter != AccTotalLabel ==> s.category == itemFilter
    ensures s.totalMid == MonthCategoryTotal(rel.stock, s.month, s.category)
    ensures s.group == ChartSeasonGroup(s.season, yearShort, nextYearShort, s.salesAmt, s.totalMid, thresholdRatio)
  {
    SeasonRowsOrigin(rel, rel.stock, yearShort, nextYearShort, thresholdRatio, itemFilter);
  }

  /** A kept row has a denominator: its own positive amount is part of its month's category total. */
  lemma {:induction false} KeptRowHasTotal(stock: seq<MonthlyStockRow>, st: MonthlyStockRow)
    requires st in stock && MonthlyKept(st)
    ensures MonthCategoryTotal(stock, st.month, st.category.value).Some?
  {
    var p := stock[..|stock| - 1];
    if stock[|stock| - 1] != st {
      assert stock == p + [stock[|stock| - 1]];
      KeptRowHasTotal(p, st);
    }
  }

  function SeasonContribution(s: SeasonRow, i: nat, g: SeasonGroup, m: Measure): real {
    if InSlot(s.month, SeasonGroupLabel(s.group), i, g) then (if m == Stock then s.stockAmt else s.salesAmt) else 0.0
  }

  /** The amount of the season rows of month `i` and group `g`. */
  function RowSum(rows: seq<SeasonRow>, i: nat, g: SeasonGroup, m: Measure): real {
    if rows == [] then 0.0 else RowSum(rows[..|rows| - 1], i, g, m) + SeasonContribution(rows[|rows| - 1], i, g, m)
  }

  lemma ResultSumLast(rows: seq<ResultRow>, i: nat, g: SeasonGroup, m: Measure)
    requires rows != []
    ensures ResultSum(rows, i, g, m) == ResultSum(rows[..|rows| - 1], i, g, m) + Contribution(rows[|rows| - 1], i, g, m)
  {
    var n := |rows| - 1;
    assert Contributions(rows, i, g, m) == Contributions(rows[..n], i, g, m) + [Contribution(rows[n], i, g, m)];
    RealSumSnoc(Contributions(rows[..n], i, g, m), Contribution(rows[n], i, g, m));
  }

  /** Replacing one result row changes the sum by the difference of the two rows' contributions. */
  lemma ResultSumUpdate(p: seq<ResultRow>, j: nat, y: ResultRow, i: nat, g: SeasonGroup, m: Measure)
    requires j < |p|
    ensures ResultSum(p[j := y], i, g, m) == ResultSum(p, i, g, m) - Contribution(p[j], i, g, m) + Contribution(y, i, g, m)
  {
    assert Contributions(p[j := y], i, g, m) == Contributions(p, i, g, m)[j := Contribution(y, i, g, m)];
    RealSumUpdate(Contributions(p, i, g, m), j, Contribution(y, i, g, m));
  }

  /** Grouping keeps the sums: the result rows of every month and group add up to the season
      rows of that month and group. */
  lemma {:induction false} GroupBySums(rows: seq<SeasonRow>, i: nat, g: SeasonGroup, m: Measure)
    ensures ResultSum(GroupByMonthAndGroup(rows), i, g, m) == RowSum(rows, i, g, m)
  {
    if rows != [] {
      GroupBySums(rows[..|rows| - 1], i, g, m);
      GroupRowSum(GroupByMonthAndGroup(rows[..|rows| - 1]), rows[|rows| - 1], i, g, m);
    }
  }

  /** Adding one season row to the groups adds its contribution to every cell's sum. */
  lemma GroupRowSum(p: seq<ResultRow>, s: SeasonRow, i: nat, g: SeasonGroup, m: Measure)
    ensures ResultSum(GroupRow(p, s), i, g, m) == ResultSum(p, i, g, m) + SeasonContribution(s, i, g, m)
  {
    var groupLabel := SeasonGroupLabel(s.group);
    match FindResultRow(p, s.month, groupLabel)
    case Some(j) =>
      ResultSumUpdate(p, j, AddToResult(p[j], s), i, g, m);
      assert Contribution(AddToResult(p[j], s), i, g, m) == Contribution(p[j], i, g, m) + SeasonContribution(s, i, g, m);
    case None =>
      var n := ResultRow(s.month, groupLabel, Some(s.stockAmt), Some(s.salesAmt));
      assert (p + [n])[..|p|] == p;
      ResultSumLast(p + [n], i, g, m);
      assert Contribution(n, i, g, m) == SeasonContribution(s, i, g, m);
  }

  /** The table of a year: each cell holds the stock (and sales) of the classified rows of its
      month and group. */
  lemma ChartOfQuery(rel: MonthlyRelations, yearPrefix: string, thresholdRatio: real, itemFilter: string, i: nat, g: SeasonGroup, m: Measure)
    requires i < 12
    ensures var yearShort := YearShort(yearPrefix);
      var rows := SeasonRows(rel, rel.stock, yearShort, NextYearShort(yearShort), thresholdRatio, itemFilter);
      Amount(GroupAmounts(ChartOf(MonthlyStockQuery(rel, yearPrefix, thresholdRatio, itemFilter))[i], g), m) == RowSum(rows, i, g, m)
  {
    var yearShort := YearShort(yearPrefix);
    var rows := SeasonRows(rel, rel.stock, yearShort, NextYearShort(yearShort), thresholdRatio, itemFilter);
    ChartSums(GroupByMonthAndGroup(rows), i, g, m);
    GroupBySums(rows, i, g, m);
  }

  /** In the stagnant-stock report a stagnant row of the current season is reported as
      stagnant stock; in this chart the same row is current-season stock. */
  lemma PrecedenceDiffers(season: string, yearShort: string, nextYearShort: string, salesAmt: real, totalMid: Option<real>, thresholdRatio: real)
    requires StartsWith(season, yearShort)
    requires StagnantQuery.StagnantCase(salesAmt, totalMid, thresholdRatio)
    ensures SS.GetSeasonGroup(Stagnant, season, yearShort, nextYearShort) == StagnantStock
    ensures ChartSeasonGroup(Some(season), yearShort, nextYearShort, salesAmt, totalMid, thresholdRatio) == CurrentSeason
  {
  }

  /** A row whose category total is zero or missing is never stagnant. */
  lemma NoStagnationWithoutDenominator(
    season: Option<string>, yearShort: string, nextYearShort: string, salesAmt: real, totalMid: Option<real>, thresholdRatio: real)
    requires totalMid.None? || totalMid.value <= 0.0
    ensures ChartSeasonGroup(season, yearShort, nextYearShort, salesAmt, totalMid, thresholdRatio) != StagnantStock
  {
  }

  // ---------------------------------------------------------------------------------------------
  // The handler

  /** The request as the handler reads it; `thresholdPct` is what `parseFloat` made of its
      parameter, `None` for NaN. */
  datatype ChartRequest = ChartRequest(
    httpMethod: string,
    brand: SS.QueryParam,
    thresholdPct: Option<real>,
    dimensionTab: Option<string>,
    itemFilter: Option<string>)

  datatype ChartMeta = ChartMeta(brand: string, thresholdPct: real, currentYear: string, nextYear: string)

  datatype ChartResponse =
    | ChartOk(year2024: seq<MonthSeasonData>, year2025: seq<MonthSeasonData>, meta: ChartMeta)
    | ChartMethodNotAllowed
    | ChartBadRequest(error: string)
    | ChartServerError

  /** `itemFilter || "ACC합계"`: any other text restricts the query to that category. */
  function ItemFilterOf(p: Option<string>): (f: string)
    ensures p.None? || p.value == "" ==> f == AccTotalLabel
    ensures p.Some? && p.value != "" ==> f == p.value
  {
    if p.None? || p.value == "" then AccTotalLabel else p.value
  }

  /** The table with the year in front of every month. */
  function WithYear(c: seq<MonthSeasonData>, year: string): seq<MonthSeasonData> {
    seq(|c|, i requires 0 <= i < |c| => c[i].(month := year + c[i].month))
  }

  /** `data.forEach(d => d.month = year + d.month)`. */
  method PrefixMonths(table: array<MonthSeasonData>, year: string)
    modifies table
    ensures table[..] == WithYear(old(table[..]), year)
  {
    var k := 0;
    while k < table.Length
      invariant 0 <= k <= table.Length
      invariant forall i :: 0 <= i < k ==> table[i] == old(table[i]).(month := year + old(table[i]).month)
      invariant forall i :: k <= i < table.Length ==> table[i] == old(table[i])
    {
      table[k] := table[k].(month := year + table[k].month);
      k := k + 1;
    }
  }

  /** The table of one year as the handler answers it. */
  function YearChart(rel: MonthlyRelations, yearPrefix: string, thresholdRatio: real, itemFilter: string): seq<MonthSeasonData> {
    WithYear(ChartOf(MonthlyStockQuery(rel, yearPrefix, thresholdRatio, itemFilter)), yearPrefix)
  }

  /** The endpoint. `year` is the clock's current year; `fetch` stands for the warehouse: the
      monthly relations of a brand, year ("2024" or "2025") and dimension tab, `None` when the
      query throws. */
  method HandleSeasonChart(req: ChartRequest, year: nat, fetch: (string, string, DimensionTab) -> Option<MonthlyRelations>)
    returns (resp: ChartResponse)
    ensures resp.ChartMethodNotAllowed? <==> req.httpMethod != "GET"
    ensures resp.ChartBadRequest? <==> req.httpMethod == "GET" && SS.RequiredParam(req.brand).None?
    ensures resp.ChartBadRequest? ==> resp.error == "brand parameter is required"
    ensures resp.ChartServerError? <==> (
      && req.httpMethod == "GET" && SS.RequiredParam(req.brand).Some?
      && (|| SS.ResolveDimensionTab(req.dimensionTab).None?
          || fetch(req.brand.value, "2024", SS.ResolveDimensionTab(req.dimensionTab).value).None?
          || fetch(req.brand.value, "2025", SS.ResolveDimensionTab(req.dimensionTab).value).None?))
    ensures resp.ChartOk? ==> (
      var tab := SS.ResolveDimensionTab(req.dimensionTab).value;
      var ratio := SS.ThresholdRatio(SS.Threshold(req.thresholdPct));
      var filter := ItemFilterOf(req.itemFilter);
      && resp.year2024 == YearChart(fetch(req.brand.value, "2024", tab).value, "2024", ratio, filter)
      && resp.year2025 == YearChart(fetch(req.brand.value, "2025", tab).value, "2025", ratio, filter)
      && resp.meta == ChartMeta(req.brand.value, SS.Threshold(req.thresholdPct), SS.YearSuffix(year), SS.YearSuffix(year + 1)))
  {
    if req.httpMethod != "GET" {
      return ChartMethodNotAllowed;
    }
    var brand := SS.RequiredParam(req.brand);
    if brand.None? {
      return ChartBadRequest("brand parameter is required");
    }
    var threshold := SS.Threshold(req.thresholdPct);
    var thresholdRatio := SS.ThresholdRatio(threshold);
    var tab := SS.ResolveDimensionTab(req.dimensionTab);
    var itemTab := ItemFilterOf(req.itemFilter);
    var currentYear, nextYear := SS.YearSuffix(year), SS.YearSuffix(year + 1);
    if tab.None? {
      return ChartServerError;
    }
    var rel2024 := fetch(brand.value, "2024", tab.value);
    if rel2024.None? {
      return ChartServerError;
    }
    var data2024 := TransformResults(MonthlyStockQuery(rel2024.value, "2024", thresholdRatio, itemTab));
    var rel2025 := fetch(brand.value, "2025", tab.value);
    if rel2025.None? {
      return ChartServerError;
    }
    var data2025 := TransformResults(MonthlyStockQuery(rel2025.value, "2025", thresholdRatio, itemTab));
    PrefixMonths(data2024, "2024");
    PrefixMonths(data2025, "2025");
    resp := ChartOk(data2024[..], data2025[..], ChartMeta(brand.value, threshold, currentYear, nextYear));
  }

  /** Each year of a successful answer has twelve months "YYYY01" .. "YYYY12" in order, each
      balanced: its totals are the sums over the four groups. */
  lemma YearChartShape(rel: MonthlyRelations, yearPrefix: string, thresholdRatio: real, itemFilter: string)
    ensures var c := YearChart(rel, yearPrefix, thresholdRatio, itemFilter);
      && |c| == 12
      && (forall i :: 0 <= i < 12 ==> c[i].month == yearPrefix + TwoDigits(i + 1) && Balanced(c[i]))
  {
    var c := ChartOf(MonthlyStockQuery(rel, yearPrefix, thresholdRatio, itemFilter));
    ChartBalanced(MonthlyStockQuery(rel, yearPrefix, thresholdRatio, itemFilter));
    MonthKeysDigits();
    WithYearShape(c, yearPrefix);
  }

  /** The keys of the table are the months 1 .. 12 in two digits. */
  lemma MonthKeysDigits()
    ensures forall i :: 0 <= i < 12 ==> MonthKeys[i] == TwoDigits(i + 1)
  {
    forall i | 0 <= i < 12
      ensures MonthKeys[i] == TwoDigits(i + 1)
    {
      MonthKeyIsListed(i);
      MonthKeyDigits(i);
    }
  }

  /** Putting the year in front of the months changes nothing else. */
  lemma WithYearShape(c: seq<MonthSeasonData>, year: string)
    requires |c| == 12
    requires forall i :: 0 <= i < 12 ==> c[i].month == MonthKeys[i] && Balanced(c[i])
    requires forall i :: 0 <= i < 12 ==> MonthKeys[i] == TwoDigits(i + 1)
    ensures var w := WithYear(c, year);
      && |w| == 12
      && (forall i :: 0 <= i < 12 ==> w[i].month == year + TwoDigits(i + 1) && Balanced(w[i]))
  {
  }
}
