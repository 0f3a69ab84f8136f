/** The classification query of the stagnant-stock endpoint, as functions over the two aggregated
    relations it reads: `stock_agg` (stock per dimension key) and `sales_agg` (sales per key). */
module StagnantQuery {
  import opened Wrappers
  import opened StockTypes
  import opened Sorting

  /** A row of `stock_agg`; SQL NULLs are `None`. The key is NULL when a part of it is (the
      colour and size tabs concatenate the product code with a nullable column). */
  datatype StockAggRow = StockAggRow(
    key: Option<string>,
    prdtCd: Option<string>,
    colorCd: Option<string>,
    sizeCd: Option<string>,
    prdtNm: Option<string>,
    season: Option<string>,
    category: Option<string>,
    stockAmt: Option<real>,
    stockQty: Option<real>)

  /** A row of `sales_agg`. */
  datatype SalesAggRow = SalesAggRow(
    key: Option<string>,
    prdtCd: Option<string>,
    colorCd: Option<string>,
    sizeCd: Option<string>,
    prdtNm: Option<string>,
    season: Option<string>,
    category: Option<string>,
    salesTagAmt: Option<real>)

  /** What the warehouse holds for one (brand, month, dimension tab): one row per key in each relation. */
  datatype Relations = Relations(stock: seq<StockAggRow>, sales: seq<SalesAggRow>)

  /** The `sales_agg` row joined to a key (`st.dimension_key = sa.dimension_key`); a NULL key
      equals nothing. */
  function SalesMatch(sales: seq<SalesAggRow>, key: Option<string>): (r: Option<SalesAggRow>)
    ensures r.Some? ==> r.value in sales && key.Some? && r.value.key == key
    ensures r.None? ==> key.None? || forall s :: s in sales ==> s.key != key
  {
    if sales == [] || key.None? then None
    else if sales[0].key == key then Some(sales[0])
    else SalesMatch(sales[1..], key)
  }

  /** `mid_category_totals`: the SUM of `stock_amt` over every `stock_agg` row of a valid category,
      NULL amounts skipped, NULL when no amount is summed. No `stock_amt > 0` filter applies here. */
  function MidCategoryTotal(stock: seq<StockAggRow>, cat: string): Option<real> {
    if stock == [] || ParseItemCategory(cat).None? then None
    else
      var t := MidCategoryTotal(stock[..|stock| - 1], cat);
      var r := stock[|stock| - 1];
      if r.category == Some(cat) && r.stockAmt.Some? then Some(t.GetOr(0.0) + r.stockAmt.value) else t
  }

  /** A row of `combined`. */
  datatype CombinedRow = CombinedRow(
    key: Option<string>,
    prdtCd: Option<string>,
    colorCd: Option<string>,
    sizeCd: Option<string>,
    prdtNm: Option<string>,
    category: string,
    season: Option<string>,
    stockQty: real,
    stockAmt: real,
    salesTagAmt: real,
    totalMid: Option<real>)

  function SalesAttr<T>(sa: Option<SalesAggRow>, get: SalesAggRow -> Option<T>): Option<T> {
    if sa.Some? then get(sa.value) else None
  }

  /** The category a joined row is filtered and grouped by: `COALESCE(st.mid_category_kr, sa.mid_category_kr)`. */
  function JoinedCategory(st: StockAggRow, sales: seq<SalesAggRow>): Option<string> {
    Coalesce(st.category, SalesAttr(SalesMatch(sales, st.key), (s: SalesAggRow) => s.category))
  }

  /** The WHERE clause of `combined`: positive stock and one of the four categories. */
  predicate Kept(st: StockAggRow, sales: seq<SalesAggRow>) {
    && st.stockAmt.GetOr(0.0) > 0.0
    && JoinedCategory(st, sales).Some?
    && ParseItemCategory(JoinedCategory(st, sales).value).Some?
  }

  function CombineRow(st: StockAggRow, rel: Relations): CombinedRow
    requires Kept(st, rel.sales)
  {
    var sa := SalesMatch(rel.sales, st.key);
    var cat := JoinedCategory(st, rel.sales).value;
    CombinedRow(
      st.key,
      Coalesce(st.prdtCd, SalesAttr(sa, (s: SalesAggRow) => s.prdtCd)),
      Coalesce(st.colorCd, SalesAttr(sa, (s: SalesAggRow) => s.colorCd)),
      Coalesce(st.sizeCd, SalesAttr(sa, (s: SalesAggRow) => s.sizeCd)),
      Coalesce(st.prdtNm, SalesAttr(sa, (s: SalesAggRow) => s.prdtNm)),
      cat,
      Coalesce(st.season, SalesAttr(sa, (s: SalesAggRow) => s.season)),
      st.stockQty.GetOr(0.0),
      st.stockAmt.GetOr(0.0),
      SalesAttr(sa, (s: SalesAggRow) => s.salesTagAmt).GetOr(0.0),
      MidCategoryTotal(rel.stock, cat))
  }

  /** `combined`: the full outer join on the key, restricted by the WHERE clause. A key with
      sales but no stock joins with a NULL stock amount, which the WHERE clause drops, so only
      `stock_agg` rows can produce rows. */
  function Combine(rel: Relations, stock: seq<StockAggRow>): (r: seq<CombinedRow>)
    ensures |r| <= |stock|
  {
    if stock == [] then []
    else
      var p := Combine(rel, stock[..|stock| - 1]);
      var st := stock[|stock| - 1];
      if Kept(st, rel.sales) then p + [CombineRow(st, rel)] else p
  }

  /** A row of the final SELECT, as the driver hands it back. */
  datatype QueryRow = QueryRow(
    dimensionKey: Option<string>,
    prdtCd: Option<string>,
    colorCd: Option<string>,
    sizeCd: Option<string>,
    prdtNm: Option<string>,
    category: string,
    season: Option<string>,
    stockQty: real,
    stockAmt: real,
    salesTagAmt: real,
    totalMid: Option<real>,
    ratio: real,
    status: string)

  /** The first CASE: `sales_tag_amt / stock_amt_total_mid` when the total is positive, else 0. */
  function Ratio(sales: real, totalMid: Option<real>): (r: real)
    ensures totalMid.None? || totalMid.value <= 0.0 ==> r == 0.0
    ensures totalMid.Some? && totalMid.value > 0.0 ==> r * totalMid.value == sales
  {
    if totalMid.Some? && totalMid.value > 0.0 then sales / totalMid.value else 0.0
  }

  /** The second CASE: stagnant exactly when the total is positive and the ratio is strictly below
      the threshold. A missing (NULL) or non-positive total is never stagnant. */
  predicate StagnantCase(sales: real, totalMid: Option<real>, thresholdRatio: real) {
    totalMid.Some? && totalMid.value > 0.0 && sales / totalMid.value < thresholdRatio
  }

  function Classify(c: CombinedRow, thresholdRatio: real): QueryRow {
    QueryRow(c.key, c.prdtCd, c.colorCd, c.sizeCd, c.prdtNm, c.category, c.season,
             c.stockQty, c.stockAmt, c.salesTagAmt, c.totalMid,
             Ratio(c.salesTagAmt, c.totalMid),
             if StagnantCase(c.salesTagAmt, c.totalMid, thresholdRatio) then StatusLabel(Stagnant) else StatusLabel(Normal))
  }

  function QueryRowStockAmt(r: QueryRow): real {
    r.stockAmt
  }

  /** Classify every combined row, keeping their order. */
  function ClassifyAll(cs: seq<CombinedRow>, thresholdRatio: real): (r: seq<QueryRow>)
    ensures |r| == |cs|
    ensures forall i :: 0 <= i < |cs| ==> r[i] == Classify(cs[i], thresholdRatio)
  {
    if cs == [] then [] else ClassifyAll(cs[..|cs| - 1], thresholdRatio) + [Classify(cs[|cs| - 1], thresholdRatio)]
  }

  /** The whole query: classify every combined row, `ORDER BY stock_amt DESC`. */
  function StagnantStockQuery(rel: Relations, thresholdRatio: real): (rows: seq<QueryRow>)
    ensures SortedDesc(rows, QueryRowStockAmt)
    ensures multiset(rows) == multiset(ClassifyAll(Combine(rel, rel.stock), thresholdRatio))
  {
    SortDesc(ClassifyAll(Combine(rel, rel.stock), thresholdRatio), QueryRowStockAmt)
  }

  // ---------------------------------------------------------------------------------------------
  // Properties of the query

  /** `GROUP BY dimension_key` leaves one `stock_agg` row per key, all NULL keys forming one group. */
  predicate UniqueStockKeys(stock: seq<StockAggRow>) {
    forall i, j :: 0 <= i < j < |stock| ==> stock[i].key != stock[j].key
  }

  predicate DistinctCombinedKeys(cs: seq<CombinedRow>) {
    forall i, j :: 0 <= i < j < |cs| ==> cs[i].key != cs[j].key
  }

  /** No two rows the query returns have the same key. */
  predicate DistinctRowKeys(rows: seq<QueryRow>) {
    forall i, j :: 0 <= i < j < |rows| ==> rows[i].dimensionKey != rows[j].dimensionKey
  }

  /** Every combined row comes from a kept `stock_agg` row, whose key and amounts it carries;
      conversely every kept stock row is present. */
  lemma {:induction false} CombineRows(rel: Relations, stock: seq<StockAggRow>)
    ensures forall c :: c in Combine(rel, stock) ==>
      exists st :: st in stock && Kept(st, rel.sales) && c == CombineRow(st, rel)
    ensures forall st :: st in stock && Kept(st, rel.sales) ==> CombineRow(st, rel) in Combine(rel, stock)
  {
    if stock != [] {
      var p := stock[..|stock| - 1];
      CombineRows(rel, p);
      assert stock == p + [stock[|stock| - 1]];
    }
  }

  /** Every classified row has positive stock and one of the four categories, and its
      denominator is the total of that category. */
  lemma CombinedRowsFiltered(rel: Relations, c: CombinedRow)
    requires c in Combine(rel, rel.stock)
    ensures c.stockAmt > 0.0
    ensures ParseItemCategory(c.category).Some?
    ensures c.totalMid == MidCategoryTotal(rel.stock, c.category)
  {
    CombineRows(rel, rel.stock);
  }

  /** Every row the query returns has positive stock and one of the four categories. */
  lemma QueryRowsFiltered(rel: Relations, thresholdRatio: real)
    ensures forall q :: q in StagnantStockQuery(rel, thresholdRatio) ==>
      q.stockAmt > 0.0 && ParseItemCategory(q.category).Some?
  {
    var cs := Combine(rel, rel.stock);
    var all := ClassifyAll(cs, thresholdRatio);
    forall q | q in StagnantStockQuery(rel, thresholdRatio)
      ensures q.stockAmt > 0.0 && ParseItemCategory(q.category).Some?
    {
      assert q in multiset(all);
      var j :| 0 <= j < |cs| && all[j] == q;
      CombinedRowsFiltered(rel, cs[j]);
    }
  }

  /** A key that appears only in `sales_agg` produces no row. */
  lemma SalesOnlyKeysDropped(rel: Relations, key: string)
    requires forall st :: st in rel.stock ==> st.key != Some(key)
    ensures forall c :: c in Combine(rel, rel.stock) ==> c.key != Some(key)
  {
    CombineRows(rel, rel.stock);
  }

  /** The status column is stagnant exactly when the denominator is positive and the ratio
      column is strictly below the threshold; with a zero or missing denominator the ratio is 0
      and the row is normal. */
  lemma StatusMeaning(c: CombinedRow, thresholdRatio: real)
    ensures var q := Classify(c, thresholdRatio);
      && (q.status == StatusLabel(Stagnant) <==> (c.totalMid.Some? && c.totalMid.value > 0.0 && q.ratio < thresholdRatio))
      && (q.status == StatusLabel(Stagnant) || q.status == StatusLabel(Normal))
      && (c.totalMid.None? || c.totalMid.value <= 0.0 ==> q.ratio == 0.0 && q.status == StatusLabel(Normal))
  {
  }

  /** Sum of the non-NULL amounts of the `stock_agg` rows of a category whose amount is positive
      (`positive`) or not positive (`!positive`). */
  function CategoryStockSum(stock: seq<StockAggRow>, cat: string, positive: bool): real {
    if stock == [] then 0.0
    else
      var r := stock[|stock| - 1];
      CategoryStockSum(stock[..|stock| - 1], cat, positive)
        + (if r.category == Some(cat) && r.stockAmt.Some? && (r.stockAmt.value > 0.0) == positive then r.stockAmt.value else 0.0)
  }

  /** The denominator covers the whole category of `stock_agg`: the positive stock of the rows
      that go on to be classified plus the zero and negative amounts of rows the WHERE clause
      drops. */
  lemma {:induction false} DenominatorScope(stock: seq<StockAggRow>, cat: string)
    requires ParseItemCategory(cat).Some?
    ensures MidCategoryTotal(stock, cat).GetOr(0.0) == CategoryStockSum(stock, cat, true) + CategoryStockSum(stock, cat, false)
  {
    if stock != [] {
      DenominatorScope(stock[..|stock| - 1], cat);
    }
  }

  /** With only positive amounts in a category, the denominator is the sum of that category's stock. */
  lemma {:induction false} DenominatorWithPositiveStock(stock: seq<StockAggRow>, cat: string)
    requires ParseItemCategory(cat).Some?
    requires forall r :: r in stock && r.category == Some(cat) && r.stockAmt.Some? ==> r.stockAmt.value > 0.0
    ensures CategoryStockSum(stock, cat, false) == 0.0
    ensures MidCategoryTotal(stock, cat).GetOr(0.0) == CategoryStockSum(stock, cat, true)
  {
    if stock != [] {
      DenominatorWithPositiveStock(stock[..|stock| - 1], cat);
    }
    DenominatorScope(stock, cat);
  }

  /** An example of the denominator scope: a shoe row with stock 100 and a shoe row with stock
      -40. Only the first is classified, and its denominator is 60, not 100. */
  lemma DenominatorCountsDroppedRows()
    ensures var a := StockAggRow(Some("A"), None, None, None, None, Some("23F"), Some("신발"), Some(100.0), Some(1.0));
      var b := StockAggRow(Some("B"), None, None, None, None, Some("23F"), Some("신발"), Some(-40.0), Some(-1.0));
      var rel := Relations([a, b], []);
      Combine(rel, rel.stock) == [CombineRow(a, rel)] && CombineRow(a, rel).totalMid == Some(60.0)
  {
    var a := StockAggRow(Some("A"), None, None, None, None, Some("23F"), Some("신발"), Some(100.0), Some(1.0));
    var b := StockAggRow(Some("B"), None, None, None, None, Some("23F"), Some("신발"), Some(-40.0), Some(-1.0));
    var rel := Relations([a, b], []);
    assert [a, b][..1] == [a];
    assert [a][..0] == [];
    assert MidCategoryTotal([a], "신발") == Some(100.0);
  }

  /** With one `stock_agg` row per key, the combined rows have distinct keys, each the key of a
      `stock_agg` row. */
  lemma {:induction false} CombineKeysDistinct(rel: Relations, stock: seq<StockAggRow>)
    requires UniqueStockKeys(stock)
    ensures DistinctCombinedKeys(Combine(rel, stock))
  {
    if stock != [] {
      var p, st := stock[..|stock| - 1], stock[|stock| - 1];
      var q := Combine(rel, p);
      assert UniqueStockKeys(p) by {
        forall i, j | 0 <= i < j < |p| ensures p[i].key != p[j].key {
          assert p[i] == stock[i] && p[j] == stock[j];
        }
      }
      CombineKeysDistinct(rel, p);
      if Kept(st, rel.sales) {
        CombineRows(rel, p);
        forall i | 0 <= i < |q| ensures q[i].key != st.key {
          assert q[i] in q;
          var st' :| st' in p && Kept(st', rel.sales) && q[i] == CombineRow(st', rel);
          var m :| 0 <= m < |p| && p[m] == st';
          assert stock[m] == st';
        }
        var cs := q + [CombineRow(st, rel)];
        forall i, j | 0 <= i < j < |cs| ensures cs[i].key != cs[j].key {
          if j < |q| {
            assert cs[i] == q[i] && cs[j] == q[j];
            assert q[i].key != q[j].key;
          } else {
            assert cs[i] == q[i] && cs[j] == CombineRow(st, rel);
          }
        }
        assert Combine(rel, stock) == cs;
      }
    }
  }

  /** Rows with distinct keys hold no row twice. */
  lemma {:induction false} DistinctRowsOnce(a: seq<QueryRow>)
    requires DistinctRowKeys(a)
    ensures forall x :: multiset(a)[x] <= 1
  {
    if a != [] {
      var p, y := a[..|a| - 1], a[|a| - 1];
      assert a == p + [y];
      assert DistinctRowKeys(p) by {
        forall i, j | 0 <= i < j < |p| ensures p[i].dimensionKey != p[j].dimensionKey {
          assert p[i] == a[i] && p[j] == a[j];
        }
      }
      DistinctRowsOnce(p);
      assert y !in p by {
        forall m | 0 <= m < |p| ensures p[m] != y {
          assert p[m] == a[m];
        }
      }
    }
  }

  /** Two positions of a list count an element twice when they hold the same element. */
  lemma CountTwoPositions(b: seq<QueryRow>, i: nat, j: nat)
    requires i < j < |b|
    ensures multiset(b)[b[j]] >= 1 + (if b[i] == b[j] then 1 else 0)
  {
    assert b == b[..j] + [b[j]] + b[j + 1..];
    assert b[..j][i] == b[i];
  }

  /** Reordering rows keeps their keys distinct. */
  lemma PermutationKeepsKeysDistinct(a: seq<QueryRow>, b: seq<QueryRow>)
    requires multiset(a) == multiset(b) && DistinctRowKeys(a)
    ensures DistinctRowKeys(b)
  {
    DistinctRowsOnce(a);
    forall i, j | 0 <= i < j < |b| ensures b[i].dimensionKey != b[j].dimensionKey {
      CountTwoPositions(b, i, j);
      assert b[i] != b[j];
      assert b[i] in multiset(a) && b[j] in multiset(a);
      var m :| 0 <= m < |a| && a[m] == b[i];
      var n :| 0 <= n < |a| && a[n] == b[j];
      assert m != n;
      if m < n {
        assert a[m].dimensionKey != a[n].dimensionKey;
      } else {
        assert a[n].dimensionKey != a[m].dimensionKey;
      }
    }
  }

  /** With one `stock_agg` row per key, the query returns one row per key, and each key is the
      key of a `stock_agg` row. */
  lemma QueryKeysDistinct(rel: Relations, thresholdRatio: real)
    requires UniqueStockKeys(rel.stock)
    ensures DistinctRowKeys(StagnantStockQuery(rel, thresholdRatio))
    ensures forall q :: q in StagnantStockQuery(rel, thresholdRatio) ==>
      exists st :: st in rel.stock && st.key == q.dimensionKey
  {
    var cs := Combine(rel, rel.stock);
    var all := ClassifyAll(cs, thresholdRatio);
    CombineKeysDistinct(rel, rel.stock);
    assert DistinctRowKeys(all) by {
      forall i, j | 0 <= i < j < |all| ensures all[i].dimensionKey != all[j].dimensionKey {
        assert all[i] == Classify(cs[i], thresholdRatio) && all[j] == Classify(cs[j], thresholdRatio);
      }
    }
    PermutationKeepsKeysDistinct(all, StagnantStockQuery(rel, thresholdRatio));
    CombineRows(rel, rel.stock);
    forall q | q in StagnantStockQuery(rel, thresholdRatio)
      ensures exists st :: st in rel.stock && st.key == q.dimensionKey
    {
      assert q in multiset(all);
      var j :| 0 <= j < |all| && all[j] == q;
      assert cs[j] in cs;
    }
  }
}
