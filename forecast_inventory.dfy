/** The offline aggregation of the incoming-stock forecast files: one file per month, named
    "YY.MM"; the accepted amounts are summed per brand, full month and item category. */
module ForecastInventory {
  import opened Wrappers
  import opened Text
  import opened Numbers

  /** The monthly files that are read, in order. */
  const ForecastMonthFiles: seq<string> := ["25.11", "25.12", "26.01", "26.02", "26.03"]

  const ValidBrands: set<string> := {"MLB", "MLB KIDS", "DISCOVERY"}

  const ValidItemCategories: set<string> := {"Shoes", "Headwear", "Bag", "Acc_etc"}

  // ---------------------------------------------------------------------------------------------
  // Month names

  /** `to_full_year_month`: "YY.MM" becomes "YYYY.MM", the years 0 to 49 read as 2000 to 2049 and
      every other year as 1900 + YY. `None` stands for the `ValueError` of a name that does not
      split into two parts around one dot, or whose year is not an integer. */
  function ToFullYearMonth(shortYm: string): Option<string> {
    var parts := Split(shortYm, '.');
    if |parts| != 2 then None
    else
      match PyInt(parts[0])
      case None => None
      case Some(n) =>
        var fullYear := if 0 <= n < 50 then 2000 + n else 1900 + n;
        Some(IntToString(fullYear) + "." + parts[1])
  }

  /** A file name of the form "YY.MM" with digits. */
  predicate ShortMonthOk(s: string) {
    |s| == 5 && s[2] == '.' && AllDigits(s[..2]) && AllDigits(s[3..])
  }

  lemma ForecastFilesWellFormed()
    ensures forall i :: 0 <= i < |ForecastMonthFiles| ==> ShortMonthOk(ForecastMonthFiles[i])
  {
  }

  /** A non-digit does not occur in a string of digits. */
  lemma DigitsFree(s: string, c: char)
    requires AllDigits(s) && !IsDigit(c)
    ensures c !in s
  {
    forall i | 0 <= i < |s| ensures s[i] != c {
      assert IsDigit(s[i]);
    }
  }

  lemma DigitsNoDot(s: string)
    requires AllDigits(s)
    ensures '.' !in s
  {
    DigitsFree(s, '.');
  }

  /** The parts of a well-formed name. */
  lemma ShortMonthParts(s: string)
    requires ShortMonthOk(s)
    ensures Split(s, '.') == [s[..2], s[3..]]
  {
    DigitsNoDot(s[..2]);
    DigitsNoDot(s[3..]);
    assert s == s[..2] + ['.'] + s[3..];
    SplitAt(s[..2], '.', s[3..]);
    SplitNone(s[3..], '.');
  }

  /** A well-formed name keeps its month and puts the century in front of its year:
      "25.11" becomes "2025.11", "99.01" becomes "1999.01". */
  lemma ToFullYearMonthOf(s: string)
    requires ShortMonthOk(s)
    ensures var yy := DigitsValue(s[..2]);
      ToFullYearMonth(s) == Some(NatToString(if yy < 50 then 2000 + yy else 1900 + yy) + "." + s[3..])
  {
    ShortMonthParts(s);
  }

  /** The sort key `(int(m.split(".")[0]), int(m.split(".")[1]))`; `None` where Python raises. */
  function MonthSortKey(m: string): Option<(int, int)> {
    var parts := Split(m, '.');
    if |parts| < 2 then None
    else
      match (PyInt(parts[0]), PyInt(parts[1]))
      case (Some(y), Some(mm)) => Some((y, mm))
      case _ => None
  }

  /** The full name of a well-formed file name has the numeric year and month as its sort key. */
  lemma SortKeyOfFull(s: string)
    requires ShortMonthOk(s)
    ensures ToFullYearMonth(s).Some?
    ensures var yy := DigitsValue(s[..2]);
      MonthSortKey(ToFullYearMonth(s).value) == Some((if yy < 50 then 2000 + yy else 1900 + yy, DigitsValue(s[3..])))
  {
    ToFullYearMonthOf(s);
    var yy := DigitsValue(s[..2]);
    var y := if yy < 50 then 2000 + yy else 1900 + yy;
    var ys := NatToString(y);
    DigitsNoDot(ys);
    DigitsNoDot(s[3..]);
    SplitAt(ys, '.', s[3..]);
    SplitNone(s[3..], '.');
    assert ys + "." + s[3..] == ys + ['.'] + s[3..];
    NatToStringValue(y);
  }

  // ---------------------------------------------------------------------------------------------
  // Amounts

  function Pow10(n: nat): (p: nat)
    ensures p > 0
  {
    if n == 0 then 1 else 10 * Pow10(n - 1)
  }

  function Scale(d: nat, n: nat): real {
    d as real / Pow10(n) as real
  }

  /** Python's `float(s)` for a plain decimal: an optional sign, digits and an optional
      fraction; `None` stands for the `ValueError` of anything else. */
  function PyFloat(s: string): Option<real> {
    var neg := |s| > 0 && s[0] == '-';
    var body := if |s| > 0 && (s[0] == '-' || s[0] == '+') then s[1..] else s;
    var i := IndexOf(body, '.');
    var whole := body[..i];
    var frac := if i < |body| then body[i + 1..] else "";
    if AllDigits(whole) && AllDigits(frac) && |whole| + |frac| > 0 then
      var v := DigitsValue(whole) as real + Scale(DigitsValue(frac), |frac|);
      Some(if neg then -v else v)
    else None
  }

  /** A string of digits reads as its value. */
  lemma PyFloatDigits(s: string)
    requires s != [] && AllDigits(s)
    ensures PyFloat(s) == Some(DigitsValue(s) as real)
  {
    DigitsNoDot(s);
    IndexOfAbsent(s, '.');
    assert s[0] != '-' && s[0] != '+' by { assert IsDigit(s[0]); }
    assert s[..|s|] == s;
  }

  /** `df[COL_AMOUNT].astype(str).str.replace(",", "").astype(float)`: the text without its
      thousands separators, as a number. */
  function ParseAmount(text: string): Option<real> {
    PyFloat(RemoveAll(text, ','))
  }

  lemma {:induction false} RemoveAllAbsent(s: string, c: char)
    requires c !in s
    ensures RemoveAll(s, c) == s
  {
    if s != [] {
      assert c !in s[1..];
      RemoveAllAbsent(s[1..], c);
      assert s == [s[0]] + s[1..];
    }
  }

  lemma {:induction false} RemoveAllAppend(a: string, b: string, c: char)
    ensures RemoveAll(a + b, c) == RemoveAll(a, c) + RemoveAll(b, c)
  {
    if a != [] {
      assert (a + b)[1..] == a[1..] + b;
      RemoveAllAppend(a[1..], b, c);
    } else {
      assert a + b == b;
    }
  }

  /** Digits with a thousands separator between them read as the digits without it:
      "1,234" reads as 1234. */
  lemma ParseAmountGrouped(a: string, b: string)
    requires a != [] && AllDigits(a) && AllDigits(b)
    ensures ParseAmount(a + "," + b) == Some(DigitsValue(a + b) as real)
  {
    DigitsFree(a, ',');
    DigitsFree(b, ',');
    var comma := [','];
    var tail := comma + b;
    assert a + "," + b == a + tail;
    RemoveAllAppend(a, tail, ',');
    RemoveAllAppend(comma, b, ',');
    RemoveAllAbsent(a, ',');
    RemoveAllAbsent(b, ',');
    assert comma[1..] == [];
    assert RemoveAll(comma, ',') == [] + RemoveAll(comma[1..], ',');
    assert RemoveAll(tail, ',') == b;
    assert AllDigits(a + b) by {
      forall i | 0 <= i < |a + b| ensures IsDigit((a + b)[i]) {
        if i < |a| { assert (a + b)[i] == a[i]; } else { assert (a + b)[i] == b[i - |a|]; }
      }
    }
    PyFloatDigits(a + b);
  }

  // ---------------------------------------------------------------------------------------------
  // Rows and their sums

  /** A row of a forecast file: brand, item category and the incoming-stock amount as text;
      `None` is a missing cell. */
  datatype ForecastRow = ForecastRow(brand: Option<string>, item: Option<string>, amount: Option<string>)

  /** The two `isin` filters on the raw cells. */
  predicate PassesFilters(row: ForecastRow) {
    row.brand.Some? && row.brand.value in ValidBrands && row.item.Some? && row.item.value in ValidItemCategories
  }

  /** The amount cell parses (a missing cell does: it counts as 0). */
  predicate AmountParses(row: ForecastRow) {
    row.amount.None? || ParseAmount(row.amount.value).Some?
  }

  function RowAmount(row: ForecastRow): real
    requires AmountParses(row)
  {
    if row.amount.None? then 0.0 else ParseAmount(row.amount.value).value
  }

  /** The rows both filters keep, in order. */
  function Kept(rows: seq<ForecastRow>): (r: seq<ForecastRow>)
    ensures forall x :: x in r ==> x in rows && PassesFilters(x)
    ensures forall x :: x in rows && PassesFilters(x) ==> x in r
  {
    if rows == [] then []
    else Kept(rows[..|rows| - 1]) + (if PassesFilters(rows[|rows| - 1]) then [rows[|rows| - 1]] else [])
  }

  /** The filters keep every passing row as often as it occurs, and no other row. */
  lemma {:induction false} KeptMultiset(rows: seq<ForecastRow>)
    ensures forall x :: multiset(Kept(rows))[x] == if PassesFilters(x) then multiset(rows)[x] else 0
  {
    if rows != [] {
      var p := rows[..|rows| - 1];
      KeptMultiset(p);
      assert rows == p + [rows[|rows| - 1]];
    }
  }

  /** A file contributes when some row passes both filters, every kept amount parses and its
      name converts; otherwise it is skipped (the `continue` and the caught exception). */
  predicate FileUsed(shortYm: string, rows: seq<ForecastRow>) {
    && Kept(rows) != []
    && (forall r :: r in Kept(rows) ==> AmountParses(r))
    && ToFullYearMonth(shortYm).Some?
  }

  /** brand → full month → item category → amount. */
  type BrandData = map<string, map<string, map<string, real>>>

  const InitialBrands: BrandData := map["MLB" := map[], "MLB KIDS" := map[], "DISCOVERY" := map[]]

  /** `month_data[item] = month_data.get(item, 0) + amount` in `brands[brand][ym]`, creating the
      month first; a row whose stripped brand or item is not valid is skipped. */
  function AddAmount(brands: BrandData, ym: string, row: ForecastRow): (r: BrandData)
    requires brands.Keys == ValidBrands && PassesFilters(row) && AmountParses(row)
    ensures r.Keys == ValidBrands
  {
    AddStripped(brands, ym, Strip(row.brand.value), Strip(row.item.value), RowAmount(row))
  }

  /** The amount of a row whose stripped cells are `b` and `item`. */
  function AddStripped(brands: BrandData, ym: string, b: string, item: string, amount: real): (r: BrandData)
    requires brands.Keys == ValidBrands
    ensures r.Keys == ValidBrands
  {
    if b !in ValidBrands || item !in ValidItemCategories then brands
    else PutAmount(brands, b, ym, item, amount)
  }

  /** `amount` added to `brands[b][ym][item]`, the month and the item created when absent. */
  function PutAmount(brands: BrandData, b: string, ym: string, item: string, amount: real): (r: BrandData)
    requires b in brands
    ensures r.Keys == brands.Keys
  {
    var bd := brands[b];
    var md := if ym in bd then bd[ym] else map[];
    var before := if item in md then md[item] else 0.0;
    brands[b := bd[ym := md[item := before + amount]]]
  }

  function FoldRows(brands: BrandData, ym: string, rows: seq<ForecastRow>): (r: BrandData)
    requires brands.Keys == ValidBrands
    requires forall x :: x in rows ==> PassesFilters(x) && AmountParses(x)
    ensures r.Keys == ValidBrands
  {
    if rows == [] then brands
    else AddAmount(FoldRows(brands, ym, rows[..|rows| - 1]), ym, rows[|rows| - 1])
  }

  /** The files of the given names folded in, in order. */
  function FoldFiles(files: map<string, seq<ForecastRow>>, names: seq<string>): (r: BrandData)
    ensures r.Keys == ValidBrands
  {
    if names == [] then InitialBrands
    else
      var p := FoldFiles(files, names[..|names| - 1]);
      var n := names[|names| - 1];
      if n in files && FileUsed(n, files[n]) then FoldRows(p, ToFullYearMonth(n).value, Kept(files[n])) else p
  }

  /** The full months of the files used. */
  function MonthsUsed(files: map<string, seq<ForecastRow>>, names: seq<string>): set<string> {
    set n | n in names && n in files && FileUsed(n, files[n]) :: ToFullYearMonth(n).value
  }

  // ---------------------------------------------------------------------------------------------
  // What the sums hold

  /** `brands[b][m][item]`, 0 where absent. */
  function Cell(brands: BrandData, b: string, m: string, item: string): real {
    if b in brands && m in brands[b] && item in brands[b][m] then brands[b][m][item] else 0.0
  }

  /** The accepted amounts of the rows for one brand and item. */
  function RowsTotal(rows: seq<ForecastRow>, b: string, item: string): real
    requires forall x :: x in rows ==> PassesFilters(x) && AmountParses(x)
  {
    if rows == [] then 0.0
    else
      var row := rows[|rows| - 1];
      assert row in rows && PassesFilters(row) && AmountParses(row);
      RowsTotal(rows[..|rows| - 1], b, item)
        + (if Strip(row.brand.value) == b && Strip(row.item.value) == item then RowAmount(row) else 0.0)
  }

  /** Each cell is what it held before plus the amounts of the rows of its brand and item. */
  lemma {:induction false} FoldRowsCell(brands: BrandData, ym: string, rows: seq<ForecastRow>, b: string, m: string, item: string)
    requires brands.Keys == ValidBrands
    requires forall x :: x in rows ==> PassesFilters(x) && AmountParses(x)
    requires b in ValidBrands && item in ValidItemCategories
    ensures Cell(FoldRows(brands, ym, rows), b, m, item)
      == Cell(brands, b, m, item) + (if m == ym then RowsTotal(rows, b, item) else 0.0)
  {
    if rows != [] {
      var p := rows[..|rows| - 1];
      FoldRowsCell(brands, ym, p, b, m, item);
      AddAmountCell(FoldRows(brands, ym, p), ym, rows[|rows| - 1], b, m, item);
    }
  }

  /** One row adds its amount to the cell of its brand, item and month, and to no other. */
  lemma AddAmountCell(brands: BrandData, ym: string, row: ForecastRow, b: string, m: string, item: string)
    requires brands.Keys == ValidBrands && PassesFilters(row) && AmountParses(row)
    requires b in ValidBrands && item in ValidItemCategories
    ensures Cell(AddAmount(brands, ym, row), b, m, item)
      == Cell(brands, b, m, item)
         + (if m == ym && Strip(row.brand.value) == b && Strip(row.item.value) == item then RowAmount(row) else 0.0)
  {
    var rb, ri := Strip(row.brand.value), Strip(row.item.value);
    if rb in ValidBrands && ri in ValidItemCategories {
      PutAmountCell(brands, rb, ym, ri, RowAmount(row), b, m, item);
    }
  }

  /** Adding to one cell changes that cell by the amount and no other cell. */
  lemma PutAmountCell(brands: BrandData, rb: string, ym: string, ri: string, amount: real, b: string, m: string, item: string)
    requires rb in brands
    ensures Cell(PutAmount(brands, rb, ym, ri, amount), b, m, item)
      == Cell(brands, b, m, item) + (if rb == b && m == ym && ri == item then amount else 0.0)
  {
    var r := PutAmount(brands, rb, ym, ri, amount);
    var bd := brands[rb];
    var md := if ym in bd then bd[ym] else map[];
    var before := if ri in md then md[ri] else 0.0;
    var md' := md[ri := before + amount];
    if rb == b {
      assert r[b] == bd[ym := md'];
      if m == ym {
        assert r[b][m] == md';
      }
    }
  }

  /** Folding one more row of a sequence of rows adds that row. */
  lemma FoldRowsSnoc(brands: BrandData, ym: string, rows: seq<ForecastRow>, j: nat)
    requires brands.Keys == ValidBrands && j < |rows|
    requires forall x :: x in rows ==> PassesFilters(x) && AmountParses(x)
    ensures forall x :: x in rows[..j] ==> PassesFilters(x) && AmountParses(x)
    ensures FoldRows(brands, ym, rows[..j + 1]) == AddAmount(FoldRows(brands, ym, rows[..j]), ym, rows[j])
  {
    assert rows[..j + 1][..j] == rows[..j];
    assert rows[j] in rows;
  }

  /** The month set holds a month exactly when a row of its brand was accepted or it was
      already there. */
  lemma {:induction false} FoldRowsMonths(brands: BrandData, ym: string, rows: seq<ForecastRow>, b: string, m: string)
    requires brands.Keys == ValidBrands
    requires forall x :: x in rows ==> PassesFilters(x) && AmountParses(x)
    requires b in ValidBrands
    ensures m in FoldRows(brands, ym, rows)[b] <==>
      m in brands[b] || (m == ym && exists x :: x in rows && Strip(x.brand.value) == b && Strip(x.item.value) in ValidItemCategories)
  {
    if rows != [] {
      var p := rows[..|rows| - 1];
      FoldRowsMonths(brands, ym, p, b, m);
      var last := rows[|rows| - 1];
      assert forall x :: x in rows <==> x in p || x == last;
      assert last in rows;
      AddStrippedMonths(FoldRows(brands, ym, p), ym, Strip(last.brand.value), Strip(last.item.value), RowAmount(last), b, m);
    }
  }

  /** One row adds its month to its brand when its brand and item are valid. */
  lemma AddStrippedMonths(brands: BrandData, ym: string, rb: string, ri: string, amount: real, b: string, m: string)
    requires brands.Keys == ValidBrands && b in ValidBrands
    ensures m in AddStripped(brands, ym, rb, ri, amount)[b] <==>
      m in brands[b] || (m == ym && rb == b && ri in ValidItemCategories)
  {
    if rb in ValidBrands && ri in ValidItemCategories && rb == b {
      var bd := brands[rb];
      var md := if ym in bd then bd[ym] else map[];
      var before := if ri in md then md[ri] else 0.0;
      assert AddStripped(brands, ym, rb, ri, amount)[b] == bd[ym := md[ri := before + amount]];
    }
  }

  /** The amounts of one brand and item over the files of the given names that are used and
      are named after month `m`. */
  function FilesTotal(files: map<string, seq<ForecastRow>>, names: seq<string>, b: string, m: string, item: string): real {
    if names == [] then 0.0
    else
      var n := names[|names| - 1];
      FilesTotal(files, names[..|names| - 1], b, m, item)
        + (if n in files && FileUsed(n, files[n]) && ToFullYearMonth(n).value == m
           then RowsTotal(Kept(files[n]), b, item) else 0.0)
  }

  /** `brands[b][m][item]` is the sum of the accepted amounts of that brand and item in the
      files of month `m`, starting from 0. */
  lemma {:induction false} FoldFilesCell(files: map<string, seq<ForecastRow>>, names: seq<string>, b: string, m: string, item: string)
    requires b in ValidBrands && item in ValidItemCategories
    ensures Cell(FoldFiles(files, names), b, m, item) == FilesTotal(files, names, b, m, item)
  {
    if names != [] {
      var p := names[..|names| - 1];
      var n := names[|names| - 1];
      FoldFilesCell(files, p, b, m, item);
      if n in files && FileUsed(n, files[n]) {
        FoldRowsCell(FoldFiles(files, p), ToFullYearMonth(n).value, Kept(files[n]), b, m, item);
      }
    } else {
      assert Cell(InitialBrands, b, m, item) == 0.0;
    }
  }

  /** The brands of the result are always the three valid brands. */
  lemma BrandKeys(files: map<string, seq<ForecastRow>>)
    ensures FoldFiles(files, ForecastMonthFiles).Keys == {"MLB", "MLB KIDS", "DISCOVERY"}
  {
  }

  // ---------------------------------------------------------------------------------------------
  // The processing loop

  /** The month order of the output: by numeric year, then numeric month. */
  predicate KeyLe(a: (int, int), b: (int, int)) {
    a.0 < b.0 || (a.0 == b.0 && a.1 <= b.1)
  }

  predicate SortedMonths(r: seq<string>)
    requires forall i :: 0 <= i < |r| ==> MonthSortKey(r[i]).Some?
  {
    forall i, j :: 0 <= i < j < |r| ==> KeyLe(MonthSortKey(r[i]).value, MonthSortKey(r[j]).value)
  }

  /** `m` is a month of `s` whose key is least. */
  predicate IsLeast(m: string, s: set<string>)
    requires forall x :: x in s ==> MonthSortKey(x).Some?
  {
    m in s && forall x :: x in s ==> KeyLe(MonthSortKey(m).value, MonthSortKey(x).value)
  }

  lemma KeyLeTrans(a: (int, int), b: (int, int), c: (int, int))
    requires KeyLe(a, b) && KeyLe(b, c)
    ensures KeyLe(a, c)
  {
  }

  /** Every finite non-empty set of keyed months has one whose key is least. */
  lemma {:induction false} LeastKeyExists(s: set<string>)
    requires s != {} && forall m :: m in s ==> MonthSortKey(m).Some?
    ensures exists m :: IsLeast(m, s)
  {
    var x :| x in s;
    if s == {x} {
      assert IsLeast(x, s);
    } else {
      var rest := s - {x};
      LeastKeyExists(rest);
      var m :| IsLeast(m, rest);
      var kx, km := MonthSortKey(x).value, MonthSortKey(m).value;
      if KeyLe(kx, km) {
        forall y | y in s ensures KeyLe(kx, MonthSortKey(y).value) {
          if y != x {
            KeyLeTrans(kx, km, MonthSortKey(y).value);
          }
        }
        assert IsLeast(x, s);
      } else {
        assert KeyLe(km, kx);
        assert IsLeast(m, s);
      }
    }
  }

  /** The state of the selection sort below: `r` holds, in order and each once, the months of
      `s` already taken, and none of them has a key above one still remaining. */
  ghost predicate SortInvariant(s: set<string>, r: seq<string>, remaining: set<string>)
    requires forall m :: m in s ==> MonthSortKey(m).Some?
  {
    && remaining <= s
    && (forall m :: m in r <==> m in s && m !in remaining)
    && (forall i, j :: 0 <= i < j < |r| ==> r[i] != r[j])
    && (forall i :: 0 <= i < |r| ==> MonthSortKey(r[i]).Some?)
    && SortedMonths(r)
    && (forall i, y :: 0 <= i < |r| && y in remaining ==> KeyLe(MonthSortKey(r[i]).value, MonthSortKey(y).value))
  }

  /** Taking a least remaining month keeps the state. */
  lemma SortStep(s: set<string>, r: seq<string>, remaining: set<string>, m: string)
    requires forall x :: x in s ==> MonthSortKey(x).Some?
    requires SortInvariant(s, r, remaining)
    requires remaining <= s && IsLeast(m, remaining)
    ensures SortInvariant(s, r + [m], remaining - {m})
  {
    var r', rest := r + [m], remaining - {m};
    assert forall i :: 0 <= i < |r| ==> r'[i] == r[i];
    forall i, j | 0 <= i < j < |r'| ensures KeyLe(MonthSortKey(r'[i]).value, MonthSortKey(r'[j]).value) {
      if j == |r| {
        assert r'[j] == m;
      }
    }
  }

  /** `sorted(list(month_set), key=...)`: the months, each once, by year and month. */
  method SortMonths(s: set<string>) returns (r: seq<string>)
    requires forall m :: m in s ==> MonthSortKey(m).Some?
    ensures forall m :: m in r <==> m in s
    ensures forall i, j :: 0 <= i < j < |r| ==> r[i] != r[j]
    ensures forall i :: 0 <= i < |r| ==> MonthSortKey(r[i]).Some?
    ensures SortedMonths(r)
  {
    r := [];
    var remaining := s;
    while remaining != {}
      invariant SortInvariant(s, r, remaining)
      decreases |remaining|
    {
      LeastKeyExists(remaining);
      var m :| IsLeast(m, remaining);
      SortStep(s, r, remaining, m);
      r := r + [m];
      remaining := remaining - {m};
    }
  }

  /** The rows both filters keep. */
  method FilterRows(rows: seq<ForecastRow>) returns (kept: seq<ForecastRow>)
    ensures kept == Kept(rows)
  {
    kept := [];
    for j := 0 to |rows|
      invariant kept == Kept(rows[..j])
    {
      assert rows[..j + 1][..j] == rows[..j];
      if PassesFilters(rows[j]) {
        kept := kept + [rows[j]];
      }
    }
    assert rows[..|rows|] == rows;
  }

  /** One cell of the amount column: 0 when it is empty, its parse otherwise. */
  method ParseCell(row: ForecastRow) returns (v: Option<real>)
    ensures v.Some? <==> AmountParses(row)
    ensures v.Some? ==> v.value == RowAmount(row)
  {
    if row.amount.None? {
      return Some(0.0);
    }
    v := ParseAmount(row.amount.value);
  }

  /** The amount column parsed; `None` when some cell does not parse. */
  method ParseAmounts(kept: seq<ForecastRow>) returns (amounts: Option<seq<real>>)
    ensures amounts.Some? <==> forall r :: r in kept ==> AmountParses(r)
    ensures amounts.Some? ==> |amounts.value| == |kept| && forall j :: 0 <= j < |kept| ==> AmountParses(kept[j]) && amounts.value[j] == RowAmount(kept[j])
  {
    var values: seq<real> := [];
    for j := 0 to |kept|
      invariant |values| == j
      invariant forall i :: 0 <= i < j ==> AmountParses(kept[i]) && values[i] == RowAmount(kept[i])
    {
      var v := ParseCell(kept[j]);
      if v.None? {
        return None;
      }
      values := values + [v.value];
    }
    return Some(values);
  }

  /** `month_data[item] = month_data.get(item, 0) + amount` for one kept row. */
  method AddRow(brands: BrandData, ym: string, row: ForecastRow, amount: real) returns (r: BrandData)
    requires brands.Keys == ValidBrands && row.brand.Some? && row.item.Some?
    ensures r == AddStripped(brands, ym, Strip(row.brand.value), Strip(row.item.value), amount)
  {
    var brandName := Strip(row.brand.value);
    var item := Strip(row.item.value);
    if brandName !in ValidBrands || item !in ValidItemCategories {
      return brands;
    }
    var brandData := brands[brandName];
    if ym !in brandData {
      brandData := brandData[ym := map[]];
    }
    var monthData := brandData[ym];
    monthData := monthData[item := (if item in monthData then monthData[item] else 0.0) + amount];
    UpdateTwice(brands[brandName], ym, map[], monthData);
    brandData := brandData[ym := monthData];
    r := brands[brandName := brandData];
  }

  /** A second update of the same key overrides the first. */
  lemma UpdateTwice<K, V>(m: map<K, V>, k: K, a: V, b: V)
    ensures m[k := a][k := b] == m[k := b]
  {
  }

  /** One file of `process_forecast_data`: skipped when no row passes the filters, when an
      amount does not parse or when its name does not convert; otherwise its month is recorded
      and its kept rows are summed in. */
  method ProcessFile(brands: BrandData, monthSet: set<string>, shortYm: string, rows: seq<ForecastRow>)
    returns (r: BrandData, months: set<string>)
    requires brands.Keys == ValidBrands
    ensures FileUsed(shortYm, rows) ==> r == FoldRows(brands, ToFullYearMonth(shortYm).value, Kept(rows))
    ensures FileUsed(shortYm, rows) ==> months == monthSet + {ToFullYearMonth(shortYm).value}
    ensures !FileUsed(shortYm, rows) ==> r == brands && months == monthSet
  {
    r, months := brands, monthSet;
    var kept := FilterRows(rows);
    if kept == [] {
      return;
    }
    var amounts := ParseAmounts(kept);
    if amounts.None? {
      return;
    }
    var fullYm := ToFullYearMonth(shortYm);
    if fullYm.None? {
      return;
    }
    var ym := fullYm.value;
    months := months + {ym};
    r := SumRows(brands, ym, kept, amounts.value);
  }

  /** `for _, row in df.iterrows(): ...` over the kept rows and their parsed amounts. */
  method SumRows(brands: BrandData, ym: string, kept: seq<ForecastRow>, amounts: seq<real>) returns (r: BrandData)
    requires brands.Keys == ValidBrands && |amounts| == |kept|
    requires forall j :: 0 <= j < |kept| ==> PassesFilters(kept[j]) && AmountParses(kept[j]) && amounts[j] == RowAmount(kept[j])
    ensures forall x :: x in kept ==> PassesFilters(x) && AmountParses(x)
    ensures r == FoldRows(brands, ym, kept)
  {
    r := brands;
    assert forall x :: x in kept ==> PassesFilters(x) && AmountParses(x);
    for j := 0 to |kept|
      invariant forall x :: x in kept[..j] ==> PassesFilters(x) && AmountParses(x)
      invariant r == FoldRows(brands, ym, kept[..j])
    {
      FoldRowsSnoc(brands, ym, kept, j);
      r := AddRow(r, ym, kept[j], amounts[j]);
    }
    assert kept[..|kept|] == kept;
  }

  /** Adding one more name adds its month when its file is used. */
  lemma MonthsUsedSnoc(files: map<string, seq<ForecastRow>>, names: seq<string>, n: string)
    ensures MonthsUsed(files, names + [n])
      == MonthsUsed(files, names) + (if n in files && FileUsed(n, files[n]) then {ToFullYearMonth(n).value} else {})
  {
    assert forall x :: x in names + [n] <==> x in names || x == n;
  }

  /** Every month used has a sort key, since every file name is well formed. */
  lemma MonthsUsedKeys(files: map<string, seq<ForecastRow>>)
    ensures forall m :: m in MonthsUsed(files, ForecastMonthFiles) ==> MonthSortKey(m).Some?
  {
    ForecastFilesWellFormed();
    forall m | m in MonthsUsed(files, ForecastMonthFiles) ensures MonthSortKey(m).Some? {
      var n :| n in ForecastMonthFiles && n in files && FileUsed(n, files[n]) && m == ToFullYearMonth(n).value;
      SortKeyOfFull(n);
    }
  }

  /** `process_forecast_data`: every forecast file that exists is filtered, parsed and summed
      into `brands`; the full months of the files used are listed, each once, by year and month. */
  method ProcessForecastData(files: map<string, seq<ForecastRow>>) returns (brands: BrandData, months: seq<string>)
    ensures brands == FoldFiles(files, ForecastMonthFiles)
    ensures forall m :: m in months <==> m in MonthsUsed(files, ForecastMonthFiles)
    ensures forall i, j :: 0 <= i < j < |months| ==> months[i] != months[j]
    ensures forall i :: 0 <= i < |months| ==> MonthSortKey(months[i]).Some?
    ensures SortedMonths(months)
  {
    var monthSet;
    brands, monthSet := ProcessFiles(files, ForecastMonthFiles);
    MonthsUsedKeys(files);
    months := SortMonths(monthSet);
  }

  /** The loop over the file names `names`, in order: the sums and the set of full months used. */
  method ProcessFiles(files: map<string, seq<ForecastRow>>, names: seq<string>)
    returns (brands: BrandData, monthSet: set<string>)
    ensures brands == FoldFiles(files, names)
    ensures monthSet == MonthsUsed(files, names)
  {
    brands := InitialBrands;
    monthSet := {};
    for i := 0 to |names|
      invariant brands == FoldFiles(files, names[..i])
      invariant monthSet == MonthsUsed(files, names[..i])
    {
      var shortYm := names[i];
      assert names[..i + 1] == names[..i] + [shortYm];
      MonthsUsedSnoc(files, names[..i], shortYm);
      if shortYm in files {
        brands, monthSet := ProcessFile(brands, monthSet, shortYm, files[shortYm]);
      }
    }
    assert names[..|names|] == names;
  }
}
