/** The JSON structure the aggregation script writes: for every valid brand, item tab and
    analysis month, one record of rounded sums per channel group and operation group; the
    inventory file also carries the unrounded direct-store sales and the length of each month. */
module PreprocessSalesJson {
  import opened Wrappers
  import opened Numbers
  import opened Text
  import opened PreprocessSales
  import Calendar

  /** The fields of one month, e.g. `"FRS_core"`, by name. */
  type MonthData = map<string, real>

  /** brand → item tab → month → fields. */
  type BrandTable = map<string, map<string, map<string, MonthData>>>

  const OpGroups: seq<OpGroup> := [Core, Outlet]

  /** The channel groups of a sales record. */
  const SalesChannelGroups: seq<string> := [TotalLabel, "FRS", "OR"]

  /** The channel groups of an inventory record, each read from the inventory sums. */
  const InventoryChannelGroups: seq<string> := [TotalLabel, "FRS", "HQ_OR"]

  /** The prefix of the direct-store sales fields of an inventory record. */
  const OrSalesPrefix: string := "OR_sales"

  /** `f"{prefix}_{op_group}"`. */
  function FieldName(prefix: string, g: OpGroup): string {
    prefix + "_" + OpGroupName(g)
  }

  /** The last letter of a field name tells the operation group. */
  lemma FieldNameGroupsDiffer(p: string, q: string, g: OpGroup, h: OpGroup)
    requires g != h
    ensures FieldName(p, g) != FieldName(q, h)
  {
    var f1 := FieldName(p, g);
    var f2 := FieldName(q, h);
    assert f1[|f1| - 1] == (if g == Core then 'e' else 't');
    assert f2[|f2| - 1] == (if h == Core then 'e' else 't');
  }

  /** Within one operation group, the prefix is what precedes the group's name. */
  lemma FieldNamePrefixesDiffer(p: string, q: string, g: OpGroup, h: OpGroup)
    requires p != q
    ensures FieldName(p, g) != FieldName(q, h)
  {
    if g != h {
      FieldNameGroupsDiffer(p, q, g, h);
    } else if |p| == |q| {
      var f1 := FieldName(p, g);
      var f2 := FieldName(q, h);
      assert f1[..|p|] == p && f2[..|q|] == q;
    }
  }

  function FieldNames(prefixes: seq<string>): set<string> {
    set p, g | p in prefixes && g in OpGroups :: FieldName(p, g)
  }

  /** The two fields of a prefix written: they hold their values, the other fields keep theirs. */
  lemma PutBoth(md: MonthData, prefix: string, value: OpGroup -> real)
    ensures var r := md[FieldName(prefix, Core) := value(Core)][FieldName(prefix, Outlet) := value(Outlet)];
      && r.Keys == md.Keys + FieldNames([prefix])
      && (forall g :: g in OpGroups ==> r[FieldName(prefix, g)] == value(g))
      && (forall f :: f in md && f !in FieldNames([prefix]) ==> r[f] == md[f])
  {
    FieldNameGroupsDiffer(prefix, prefix, Core, Outlet);
    assert FieldNames([prefix]) == {FieldName(prefix, Core), FieldName(prefix, Outlet)};
  }

  /** `for op_group in ["core", "outlet"]: month_data[f"{prefix}_{op_group}"] = value(op_group)`. */
  method PutOpGroups(md: MonthData, prefix: string, value: OpGroup -> real) returns (r: MonthData)
    ensures r.Keys == md.Keys + FieldNames([prefix])
    ensures forall g :: g in OpGroups ==> r[FieldName(prefix, g)] == value(g)
    ensures forall f :: f in md && f !in FieldNames([prefix]) ==> r[f] == md[f]
  {
    r := md;
    for j := 0 to |OpGroups|
      invariant j == 0 ==> r == md
      invariant j == 1 ==> r == md[FieldName(prefix, Core) := value(Core)]
      invariant j == 2 ==> r == md[FieldName(prefix, Core) := value(Core)][FieldName(prefix, Outlet) := value(Outlet)]
    {
      var g := OpGroups[j];
      r := r[FieldName(prefix, g) := value(g)];
    }
    PutBoth(md, prefix, value);
  }

  /** `md` holds exactly the fields of the given prefixes, each with its value. */
  predicate FieldsOk(md: MonthData, prefixes: seq<string>, value: (string, OpGroup) -> real) {
    && md.Keys == FieldNames(prefixes)
    && forall p, g :: p in prefixes && g in OpGroups ==> md[FieldName(p, g)] == value(p, g)
  }

  /** The fields of one more prefix are the fields before and that prefix's two. */
  lemma FieldNamesSnoc(prefixes: seq<string>, c: string)
    ensures FieldNames(prefixes + [c]) == FieldNames(prefixes) + FieldNames([c])
  {
    forall f | f in FieldNames(prefixes + [c]) ensures f in FieldNames(prefixes) + FieldNames([c]) {
      var p, g :| p in prefixes + [c] && g in OpGroups && f == FieldName(p, g);
      if p == c {
        assert p in [c];
      } else {
        assert p in prefixes;
      }
    }
    forall f | f in FieldNames(prefixes) + FieldNames([c]) ensures f in FieldNames(prefixes + [c]) {
      if f in FieldNames(prefixes) {
        var p, g :| p in prefixes && g in OpGroups && f == FieldName(p, g);
        assert p in prefixes + [c];
      } else {
        var p, g :| p in [c] && g in OpGroups && f == FieldName(p, g);
        assert p in prefixes + [c];
      }
    }
  }

  /** A field of another prefix is none of the fields of `c`. */
  lemma OtherPrefixField(p: string, g: OpGroup, c: string)
    requires p != c
    ensures FieldName(p, g) !in FieldNames([c])
  {
    forall h | h in OpGroups ensures FieldName(p, g) != FieldName(c, h) {
      FieldNamePrefixesDiffer(p, c, g, h);
    }
  }

  /** Writing the fields of one more prefix keeps the fields written before. */
  lemma FieldsStep(md: MonthData, prefixes: seq<string>, c: string, value: (string, OpGroup) -> real, r: MonthData)
    requires FieldsOk(md, prefixes, value) && c !in prefixes
    requires r.Keys == md.Keys + FieldNames([c])
    requires forall g :: g in OpGroups ==> r[FieldName(c, g)] == value(c, g)
    requires forall f :: f in md && f !in FieldNames([c]) ==> r[f] == md[f]
    ensures FieldsOk(r, prefixes + [c], value)
  {
    FieldNamesSnoc(prefixes, c);
    forall p, g | p in prefixes + [c] && g in OpGroups
      ensures r[FieldName(p, g)] == value(p, g)
    {
      if p != c {
        assert p in prefixes;
        OtherPrefixField(p, g, c);
      }
    }
  }

  /** The fields of one more prefix written into a record. */
  method PutPrefix(md: MonthData, prefixes: seq<string>, c: string, value: (string, OpGroup) -> real) returns (r: MonthData)
    requires FieldsOk(md, prefixes, value) && c !in prefixes
    ensures FieldsOk(r, prefixes + [c], value)
  {
    r := PutOpGroups(md, c, g => value(c, g));
    FieldsStep(md, prefixes, c, value, r);
  }

  /** The values of a sales record: the rounded sum of each key (0 for a key nothing was added to). */
  function SalesValue(agg: map<AggKey, real>, brand: string, tab: string, month: string): (string, OpGroup) -> real {
    (c: string, g: OpGroup) => PyRound(Get(agg, AggKey(brand, tab, month, c, g))) as real
  }

  /** The values of an inventory record: the rounded inventory sums of the channel groups, and
      the direct-store sales sums as they are. */
  function InventoryValue(inv: map<AggKey, real>, sales: map<AggKey, real>, brand: string, tab: string, month: string): (string, OpGroup) -> real {
    (c: string, g: OpGroup) =>
      if c == OrSalesPrefix then Get(sales, AggKey(brand, tab, month, "OR", g))
      else PyRound(Get(inv, AggKey(brand, tab, month, c, g))) as real
  }

  /** The record of one month of the sales file: exactly the six fields of the three channel
      groups and two operation groups. */
  method SalesMonthData(agg: map<AggKey, real>, brand: string, tab: string, month: string) returns (md: MonthData)
    ensures FieldsOk(md, SalesChannelGroups, SalesValue(agg, brand, tab, month))
  {
    var value := SalesValue(agg, brand, tab, month);
    md := map[];
    for i := 0 to |SalesChannelGroups|
      invariant FieldsOk(md, SalesChannelGroups[..i], value)
    {
      var c := SalesChannelGroups[i];
      md := PutPrefix(md, SalesChannelGroups[..i], c, value);
      assert SalesChannelGroups[..i + 1] == SalesChannelGroups[..i] + [c];
    }
    assert SalesChannelGroups[..3] == SalesChannelGroups;
  }

  /** The record of one month of the inventory file: the six inventory fields and the two
      direct-store sales fields. */
  method InventoryMonthData(inv: map<AggKey, real>, sales: map<AggKey, real>, brand: string, tab: string, month: string) returns (md: MonthData)
    ensures FieldsOk(md, InventoryChannelGroups + [OrSalesPrefix], InventoryValue(inv, sales, brand, tab, month))
  {
    var value := InventoryValue(inv, sales, brand, tab, month);
    md := PutPrefix(map[], [], TotalLabel, value);
    md := PutPrefix(md, [TotalLabel], "FRS", value);
    md := PutPrefix(md, [TotalLabel, "FRS"], "HQ_OR", value);
    md := PutPrefix(md, [TotalLabel, "FRS", "HQ_OR"], OrSalesPrefix, value);
    assert [TotalLabel, "FRS", "HQ_OR"] + [OrSalesPrefix] == InventoryChannelGroups + [OrSalesPrefix];
  }

  // ---------------------------------------------------------------------------------------------
  // The nested tables

  /** The sums a table is built from: the sales sums, or the inventory and sales sums. */
  datatype Sums = SalesSums(agg: map<AggKey, real>) | InventorySums(inv: map<AggKey, real>, sales: map<AggKey, real>)

  function RecordPrefixes(s: Sums): seq<string> {
    match s
    case SalesSums(_) => SalesChannelGroups
    case InventorySums(_, _) => InventoryChannelGroups + [OrSalesPrefix]
  }

  function RecordValue(s: Sums, brand: string, tab: string, month: string): (string, OpGroup) -> real {
    match s
    case SalesSums(agg) => SalesValue(agg, brand, tab, month)
    case InventorySums(inv, sales) => InventoryValue(inv, sales, brand, tab, month)
  }

  /** A month table: one record per analysis month, each with its fields. */
  predicate MonthsOk(s: Sums, brand: string, tab: string, months: map<string, MonthData>) {
    && months.Keys == set m | m in AnalysisMonths
    && forall m :: m in months ==> FieldsOk(months[m], RecordPrefixes(s), RecordValue(s, brand, tab, m))
  }

  /** A tab table: one month table per item tab. */
  predicate TabsOk(s: Sums, brand: string, tabs: map<string, map<string, MonthData>>) {
    && tabs.Keys == set t | t in ItemTabs
    && forall t :: t in tabs ==> MonthsOk(s, brand, t, tabs[t])
  }

  /** The `brands` table: one tab table per valid brand. */
  predicate BrandsOk(s: Sums, brands: BrandTable) {
    && brands.Keys == ValidBrands
    && forall b :: b in brands ==> TabsOk(s, b, brands[b])
  }

  method MonthRecord(s: Sums, brand: string, tab: string, month: string) returns (md: MonthData)
    ensures FieldsOk(md, RecordPrefixes(s), RecordValue(s, brand, tab, month))
  {
    match s
    case SalesSums(agg) =>
      md := SalesMonthData(agg, brand, tab, month);
    case InventorySums(inv, sales) =>
      md := InventoryMonthData(inv, sales, brand, tab, month);
  }

  /** `for month in ANALYSIS_MONTHS: ...[month] = month_data`. */
  method MonthTable(s: Sums, brand: string, tab: string) returns (months: map<string, MonthData>)
    ensures MonthsOk(s, brand, tab, months)
  {
    months := map[];
    for i := 0 to |AnalysisMonths|
      invariant months.Keys == set m | m in AnalysisMonths[..i]
      invariant forall m :: m in months ==> FieldsOk(months[m], RecordPrefixes(s), RecordValue(s, brand, tab, m))
    {
      var month := AnalysisMonths[i];
      var md := MonthRecord(s, brand, tab, month);
      assert AnalysisMonths[..i + 1] == AnalysisMonths[..i] + [month];
      months := months[month := md];
    }
    assert AnalysisMonths[..|AnalysisMonths|] == AnalysisMonths;
  }

  /** `for item_tab in ["전체", "Shoes", "Headwear", "Bag", "Acc_etc"]: ...`. */
  method TabTable(s: Sums, brand: string) returns (tabs: map<string, map<string, MonthData>>)
    ensures TabsOk(s, brand, tabs)
  {
    tabs := map[];
    for i := 0 to |ItemTabs|
      invariant tabs.Keys == set t | t in ItemTabs[..i]
      invariant forall t :: t in tabs ==> MonthsOk(s, brand, t, tabs[t])
    {
      var tab := ItemTabs[i];
      var months := MonthTable(s, brand, tab);
      assert ItemTabs[..i + 1] == ItemTabs[..i] + [tab];
      tabs := tabs[tab := months];
    }
    assert ItemTabs[..|ItemTabs|] == ItemTabs;
  }

  /** `for brand in VALID_BRANDS: ...`, in whatever order the set yields its brands. */
  method BrandTableOf(s: Sums) returns (brands: BrandTable)
    ensures BrandsOk(s, brands)
  {
    brands := map[];
    var remaining := ValidBrands;
    while remaining != {}
      invariant remaining <= ValidBrands
      invariant brands.Keys == ValidBrands - remaining
      invariant forall b :: b in brands ==> TabsOk(s, b, brands[b])
      decreases |remaining|
    {
      var brand :| brand in remaining;
      var tabs := TabTable(s, brand);
      brands := brands[brand := tabs];
      remaining := remaining - {brand};
    }
  }

  // ---------------------------------------------------------------------------------------------
  // Month lengths

  /** A month written "YYYY.MM" with a month number from 1 to 12. */
  predicate WellFormedMonth(m: string) {
    && |m| == 7 && m[4] == '.' && AllDigits(m[..4]) && AllDigits(m[5..])
    && 1 <= DigitValue(m[5]) * 10 + DigitValue(m[6]) <= 12
  }

  /** A month written with a 4-digit year, a dot and a 2-digit month number from 1 to 12. */
  lemma WellFormedOf(m: string)
    requires |m| == 7 && m[4] == '.'
    requires IsDigit(m[0]) && IsDigit(m[1]) && IsDigit(m[2]) && IsDigit(m[3]) && IsDigit(m[5]) && IsDigit(m[6])
    requires 1 <= DigitValue(m[5]) * 10 + DigitValue(m[6]) <= 12
    ensures WellFormedMonth(m)
  {
    assert forall i :: 0 <= i < 4 ==> m[..4][i] == m[i];
    assert forall i :: 0 <= i < 2 ==> m[5..][i] == m[5 + i];
  }

  lemma AnalysisMonthsWellFormed()
    ensures forall i :: 0 <= i < |AnalysisMonths| ==> WellFormedMonth(AnalysisMonths[i])
  {
    forall i | 0 <= i < |AnalysisMonths| ensures WellFormedMonth(AnalysisMonths[i]) {
      WellFormedOf(AnalysisMonths[i]);
    }
  }

  /** `int(month[:4])` and `int(month[5:7])` of a well-formed month. */
  lemma MonthNumbers(m: string)
    requires WellFormedMonth(m)
    ensures PyInt(PySlice(m, 0, 4)) == Some(DigitsValue(m[..4]))
    ensures PyInt(PySlice(m, 5, 7)) == Some(DigitValue(m[5]) * 10 + DigitValue(m[6]))
  {
    assert PySlice(m, 5, 7) == m[5..];
    DigitsValueTwo(m[5..]);
  }

  /** The length of a well-formed month. */
  function MonthLength(m: string): int
    requires WellFormedMonth(m)
  {
    Calendar.DaysInMonth(DigitsValue(m[..4]), DigitValue(m[5]) * 10 + DigitValue(m[6]))
  }

  /** `result["daysInMonth"]`: the length of every analysis month, from `calendar.monthrange`. */
  method DaysInMonthTable() returns (days: map<string, int>)
    ensures days.Keys == set m | m in AnalysisMonths
    ensures forall m :: m in days ==> WellFormedMonth(m) && days[m] == MonthLength(m) && 28 <= days[m] <= 31
  {
    days := map[];
    AnalysisMonthsWellFormed();
    for i := 0 to |AnalysisMonths|
      invariant days.Keys == set m | m in AnalysisMonths[..i]
      invariant forall m :: m in days ==> WellFormedMonth(m) && days[m] == MonthLength(m)
    {
      var month := AnalysisMonths[i];
      MonthNumbers(month);
      var year := PyInt(PySlice(month, 0, 4)).value;
      var monthNum := PyInt(PySlice(month, 5, 7)).value;
      assert AnalysisMonths[..i + 1] == AnalysisMonths[..i] + [month];
      days := days[month := Calendar.DaysInMonth(year, monthNum)];
    }
    assert AnalysisMonths[..|AnalysisMonths|] == AnalysisMonths;
  }

  // ---------------------------------------------------------------------------------------------
  // The two output files

  /** `accessory_sales_summary.json`. */
  datatype SalesSummary = SalesSummary(brands: BrandTable, unexpectedCategories: seq<string>, months: seq<string>)

  /** `accessory_inventory_summary.json`. */
  datatype InventorySummary = InventorySummary(
    brands: BrandTable, unexpectedCategories: seq<string>, months: seq<string>, daysInMonth: map<string, int>)

  /** `convert_sales_to_json_structure`: the dense table of rounded sales sums, the unexpected
      categories in increasing order, and the analysis months. */
  method ConvertSales(agg: map<AggKey, real>, unexpected: set<string>) returns (r: SalesSummary)
    ensures BrandsOk(SalesSums(agg), r.brands)
    ensures (forall c :: c in r.unexpectedCategories <==> c in unexpected) && StrictlySorted(r.unexpectedCategories)
    ensures r.months == AnalysisMonths
  {
    var categories := SortedList(unexpected);
    var brands := BrandTableOf(SalesSums(agg));
    r := SalesSummary(brands, categories, AnalysisMonths);
  }

  /** `convert_inventory_to_json_structure`: as for sales, with the inventory fields and the
      length of every month. */
  method ConvertInventory(inv: map<AggKey, real>, sales: map<AggKey, real>, unexpected: set<string>) returns (r: InventorySummary)
    ensures BrandsOk(InventorySums(inv, sales), r.brands)
    ensures (forall c :: c in r.unexpectedCategories <==> c in unexpected) && StrictlySorted(r.unexpectedCategories)
    ensures r.months == AnalysisMonths
    ensures r.daysInMonth.Keys == set m | m in AnalysisMonths
    ensures forall m :: m in r.daysInMonth ==> WellFormedMonth(m) && r.daysInMonth[m] == MonthLength(m)
  {
    var categories := SortedList(unexpected);
    var days := DaysInMonthTable();
    var brands := BrandTableOf(InventorySums(inv, sales));
    r := InventorySummary(brands, categories, AnalysisMonths, days);
  }

  // ---------------------------------------------------------------------------------------------
  // What a reader of the files can rely on

  /** Rounding each part separately moves a sum by at most 1. */
  lemma PyRoundAdditive(a: real, b: real)
    ensures -1 <= PyRound(a + b) - PyRound(a) - PyRound(b) <= 1
  {
    var d := PyRound(a + b) - PyRound(a) - PyRound(b);
    assert -1.5 <= d as real <= 1.5;
  }

  /** Every brand, tab and month of the table has a record, and each field of the record holds
      its value. */
  lemma RecordField(s: Sums, brands: BrandTable, b: string, t: string, m: string, c: string, g: OpGroup)
    requires BrandsOk(s, brands)
    requires b in ValidBrands && t in ItemTabs && m in AnalysisMonths && c in RecordPrefixes(s) && g in OpGroups
    ensures t in brands[b] && m in brands[b][t] && FieldName(c, g) in brands[b][t][m]
    ensures brands[b][t][m][FieldName(c, g)] == RecordValue(s, b, t, m)(c, g)
  {
    assert TabsOk(s, b, brands[b]);
    assert t in brands[b];
    assert MonthsOk(s, b, t, brands[b][t]);
    assert m in brands[b][t];
    assert FieldsOk(brands[b][t][m], RecordPrefixes(s), RecordValue(s, b, t, m));
  }

  /** Three fields holding the rounded values of a total and of its two parts differ by at
      most 1. */
  lemma RoundedSplit(md: MonthData, fTotal: string, fFirst: string, fSecond: string, total: real, first: real, second: real)
    requires fTotal in md && fFirst in md && fSecond in md
    requires total == first + second
    requires md[fTotal] == PyRound(total) as real
    requires md[fFirst] == PyRound(first) as real && md[fSecond] == PyRound(second) as real
    ensures -1.0 <= md[fTotal] - md[fFirst] - md[fSecond] <= 1.0
  {
    PyRoundAdditive(first, second);
    var d := PyRound(first + second) - PyRound(first) - PyRound(second);
    assert md[fTotal] - md[fFirst] - md[fSecond] == d as real;
  }

  /** In the sales file built from the retail files, every `전체` field is the `FRS` field plus
      the `OR` field, up to the rounding of each (at most 1 won). */
  lemma SalesChannelFields(files: map<string, seq<CsvRow>>, brands: BrandTable, b: string, t: string, m: string, g: OpGroup)
    requires BrandsOk(SalesSums(Aggregate(Retail, files)), brands)
    requires b in ValidBrands && t in ItemTabs && m in AnalysisMonths && g in OpGroups
    ensures var md := brands[b][t][m];
      && FieldName(TotalLabel, g) in md && FieldName("FRS", g) in md && FieldName("OR", g) in md
      && -1.0 <= md[FieldName(TotalLabel, g)] - md[FieldName("FRS", g)] - md[FieldName("OR", g)] <= 1.0
  {
    ChannelTotals(Retail, files, b, t, m, g);
    SalesSplitFields(Aggregate(Retail, files), brands, b, t, m, g);
  }

  /** A field of the sales file holds the rounded sales sum of its key. */
  lemma SalesStockField(agg: map<AggKey, real>, brands: BrandTable, b: string, t: string, m: string, c: string, g: OpGroup)
    requires BrandsOk(SalesSums(agg), brands)
    requires b in ValidBrands && t in ItemTabs && m in AnalysisMonths && c in SalesChannelGroups && g in OpGroups
    ensures t in brands[b] && m in brands[b][t] && FieldName(c, g) in brands[b][t][m]
    ensures brands[b][t][m][FieldName(c, g)] == PyRound(Get(agg, AggKey(b, t, m, c, g))) as real
  {
    RecordField(SalesSums(agg), brands, b, t, m, c, g);
  }

  /** The three channel-group fields of a sales record, when the total sum is the sum of the
      two channels' sums. */
  lemma SalesSplitFields(agg: map<AggKey, real>, brands: BrandTable, b: string, t: string, m: string, g: OpGroup)
    requires BrandsOk(SalesSums(agg), brands)
    requires b in ValidBrands && t in ItemTabs && m in AnalysisMonths && g in OpGroups
    requires Get(agg, AggKey(b, t, m, TotalLabel, g)) == Get(agg, AggKey(b, t, m, "FRS", g)) + Get(agg, AggKey(b, t, m, "OR", g))
    ensures var md := brands[b][t][m];
      && FieldName(TotalLabel, g) in md && FieldName("FRS", g) in md && FieldName("OR", g) in md
      && -1.0 <= md[FieldName(TotalLabel, g)] - md[FieldName("FRS", g)] - md[FieldName("OR", g)] <= 1.0
  {
    SalesStockField(agg, brands, b, t, m, TotalLabel, g);
    SalesStockField(agg, brands, b, t, m, "FRS", g);
    SalesStockField(agg, brands, b, t, m, "OR", g);
    var md := brands[b][t][m];
    var total := Get(agg, AggKey(b, t, m, TotalLabel, g));
    var frs := Get(agg, AggKey(b, t, m, "FRS", g));
    var other := Get(agg, AggKey(b, t, m, "OR", g));
    RoundedSplit(md, FieldName(TotalLabel, g), FieldName("FRS", g), FieldName("OR", g), total, frs, other);
  }

  /** A stock field of the inventory file holds the rounded inventory sum of its key. */
  lemma InventoryStockField(inv: map<AggKey, real>, sales: map<AggKey, real>, brands: BrandTable, b: string, t: string, m: string, c: string, g: OpGroup)
    requires BrandsOk(InventorySums(inv, sales), brands)
    requires b in ValidBrands && t in ItemTabs && m in AnalysisMonths && c in InventoryChannelGroups && g in OpGroups
    ensures t in brands[b] && m in brands[b][t] && FieldName(c, g) in brands[b][t][m]
    ensures brands[b][t][m][FieldName(c, g)] == PyRound(Get(inv, AggKey(b, t, m, c, g))) as real
  {
    assert c != OrSalesPrefix;
    RecordField(InventorySums(inv, sales), brands, b, t, m, c, g);
  }

  /** In the inventory file, every `전체` field is the `FRS` field plus the `HQ_OR` field, up to
      the rounding of each. */
  lemma InventoryChannelFields(files: map<string, seq<CsvRow>>, sales: map<AggKey, real>, brands: BrandTable, b: string, t: string, m: string, g: OpGroup)
    requires BrandsOk(InventorySums(Aggregate(Inventory, files), sales), brands)
    requires b in ValidBrands && t in ItemTabs && m in AnalysisMonths && g in OpGroups
    ensures var md := brands[b][t][m];
      && FieldName(TotalLabel, g) in md && FieldName("FRS", g) in md && FieldName("HQ_OR", g) in md
      && -1.0 <= md[FieldName(TotalLabel, g)] - md[FieldName("FRS", g)] - md[FieldName("HQ_OR", g)] <= 1.0
  {
    var inv := Aggregate(Inventory, files);
    var sums := InventorySums(inv, sales);
    InventoryStockField(inv, sales, brands, b, t, m, TotalLabel, g);
    InventoryStockField(inv, sales, brands, b, t, m, "FRS", g);
    InventoryStockField(inv, sales, brands, b, t, m, "HQ_OR", g);
    var md := brands[b][t][m];
    var total := Get(inv, AggKey(b, t, m, TotalLabel, g));
    var frs := Get(inv, AggKey(b, t, m, "FRS", g));
    var other := Get(inv, AggKey(b, t, m, "HQ_OR", g));
    ChannelTotals(Inventory, files, b, t, m, g);
    assert total == frs + other;
    RoundedSplit(md, FieldName(TotalLabel, g), FieldName("FRS", g), FieldName("HQ_OR", g), total, frs, other);
  }
}
