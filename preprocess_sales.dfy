/** The offline aggregation of the monthly retail and inventory files: every accessory row is
    given an operation group and its amount is added under its brand, item tab, month, channel
    group and operation group; the sums are then written out as a dense JSON structure. */
module PreprocessSales {
  import opened Wrappers
  import opened Text
  import opened Numbers
  import Calendar

  // ---------------------------------------------------------------------------------------------
  // Constants

  /** The months whose files are read, in order. */
  const AnalysisMonths: seq<string> := [
    "2024.01", "2024.02", "2024.03", "2024.04", "2024.05", "2024.06",
    "2024.07", "2024.08", "2024.09", "2024.10", "2024.11", "2024.12",
    "2025.01", "2025.02", "2025.03", "2025.04", "2025.05", "2025.06",
    "2025.07", "2025.08", "2025.09", "2025.10"]

  const ValidBrands: set<string> := {"MLB", "MLB KIDS", "DISCOVERY"}

  /** The major category of accessories; every other major category is dropped. */
  const TargetCategory: string := "饰品"

  const ValidItemCategories: set<string> := {"Shoes", "Headwear", "Bag", "Acc_etc"}

  /** The seasons that make a row without an operation basis a core row. */
  const CoreSeasons: seq<string> := ["24FW", "25SS", "25FW", "26SS"]

  /** The tab and channel group that stand for "all". */
  const TotalLabel: string := "전체"

  /** The item tabs of the output: all accessories, then the four item categories. */
  const ItemTabs: seq<string> := [TotalLabel, "Shoes", "Headwear", "Bag", "Acc_etc"]

  // ---------------------------------------------------------------------------------------------
  // Rows and operation groups

  /** A row of a monthly CSV file, with only the columns the script reads: channel, brand,
      major and item category, operation basis, season and amount (the tag amount of a retail
      file, the estimated stock amount of an inventory file). `None` is a missing cell. */
  datatype CsvRow = CsvRow(
    channel: Option<string>,
    brand: Option<string>,
    majorCategory: Option<string>,
    itemCategory: Option<string>,
    opBasis: Option<string>,
    season: Option<string>,
    amount: Option<real>)

  datatype OpGroup = Core | Outlet

  function OpGroupName(g: OpGroup): string {
    match g
    case Core => "core"
    case Outlet => "outlet"
  }

  /** `str(x).strip() if pd.notna(x) else ""`. */
  function CellText(x: Option<string>): string {
    if x.Some? then Strip(x.value) else ""
  }

  /** Whether one of the core seasons from position `k` on occurs in `season`. */
  function HasCoreSeasonFrom(season: string, k: nat): (b: bool)
    requires k <= |CoreSeasons|
    ensures b <==> exists i :: k <= i < |CoreSeasons| && Contains(season, CoreSeasons[i])
    decreases |CoreSeasons| - k
  {
    if k == |CoreSeasons| then false
    else Contains(season, CoreSeasons[k]) || HasCoreSeasonFrom(season, k + 1)
  }

  /** `determine_operation_group`: an INTRO or FOCUS basis is core; an empty basis is core when
      the season names one of the core seasons; everything else is outlet. */
  function DetermineOperationGroup(opBasis: Option<string>, season: Option<string>): (g: OpGroup)
    ensures g == Core <==>
      || CellText(opBasis) == "INTRO" || CellText(opBasis) == "FOCUS"
      || (CellText(opBasis) == "" && exists c, i :: c in CoreSeasons && OccursAt(CellText(season), c, i))
  {
    var op := CellText(opBasis);
    var se := CellText(season);
    if op == "INTRO" || op == "FOCUS" then Core
    else if op == "" && HasCoreSeasonFrom(se, 0) then
      CoreSeasonOccurs(se);
      Core
    else
      CoreSeasonOccurs(se);
      Outlet
  }

  /** The loop over the core seasons finds one exactly when one occurs in the season text. */
  lemma CoreSeasonOccurs(season: string)
    ensures HasCoreSeasonFrom(season, 0) <==> exists c, i :: c in CoreSeasons && OccursAt(season, c, i)
  {
    forall c | c in CoreSeasons ensures Contains(season, c) <==> exists i :: OccursAt(season, c, i) {
      ContainsAt(season, c);
    }
    if HasCoreSeasonFrom(season, 0) {
      var k :| 0 <= k < |CoreSeasons| && Contains(season, CoreSeasons[k]);
      var i :| OccursAt(season, CoreSeasons[k], i);
      assert CoreSeasons[k] in CoreSeasons && OccursAt(season, CoreSeasons[k], i);
    }
  }

  /** The brand and major-category filters every chunk goes through first. */
  predicate PassesChunkFilters(row: CsvRow) {
    row.brand.Some? && row.brand.value in ValidBrands && row.majorCategory == Some(TargetCategory)
  }

  /** The item tabs a row is counted under: all accessories, and its own category when that is
      one of the four. */
  function RowTabs(row: CsvRow): seq<string> {
    if row.itemCategory.Some? && row.itemCategory.value in ValidItemCategories
    then [TotalLabel, row.itemCategory.value]
    else [TotalLabel]
  }

  /** A NaN amount counts as 0. */
  function RowAmount(row: CsvRow): real {
    row.amount.GetOr(0.0)
  }

  /** Python's `s[i:j]` for `0 <= i <= j`: the indices are clipped to the string. */
  function PySlice(s: string, i: nat, j: nat): string
    requires i <= j
  {
    if i >= |s| then "" else if j >= |s| then s[i..] else s[i..j]
  }

  /** `f"{month[:4]}.{month[5:7]}"`. */
  function YearMonth(month: string): string {
    PySlice(month, 0, 4) + "." + PySlice(month, 5, 7)
  }

  /** A month written "YYYY.MM" is its own year-month key. */
  lemma YearMonthOfMonth(month: string)
    requires |month| == 7 && month[4] == '.'
    ensures YearMonth(month) == month
  {
    assert month == month[..4] + "." + month[5..7];
  }

  // ---------------------------------------------------------------------------------------------
  // Aggregation keys and sums

  /** `(brand, item_tab, year_month, channel_group, op_group)`. */
  datatype AggKey = AggKey(brand: string, itemTab: string, month: string, channel: string, opGroup: OpGroup)

  /** The two kinds of file; they differ only in the channel groups a row is counted under. */
  datatype FileKind = Retail | Inventory

  /** The channel groups of an accepted row, in the order the script adds to them; none for a
      channel the kind does not accept. Retail: all and the row's own channel (FRS or OR).
      Inventory: all, then FRS for FRS, or HQ_OR for HQ and for OR. */
  function RowChannels(kind: FileKind, channel: Option<string>): seq<string> {
    match kind
    case Retail =>
      if channel == Some("FRS") || channel == Some("OR") then [TotalLabel, channel.value] else []
    case Inventory =>
      if channel == Some("FRS") then [TotalLabel, "FRS"]
      else if channel == Some("HQ") || channel == Some("OR") then [TotalLabel, "HQ_OR"]
      else []
  }

  /** The keys of one tab, one per channel group. */
  function ChannelKeys(brand: string, tab: string, month: string, channels: seq<string>, g: OpGroup): (r: seq<AggKey>)
    ensures |r| == |channels|
  {
    if channels == [] then []
    else ChannelKeys(brand, tab, month, channels[..|channels| - 1], g) + [AggKey(brand, tab, month, channels[|channels| - 1], g)]
  }

  /** The keys of several tabs, tab by tab. */
  function TabKeys(brand: string, tabs: seq<string>, month: string, channels: seq<string>, g: OpGroup): seq<AggKey> {
    if tabs == [] then []
    else TabKeys(brand, tabs[..|tabs| - 1], month, channels, g) + ChannelKeys(brand, tabs[|tabs| - 1], month, channels, g)
  }

  /** The keys a row of the file of `month` adds its amount to, in order. */
  function RowKeys(kind: FileKind, month: string, row: CsvRow): seq<AggKey> {
    if PassesChunkFilters(row)
    then TabKeys(row.brand.value, RowTabs(row), YearMonth(month), RowChannels(kind, row.channel),
                 DetermineOperationGroup(row.opBasis, row.season))
    else []
  }

  /** `agg_dict.get(key, 0.0)`: a `defaultdict(float)` reads 0 for a key never added to. */
  function Get(agg: map<AggKey, real>, k: AggKey): real {
    if k in agg then agg[k] else 0.0
  }

  /** `agg_dict[key] += amount`. */
  function Inc(agg: map<AggKey, real>, k: AggKey, amount: real): map<AggKey, real> {
    agg[k := Get(agg, k) + amount]
  }

  function AddKeys(agg: map<AggKey, real>, keys: seq<AggKey>, amount: real): map<AggKey, real> {
    if keys == [] then agg else Inc(AddKeys(agg, keys[..|keys| - 1], amount), keys[|keys| - 1], amount)
  }

  /** The rows of one file added into `agg`, in order. */
  function FoldRows(kind: FileKind, agg: map<AggKey, real>, month: string, rows: seq<CsvRow>): map<AggKey, real> {
    if rows == [] then agg
    else
      var row := rows[|rows| - 1];
      AddKeys(FoldRows(kind, agg, month, rows[..|rows| - 1]), RowKeys(kind, month, row), RowAmount(row))
  }

  /** The files of the given months added into `agg`; a month without a file is skipped. */
  function FoldMonths(kind: FileKind, agg: map<AggKey, real>, files: map<string, seq<CsvRow>>, months: seq<string>): map<AggKey, real> {
    if months == [] then agg
    else
      var p := FoldMonths(kind, agg, files, months[..|months| - 1]);
      var month := months[|months| - 1];
      if month in files then FoldRows(kind, p, month, files[month]) else p
  }

  /** The sums `process_retail_data` / `process_inventory_data` return. */
  function Aggregate(kind: FileKind, files: map<string, seq<CsvRow>>): map<AggKey, real> {
    FoldMonths(kind, map[], files, AnalysisMonths)
  }

  /** Number of occurrences of `x` in `s`. */
  function Occ<T(==)>(s: seq<T>, x: T): nat {
    if s == [] then 0 else Occ(s[..|s| - 1], x) + (if s[|s| - 1] == x then 1 else 0)
  }

  /** `a` added `n` times. */
  function Times(n: nat, a: real): real {
    if n == 0 then 0.0 else Times(n - 1, a) + a
  }

  lemma {:induction false} TimesAdd(m: nat, n: nat, a: real)
    ensures Times(m + n, a) == Times(m, a) + Times(n, a)
  {
    if n > 0 {
      TimesAdd(m, n - 1, a);
      assert Times(m + n, a) == Times(m + n - 1, a) + a;
    }
  }

  /** The amount a file's rows contribute to key `k`: each row's amount once per time it lists `k`. */
  function RowsTotal(kind: FileKind, month: string, rows: seq<CsvRow>, k: AggKey): real {
    if rows == [] then 0.0
    else
      var row := rows[|rows| - 1];
      RowsTotal(kind, month, rows[..|rows| - 1], k) + Times(Occ(RowKeys(kind, month, row), k), RowAmount(row))
  }

  function MonthsTotal(kind: FileKind, files: map<string, seq<CsvRow>>, months: seq<string>, k: AggKey): real {
    if months == [] then 0.0
    else
      var month := months[|months| - 1];
      MonthsTotal(kind, files, months[..|months| - 1], k) + (if month in files then RowsTotal(kind, month, files[month], k) else 0.0)
  }

  // ---------------------------------------------------------------------------------------------
  // What the sums hold

  lemma OccAppend<T>(a: seq<T>, b: seq<T>, x: T)
    ensures Occ(a + b, x) == Occ(a, x) + Occ(b, x)
    decreases |b|
  {
    if b == [] {
      assert a + b == a;
    } else {
      assert (a + b)[..|a + b| - 1] == a + b[..|b| - 1];
      assert (a + b)[|a + b| - 1] == b[|b| - 1];
      OccAppend(a, b[..|b| - 1], x);
      var y := if b[|b| - 1] == x then 1 else 0;
      assert Occ(a + b, x) == Occ(a + b[..|b| - 1], x) + y;
      assert Occ(b, x) == Occ(b[..|b| - 1], x) + y;
    }
  }

  lemma OccPair<T>(u: T, v: T, x: T)
    ensures Occ([u, v], x) == (if u == x then 1 else 0) + (if v == x then 1 else 0)
  {
    assert [u, v][..1] == [u];
    assert [u][..0] == [];
    assert Occ([u], x) == Occ([u][..0], x) + (if u == x then 1 else 0);
    assert Occ([u, v], x) == Occ([u], x) + (if v == x then 1 else 0);
  }

  /** A key of one tab occurs once per occurrence of its channel group. */
  lemma {:induction false} ChannelKeysOcc(brand: string, tab: string, month: string, channels: seq<string>, g: OpGroup, k: AggKey)
    ensures Occ(ChannelKeys(brand, tab, month, channels, g), k)
      == if k.brand == brand && k.itemTab == tab && k.month == month && k.opGroup == g then Occ(channels, k.channel) else 0
  {
    if channels != [] {
      var p := channels[..|channels| - 1];
      ChannelKeysOcc(brand, tab, month, p, g, k);
      OccAppend(ChannelKeys(brand, tab, month, p, g), [AggKey(brand, tab, month, channels[|channels| - 1], g)], k);
    }
  }

  /** A key occurs once per pair of an occurrence of its tab and one of its channel group. */
  lemma {:induction false} TabKeysOcc(brand: string, tabs: seq<string>, month: string, channels: seq<string>, g: OpGroup, k: AggKey)
    ensures Occ(TabKeys(brand, tabs, month, channels, g), k)
      == if k.brand == brand && k.month == month && k.opGroup == g then Occ(tabs, k.itemTab) * Occ(channels, k.channel) else 0
  {
    if tabs != [] {
      var p := tabs[..|tabs| - 1];
      var t := tabs[|tabs| - 1];
      TabKeysOcc(brand, p, month, channels, g, k);
      ChannelKeysOcc(brand, t, month, channels, g, k);
      OccAppend(TabKeys(brand, p, month, channels, g), ChannelKeys(brand, t, month, channels, g), k);
      var n := Occ(channels, k.channel);
      var a := Occ(p, k.itemTab);
      if t == k.itemTab {
        assert Occ(tabs, k.itemTab) == a + 1;
        MulSucc(a, n);
      } else {
        assert Occ(tabs, k.itemTab) == a;
      }
    }
  }

  lemma MulSucc(a: nat, n: nat)
    ensures (a + 1) * n == a * n + n
  {
  }

  /** How often a row lists a key: once per matching tab and channel group when the row passes
      the filters and the key has its brand, month and operation group; never otherwise. */
  lemma RowKeysOcc(kind: FileKind, month: string, row: CsvRow, k: AggKey)
    ensures Occ(RowKeys(kind, month, row), k)
      == if PassesChunkFilters(row) && k.brand == row.brand.value && k.month == YearMonth(month)
            && k.opGroup == DetermineOperationGroup(row.opBasis, row.season)
         then Occ(RowTabs(row), k.itemTab) * Occ(RowChannels(kind, row.channel), k.channel)
         else 0
  {
    if PassesChunkFilters(row) {
      TabKeysOcc(row.brand.value, RowTabs(row), YearMonth(month), RowChannels(kind, row.channel),
                 DetermineOperationGroup(row.opBasis, row.season), k);
    }
  }

  /** Adding an amount under a list of keys adds it to each key once per occurrence. */
  lemma {:induction false} AddKeysGet(agg: map<AggKey, real>, keys: seq<AggKey>, amount: real, k: AggKey)
    ensures Get(AddKeys(agg, keys, amount), k) == Get(agg, k) + Times(Occ(keys, k), amount)
  {
    if keys != [] {
      var p := keys[..|keys| - 1];
      AddKeysGet(agg, p, amount, k);
      var before := AddKeys(agg, p, amount);
      assert AddKeys(agg, keys, amount) == Inc(before, keys[|keys| - 1], amount);
      assert Occ(keys, k) == Occ(p, k) + (if keys[|keys| - 1] == k then 1 else 0);
      if keys[|keys| - 1] == k {
        assert Get(Inc(before, k, amount), k) == Get(before, k) + amount;
      } else {
        assert Get(Inc(before, keys[|keys| - 1], amount), k) == Get(before, k);
      }
    }
  }

  lemma {:induction false} FoldRowsGet(kind: FileKind, agg: map<AggKey, real>, month: string, rows: seq<CsvRow>, k: AggKey)
    ensures Get(FoldRows(kind, agg, month, rows), k) == Get(agg, k) + RowsTotal(kind, month, rows, k)
  {
    if rows != [] {
      var row := rows[|rows| - 1];
      var p := rows[..|rows| - 1];
      var before := FoldRows(kind, agg, month, p);
      var keys := RowKeys(kind, month, row);
      FoldRowsGet(kind, agg, month, p, k);
      AddKeysGet(before, keys, RowAmount(row), k);
      assert FoldRows(kind, agg, month, rows) == AddKeys(before, keys, RowAmount(row));
      assert RowsTotal(kind, month, rows, k) == RowsTotal(kind, month, p, k) + Times(Occ(keys, k), RowAmount(row));
    }
  }

  lemma {:induction false} FoldMonthsGet(kind: FileKind, agg: map<AggKey, real>, files: map<string, seq<CsvRow>>, months: seq<string>, k: AggKey)
    ensures Get(FoldMonths(kind, agg, files, months), k) == Get(agg, k) + MonthsTotal(kind, files, months, k)
  {
    if months != [] {
      var p := months[..|months| - 1];
      FoldMonthsGet(kind, agg, files, p, k);
      var month := months[|months| - 1];
      if month in files {
        FoldRowsGet(kind, FoldMonths(kind, agg, files, p), month, files[month], k);
      }
    }
  }

  /** Every sum is the total of the amounts the rows of the read files contribute to its key,
      starting from 0. */
  lemma AggregateGet(kind: FileKind, files: map<string, seq<CsvRow>>, k: AggKey)
    ensures Get(Aggregate(kind, files), k) == MonthsTotal(kind, files, AnalysisMonths, k)
  {
    FoldMonthsGet(kind, map[], files, AnalysisMonths, k);
  }

  /** A row whose channel the kind does not accept, or that fails the brand or major-category
      filter, contributes to no key. */
  lemma IgnoredRow(kind: FileKind, month: string, row: CsvRow, k: AggKey)
    requires !PassesChunkFilters(row) || RowChannels(kind, row.channel) == []
    ensures Occ(RowKeys(kind, month, row), k) == 0
  {
    RowKeysOcc(kind, month, row, k);
  }

  /** A row whose item category is missing or not one of the four is counted only under the
      all-accessories tab. */
  lemma InvalidCategoryOnlyTotal(kind: FileKind, month: string, row: CsvRow, k: AggKey)
    requires row.itemCategory.None? || row.itemCategory.value !in ValidItemCategories
    requires k.itemTab != TotalLabel
    ensures Occ(RowKeys(kind, month, row), k) == 0
  {
    RowKeysOcc(kind, month, row, k);
  }

  /** An accepted row with a valid category is counted, for each of its channel groups, once
      under the all-accessories tab and once under its category. */
  lemma ValidCategoryBothTabs(kind: FileKind, month: string, row: CsvRow, channel: string)
    requires PassesChunkFilters(row) && row.itemCategory.Some? && row.itemCategory.value in ValidItemCategories
    ensures var og := DetermineOperationGroup(row.opBasis, row.season);
      var n := Occ(RowChannels(kind, row.channel), channel);
      && Occ(RowKeys(kind, month, row), AggKey(row.brand.value, TotalLabel, YearMonth(month), channel, og)) == n
      && Occ(RowKeys(kind, month, row), AggKey(row.brand.value, row.itemCategory.value, YearMonth(month), channel, og)) == n
  {
    var og := DetermineOperationGroup(row.opBasis, row.season);
    RowKeysOcc(kind, month, row, AggKey(row.brand.value, TotalLabel, YearMonth(month), channel, og));
    RowKeysOcc(kind, month, row, AggKey(row.brand.value, row.itemCategory.value, YearMonth(month), channel, og));
    var c := row.itemCategory.value;
    assert c != TotalLabel;
    OccPair(TotalLabel, c, TotalLabel);
    OccPair(TotalLabel, c, c);
  }

  /** The channel group other than FRS that the all-channels sum splits into. */
  function OtherChannel(kind: FileKind): string {
    match kind
    case Retail => "OR"
    case Inventory => "HQ_OR"
  }

  /** Each row lists the all-channels key exactly as often as the FRS key and the other key together. */
  lemma RowChannelSplit(kind: FileKind, month: string, row: CsvRow, brand: string, tab: string, ym: string, g: OpGroup)
    ensures Occ(RowKeys(kind, month, row), AggKey(brand, tab, ym, TotalLabel, g))
      == Occ(RowKeys(kind, month, row), AggKey(brand, tab, ym, "FRS", g)) + Occ(RowKeys(kind, month, row), AggKey(brand, tab, ym, OtherChannel(kind), g))
  {
    RowKeysOcc(kind, month, row, AggKey(brand, tab, ym, TotalLabel, g));
    RowKeysOcc(kind, month, row, AggKey(brand, tab, ym, "FRS", g));
    RowKeysOcc(kind, month, row, AggKey(brand, tab, ym, OtherChannel(kind), g));
    var ch := RowChannels(kind, row.channel);
    if ch != [] {
      OccPair(TotalLabel, ch[1], TotalLabel);
      OccPair(TotalLabel, ch[1], "FRS");
      OccPair(TotalLabel, ch[1], OtherChannel(kind));
    }
  }

  lemma {:induction false} RowsTotalSplit(kind: FileKind, month: string, rows: seq<CsvRow>, brand: string, tab: string, ym: string, g: OpGroup)
    ensures RowsTotal(kind, month, rows, AggKey(brand, tab, ym, TotalLabel, g))
      == RowsTotal(kind, month, rows, AggKey(brand, tab, ym, "FRS", g)) + RowsTotal(kind, month, rows, AggKey(brand, tab, ym, OtherChannel(kind), g))
  {
    if rows != [] {
      var row := rows[|rows| - 1];
      RowsTotalSplit(kind, month, rows[..|rows| - 1], brand, tab, ym, g);
      RowChannelSplit(kind, month, row, brand, tab, ym, g);
      TimesAdd(Occ(RowKeys(kind, month, row), AggKey(brand, tab, ym, "FRS", g)),
               Occ(RowKeys(kind, month, row), AggKey(brand, tab, ym, OtherChannel(kind), g)), RowAmount(row));
    }
  }

  lemma {:induction false} MonthsTotalSplit(kind: FileKind, files: map<string, seq<CsvRow>>, months: seq<string>, brand: string, tab: string, ym: string, g: OpGroup)
    ensures MonthsTotal(kind, files, months, AggKey(brand, tab, ym, TotalLabel, g))
      == MonthsTotal(kind, files, months, AggKey(brand, tab, ym, "FRS", g)) + MonthsTotal(kind, files, months, AggKey(brand, tab, ym, OtherChannel(kind), g))
  {
    if months != [] {
      MonthsTotalSplit(kind, files, months[..|months| - 1], brand, tab, ym, g);
      var month := months[|months| - 1];
      if month in files {
        RowsTotalSplit(kind, month, files[month], brand, tab, ym, g);
      }
    }
  }

  /** The channel identities of the sums: retail 전체 = FRS + OR, inventory 전체 = FRS + HQ_OR,
      for every brand, tab, month and operation group. */
  lemma ChannelTotals(kind: FileKind, files: map<string, seq<CsvRow>>, brand: string, tab: string, ym: string, g: OpGroup)
    ensures var agg := Aggregate(kind, files);
      Get(agg, AggKey(brand, tab, ym, TotalLabel, g)) == Get(agg, AggKey(brand, tab, ym, "FRS", g)) + Get(agg, AggKey(brand, tab, ym, OtherChannel(kind), g))
  {
    AggregateGet(kind, files, AggKey(brand, tab, ym, TotalLabel, g));
    AggregateGet(kind, files, AggKey(brand, tab, ym, "FRS", g));
    AggregateGet(kind, files, AggKey(brand, tab, ym, OtherChannel(kind), g));
    MonthsTotalSplit(kind, files, AnalysisMonths, brand, tab, ym, g);
  }

  // ---------------------------------------------------------------------------------------------
  // The category check

  /** The item categories of a file's filtered rows that are not one of the four
      (`chunk["产品中分类"].dropna()` minus the valid ones). */
  function FileUnexpected(rows: seq<CsvRow>): set<string> {
    set r | r in rows && PassesChunkFilters(r) && r.itemCategory.Some? && r.itemCategory.value !in ValidItemCategories
      :: r.itemCategory.value
  }

  /** The unexpected categories of the files of the given months. */
  function UnexpectedIn(files: map<string, seq<CsvRow>>, months: seq<string>): (u: set<string>)
    ensures forall c :: c in u <==>
      exists m :: m in months && m in files && c in FileUnexpected(files[m])
  {
    if months == [] then {}
    else
      var m := months[|months| - 1];
      var p := months[..|months| - 1];
      var u := UnexpectedIn(files, p) + (if m in files then FileUnexpected(files[m]) else {});
      assert forall x :: x in months <==> x in p || x == m;
      u
  }

  // ---------------------------------------------------------------------------------------------
  // The processing loops

  lemma AddKeysPair(agg: map<AggKey, real>, keys: seq<AggKey>, k1: AggKey, k2: AggKey, amount: real)
    ensures AddKeys(agg, keys + [k1, k2], amount) == Inc(Inc(AddKeys(agg, keys, amount), k1, amount), k2, amount)
  {
    assert (keys + [k1, k2])[..|keys| + 1] == keys + [k1];
    assert (keys + [k1])[..|keys|] == keys;
  }

  lemma TabKeysStep(brand: string, tabs: seq<string>, t: nat, month: string, c1: string, c2: string, g: OpGroup)
    requires t < |tabs|
    ensures TabKeys(brand, tabs[..t + 1], month, [c1, c2], g)
      == TabKeys(brand, tabs[..t], month, [c1, c2], g) + [AggKey(brand, tabs[t], month, c1, g), AggKey(brand, tabs[t], month, c2, g)]
  {
    assert tabs[..t + 1][..t] == tabs[..t];
    assert [c1, c2][..1] == [c1];
    assert [c1][..0] == [];
    assert ChannelKeys(brand, tabs[t], month, [c1], g) == [AggKey(brand, tabs[t], month, c1, g)];
  }

  /** No channel group, no keys. */
  lemma {:induction false} TabKeysNoChannels(brand: string, tabs: seq<string>, month: string, g: OpGroup)
    ensures TabKeys(brand, tabs, month, [], g) == []
  {
    if tabs != [] {
      TabKeysNoChannels(brand, tabs[..|tabs| - 1], month, g);
    }
  }

  /** The aggregation step of one filtered row: its amount (0 for NaN) is added under the
      all-channels key and under its channel group's key, for each of its item tabs; a row with a
      channel the kind does not accept is skipped. */
  method AddRow(agg: map<AggKey, real>, kind: FileKind, month: string, row: CsvRow) returns (r: map<AggKey, real>)
    requires PassesChunkFilters(row)
    ensures r == AddKeys(agg, RowKeys(kind, month, row), RowAmount(row))
  {
    r := agg;
    var brand := row.brand.value;
    var channel := row.channel;
    var og := DetermineOperationGroup(row.opBasis, row.season);
    var amount := if row.amount.Some? then row.amount.value else 0.0;
    var ym := YearMonth(month);
    var accepted := match kind
      case Retail => channel == Some("FRS") || channel == Some("OR")
      case Inventory => channel == Some("FRS") || channel == Some("HQ") || channel == Some("OR");
    if !accepted {
      TabKeysNoChannels(brand, RowTabs(row), ym, og);
      return;
    }
    var tabs := if row.itemCategory.Some? && row.itemCategory.value in ValidItemCategories
      then [TotalLabel, row.itemCategory.value] else [TotalLabel];
    r := AddTabs(agg, kind, brand, tabs, ym, channel, og, amount);
  }

  /** `for item_tab in item_tabs: ...` for a row whose channel is accepted. */
  method AddTabs(agg: map<AggKey, real>, kind: FileKind, brand: string, tabs: seq<string>, ym: string,
                 channel: Option<string>, og: OpGroup, amount: real) returns (r: map<AggKey, real>)
    requires |RowChannels(kind, channel)| == 2
    ensures r == AddKeys(agg, TabKeys(brand, tabs, ym, RowChannels(kind, channel), og), amount)
  {
    r := agg;
    ghost var other := RowChannels(kind, channel)[1];
    assert RowChannels(kind, channel) == [TotalLabel, other];
    for t := 0 to |tabs|
      invariant r == AddKeys(agg, TabKeys(brand, tabs[..t], ym, [TotalLabel, other], og), amount)
    {
      AddTabsStep(agg, brand, tabs, t, ym, other, og, amount);
      r := AddTab(r, kind, brand, tabs[t], ym, channel, og, amount);
    }
    assert tabs[..|tabs|] == tabs;
  }

  /** One more item tab adds its two keys. */
  lemma AddTabsStep(agg: map<AggKey, real>, brand: string, tabs: seq<string>, t: nat, ym: string, other: string, og: OpGroup, amount: real)
    requires t < |tabs|
    ensures AddKeys(agg, TabKeys(brand, tabs[..t + 1], ym, [TotalLabel, other], og), amount)
      == Inc(Inc(AddKeys(agg, TabKeys(brand, tabs[..t], ym, [TotalLabel, other], og), amount),
                 AggKey(brand, tabs[t], ym, TotalLabel, og), amount),
             AggKey(brand, tabs[t], ym, other, og), amount)
  {
    TabKeysStep(brand, tabs, t, ym, TotalLabel, other, og);
    AddKeysPair(agg, TabKeys(brand, tabs[..t], ym, [TotalLabel, other], og),
                AggKey(brand, tabs[t], ym, TotalLabel, og), AggKey(brand, tabs[t], ym, other, og), amount);
  }

  /** The two increments of one item tab: the all-channels key, then the key of the row's
      channel group. */
  method AddTab(agg: map<AggKey, real>, kind: FileKind, brand: string, tab: string, ym: string,
                channel: Option<string>, og: OpGroup, amount: real) returns (r: map<AggKey, real>)
    requires |RowChannels(kind, channel)| == 2
    ensures r == Inc(Inc(agg, AggKey(brand, tab, ym, TotalLabel, og), amount),
                     AggKey(brand, tab, ym, RowChannels(kind, channel)[1], og), amount)
  {
    r := Inc(agg, AggKey(brand, tab, ym, TotalLabel, og), amount);
    match kind {
      case Retail =>
        r := Inc(r, AggKey(brand, tab, ym, channel.value, og), amount);
      case Inventory =>
        if channel == Some("FRS") {
          r := Inc(r, AggKey(brand, tab, ym, "FRS", og), amount);
        }
        if channel == Some("HQ") || channel == Some("OR") {
          r := Inc(r, AggKey(brand, tab, ym, "HQ_OR", og), amount);
        }
    }
  }

  /** The category check of one file: every category of its filtered rows that is not one of
      the four is added to the set. */
  method CollectUnexpected(unexpected: set<string>, rows: seq<CsvRow>) returns (u: set<string>)
    ensures u == unexpected + FileUnexpected(rows)
  {
    u := unexpected;
    var categories := set r | r in rows && PassesChunkFilters(r) && r.itemCategory.Some? :: r.itemCategory.value;
    var remaining := categories;
    while remaining != {}
      invariant remaining <= categories
      invariant u == unexpected + (set c | c in categories - remaining && c !in ValidItemCategories)
      decreases |remaining|
    {
      var c :| c in remaining;
      if c !in ValidItemCategories {
        u := u + {c};
      }
      remaining := remaining - {c};
    }
    assert FileUnexpected(rows) == (set c | c in categories && c !in ValidItemCategories);
  }

  /** The rows of one file added in, one after the other. */
  method AddFileRows(kind: FileKind, start: map<AggKey, real>, month: string, rows: seq<CsvRow>) returns (agg: map<AggKey, real>)
    ensures agg == FoldRows(kind, start, month, rows)
  {
    agg := start;
    for j := 0 to |rows|
      invariant agg == FoldRows(kind, start, month, rows[..j])
    {
      assert rows[..j + 1][..j] == rows[..j];
      var row := rows[j];
      if PassesChunkFilters(row) {
        agg := AddRow(agg, kind, month, row);
      } else {
        assert RowKeys(kind, month, row) == [];
      }
    }
    assert rows[..|rows|] == rows;
  }

  /** One more month adds its file, when there is one, to the sums and to the check. */
  lemma MonthStep(kind: FileKind, files: map<string, seq<CsvRow>>, months: seq<string>, i: nat)
    requires i < |months|
    ensures var m, p := months[i], months[..i];
      && FoldMonths(kind, map[], files, months[..i + 1])
         == (if m in files then FoldRows(kind, FoldMonths(kind, map[], files, p), m, files[m]) else FoldMonths(kind, map[], files, p))
      && UnexpectedIn(files, months[..i + 1])
         == UnexpectedIn(files, p) + (if m in files then FileUnexpected(files[m]) else {})
  {
    assert months[..i + 1][..i] == months[..i];
  }

  /** The loop over the months: every month that has a file is checked and added in. */
  method ProcessMonths(kind: FileKind, files: map<string, seq<CsvRow>>, months: seq<string>) returns (agg: map<AggKey, real>, unexpected: set<string>)
    ensures agg == FoldMonths(kind, map[], files, months)
    ensures unexpected == UnexpectedIn(files, months)
  {
    agg := map[];
    unexpected := {};
    for i := 0 to |months|
      invariant agg == FoldMonths(kind, map[], files, months[..i])
      invariant unexpected == UnexpectedIn(files, months[..i])
    {
      var month := months[i];
      MonthStep(kind, files, months, i);
      if month in files {
        unexpected := CollectUnexpected(unexpected, files[month]);
        agg := AddFileRows(kind, agg, month, files[month]);
      }
    }
    assert months[..|months|] == months;
  }

  /** `process_retail_data` and `process_inventory_data`: every file of the analysis months that
      exists is read row by row, the filtered rows are checked for unexpected categories and
      aggregated. The sums equal the specification fold, and the set holds exactly the
      unexpected categories of the files read. */
  method ProcessMonthlyFiles(kind: FileKind, files: map<string, seq<CsvRow>>) returns (agg: map<AggKey, real>, unexpected: set<string>)
    ensures agg == Aggregate(kind, files)
    ensures unexpected == UnexpectedIn(files, AnalysisMonths)
  {
    agg, unexpected := ProcessMonths(kind, files, AnalysisMonths);
  }
}
