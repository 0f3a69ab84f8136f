/** The entities and constant tables of the stagnant-stock report. Korean labels are the
    values the SQL, the JSON and the UI exchange. */
module StockTypes {
  import opened Wrappers

  /** The key granularity of the analysis. */
  datatype DimensionTab = Style | Color | Size | ColorSize

  function DimensionTabLabel(t: DimensionTab): string {
    match t
    case Style => "스타일"
    case Color => "컬러"
    case Size => "사이즈"
    case ColorSize => "컬러&사이즈"
  }

  /** The four analysis tabs, in the order they are offered. */
  const DimensionTabs: seq<DimensionTab> := [Style, Color, Size, ColorSize]

  /** Reading a tab label back; anything else is not a tab. */
  function ParseDimensionTab(s: string): (r: Option<DimensionTab>)
    ensures r.Some? ==> DimensionTabLabel(r.value) == s
  {
    if s == "스타일" then Some(Style)
    else if s == "컬러" then Some(Color)
    else if s == "사이즈" then Some(Size)
    else if s == "컬러&사이즈" then Some(ColorSize)
    else None
  }

  /** `DimensionTabs` lists every tab exactly once, and every label reads back as its tab. */
  lemma DimensionTabsComplete()
    ensures |DimensionTabs| == 4
    ensures forall t: DimensionTab :: t in DimensionTabs && ParseDimensionTab(DimensionTabLabel(t)) == Some(t)
    ensures forall i, j :: 0 <= i < j < |DimensionTabs| ==> DimensionTabLabel(DimensionTabs[i]) != DimensionTabLabel(DimensionTabs[j])
  {
    forall t: DimensionTab ensures t in DimensionTabs && ParseDimensionTab(DimensionTabLabel(t)) == Some(t) {
      match t
      case Style => assert DimensionTabs[0] == t;
      case Color => assert DimensionTabs[1] == t;
      case Size => assert DimensionTabs[2] == t;
      case ColorSize => assert DimensionTabs[3] == t;
    }
  }

  /** The status column of the classification query. */
  datatype StockStatus = Stagnant | Normal

  function StatusLabel(s: StockStatus): string {
    match s
    case Stagnant => "정체재고"
    case Normal => "정상재고"
  }

  /** The row mapping reads a status string: only the stagnant label is stagnant. */
  function StatusFromLabel(s: string): (r: StockStatus)
    ensures r == Stagnant <==> s == StatusLabel(Stagnant)
  {
    if s == "정체재고" then Stagnant else Normal
  }

  /** The bucket a record is reported under. There is no below-minimum-quantity bucket. */
  datatype SeasonGroup = StagnantStock | CurrentSeason | NextSeason | PastSeason

  function SeasonGroupLabel(g: SeasonGroup): string {
    match g
    case StagnantStock => "정체재고"
    case CurrentSeason => "당시즌"
    case NextSeason => "차기시즌"
    case PastSeason => "과시즌"
  }

  const SeasonGroups: seq<SeasonGroup> := [StagnantStock, CurrentSeason, NextSeason, PastSeason]

  /** `row.SEASON_GROUP` read as a group; any other text is not one. */
  function ParseSeasonGroup(s: string): (r: Option<SeasonGroup>)
    ensures r.Some? ==> SeasonGroupLabel(r.value) == s
    ensures r.None? ==> forall g :: SeasonGroupLabel(g) != s
  {
    if s == "정체재고" then Some(StagnantStock)
    else if s == "당시즌" then Some(CurrentSeason)
    else if s == "차기시즌" then Some(NextSeason)
    else if s == "과시즌" then Some(PastSeason)
    else None
  }

  /** Exactly four groups with distinct labels; the spec-only below-minimum label is none of them. */
  lemma SeasonGroupsComplete()
    ensures |SeasonGroups| == 4
    ensures forall g: SeasonGroup :: g in SeasonGroups && ParseSeasonGroup(SeasonGroupLabel(g)) == Some(g)
    ensures forall i, j :: 0 <= i < j < 4 ==> SeasonGroupLabel(SeasonGroups[i]) != SeasonGroupLabel(SeasonGroups[j])
    ensures ParseSeasonGroup("당월수량미달") == None
  {
    forall g: SeasonGroup ensures g in SeasonGroups && ParseSeasonGroup(SeasonGroupLabel(g)) == Some(g) {
      match g
      case StagnantStock => assert SeasonGroups[0] == g;
      case CurrentSeason => assert SeasonGroups[1] == g;
      case NextSeason => assert SeasonGroups[2] == g;
      case PastSeason => assert SeasonGroups[3] == g;
    }
  }

  /** Product mid-categories; `Total` (전체) is the aggregate pseudo-category of the summaries. */
  datatype MidCategory = Total | Shoes | Headwear | Bag | Etc

  function MidCategoryLabel(c: MidCategory): string {
    match c
    case Total => "전체"
    case Shoes => "신발"
    case Headwear => "모자"
    case Bag => "가방"
    case Etc => "기타"
  }

  /** The summary order: the aggregate first, then the four real categories. */
  const MidCategories: seq<MidCategory> := [Total, Shoes, Headwear, Bag, Etc]

  /** One of the four categories an item can belong to. */
  predicate IsItemCategory(c: MidCategory) {
    c != Total
  }

  /** The SQL filter `mid_category_kr IN ('신발', '모자', '가방', '기타')` together with the
      label it matched; 전체 and every other text are rejected. */
  function ParseItemCategory(s: string): (r: Option<MidCategory>)
    ensures r.Some? ==> IsItemCategory(r.value) && MidCategoryLabel(r.value) == s
    ensures r.None? ==> forall c :: IsItemCategory(c) ==> MidCategoryLabel(c) != s
  {
    if s == "신발" then Some(Shoes)
    else if s == "모자" then Some(Headwear)
    else if s == "가방" then Some(Bag)
    else if s == "기타" then Some(Etc)
    else None
  }

  lemma MidCategoriesOrder()
    ensures |MidCategories| == 5 && MidCategories[0] == Total
    ensures forall c: MidCategory :: c in MidCategories
    ensures forall i, j :: 0 <= i < j < 5 ==> MidCategories[i] != MidCategories[j]
    ensures forall i :: 1 <= i < 5 ==> IsItemCategory(MidCategories[i])
    ensures forall c :: IsItemCategory(c) ==> ParseItemCategory(MidCategoryLabel(c)) == Some(c)
  {
    forall c: MidCategory ensures c in MidCategories {
      match c
      case Total => assert MidCategories[0] == c;
      case Shoes => assert MidCategories[1] == c;
      case Headwear => assert MidCategories[2] == c;
      case Bag => assert MidCategories[3] == c;
      case Etc => assert MidCategories[4] == c;
    }
  }

  /** The item tab of the detail tables and of the season chart: all accessories, or one category. */
  const AccTotalLabel: string := "ACC합계"

  /** Display brand name to the brand code the queries take. */
  const BrandCodeMap: map<string, string> := map["MLB" := "M", "MLB KIDS" := "I", "DISCOVERY" := "X"]

  /** `BRAND_CODE_MAP[brand] || "M"`: an unknown brand falls back to MLB's code. */
  function BrandCode(brand: string): (code: string)
    ensures brand in BrandCodeMap ==> code == BrandCodeMap[brand]
    ensures brand !in BrandCodeMap ==> code == "M"
    ensures code in BrandCodeMap.Values
  {
    assert BrandCodeMap["MLB"] == "M";
    if brand in BrandCodeMap && BrandCodeMap[brand] != "" then BrandCodeMap[brand] else "M"
  }

  lemma BrandCodeTable()
    ensures BrandCode("MLB") == "M" && BrandCode("MLB KIDS") == "I" && BrandCode("DISCOVERY") == "X"
    ensures BrandCodeMap.Keys == {"MLB", "MLB KIDS", "DISCOVERY"}
  {
  }

  /** One classified product unit (`StagnantStockItem`). */
  datatype StagnantStockItem = StagnantStockItem(
    dimensionKey: string,
    prdtCd: string,
    prdtNm: string,
    colorCd: Option<string>,
    sizeCd: Option<string>,
    category: MidCategory,
    season: string,
    stockQty: real,
    stockAmt: real,
    salesTagAmt: real,
    ratio: real,
    status: StockStatus,
    seasonGroup: SeasonGroup)

  /** One row of a summary box. */
  datatype CategorySummary = CategorySummary(
    category: MidCategory,
    stockAmt: real,
    stockAmtPct: real,
    stockQty: real,
    itemCount: nat,
    salesTagAmt: real)

  datatype SummaryBoxData = SummaryBoxData(title: string, categories: seq<CategorySummary>, total: CategorySummary)

  datatype TotalRow = TotalRow(stockQty: real, stockAmt: real, salesTagAmt: real)

  datatype DetailTableData = DetailTableData(title: string, seasonGroup: SeasonGroup, items: seq<StagnantStockItem>, totalRow: TotalRow)

  datatype Meta = Meta(
    targetMonth: string,
    brand: string,
    dimensionTab: DimensionTab,
    thresholdPct: real,
    currentYear: string,
    nextYear: string)

  datatype StagnantStockResponse = StagnantStockResponse(
    availableMonths: seq<string>,
    totalSummary: SummaryBoxData,
    stagnantSummary: SummaryBoxData,
    normalSummary: SummaryBoxData,
    stagnantDetail: DetailTableData,
    currentSeasonDetail: DetailTableData,
    nextSeasonDetail: DetailTableData,
    pastSeasonDetail: DetailTableData,
    meta: Meta)

  /** The columns a detail table can be sorted by (the keys of `StagnantStockItem`). */
  datatype SortKey =
    | KeyDimensionKey | KeyPrdtCd | KeyPrdtNm | KeyColorCd | KeySizeCd | KeyCategory
    | KeySeason | KeyStockQty | KeyStockAmt | KeySalesTagAmt | KeyRatio | KeyStatus | KeySeasonGroup

  datatype SortDirection = Asc | Desc

  datatype SortConfig = SortConfig(key: SortKey, direction: SortDirection)
}
