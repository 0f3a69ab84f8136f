/** The monthly sales table: one cell per row key and month, read from a tab of the sales file. */
module SalesTable {
  import opened Wrappers
  import opened PreprocessSales
  import opened PreprocessSalesJson
  import opened StockWeeksChart

  /** The rows that add the core and the outlet field of a channel group. */
  predicate IsChannelRow(dataKey: string) {
    dataKey == TotalLabel || dataKey == "FRS" || dataKey == "OR"
  }

  /** `getCellValue`: 0 for a month without a record; a channel-group row is the sum of its
      core and outlet fields (`None` standing for the `NaN` a missing field gives); any other
      key reads its field, 0 when it is missing. */
  function GetCellValue(data: TabData, month: string, dataKey: string): (v: Option<real>)
    ensures month !in data ==> v == Some(0.0)
    ensures month in data && IsChannelRow(dataKey) ==>
      var md := data[month];
      (v.Some? <==> FieldName(dataKey, Core) in md && FieldName(dataKey, Outlet) in md)
      && (v.Some? ==> v.value == md[FieldName(dataKey, Core)] + md[FieldName(dataKey, Outlet)])
    ensures month in data && !IsChannelRow(dataKey) ==>
      v == Some(if dataKey in data[month] then data[month][dataKey] else 0.0)
  {
    if month !in data then Some(0.0)
    else
      var md := data[month];
      if IsChannelRow(dataKey) then
        var core, outlet := FieldName(dataKey, Core), FieldName(dataKey, Outlet);
        if core in md && outlet in md then Some(md[core] + md[outlet]) else None
      else Some(if dataKey in md then md[dataKey] else 0.0)
  }

  /** In the sales file every channel-group cell of an analysis month is a number, and the 전체
      row differs from the FRS row plus the OR row by at most 2: the rounding of the two
      operation groups' fields. */
  lemma TotalRowNearChannelRows(files: map<string, seq<CsvRow>>, brands: BrandTable, b: string, t: string, m: string)
    requires BrandsOk(SalesSums(Aggregate(Retail, files)), brands)
    requires b in ValidBrands && t in ItemTabs && m in AnalysisMonths
    ensures b in brands && t in brands[b]
    ensures var data := brands[b][t];
            var total := GetCellValue(data, m, TotalLabel);
            var frs := GetCellValue(data, m, "FRS");
            var or := GetCellValue(data, m, "OR");
      && total.Some? && frs.Some? && or.Some?
      && -2.0 <= total.value - frs.value - or.value <= 2.0
  {
    SalesChannelFields(files, brands, b, t, m, Core);
    SalesChannelFields(files, brands, b, t, m, Outlet);
    assert m in brands[b][t];
  }
}
