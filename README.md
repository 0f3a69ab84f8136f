# Accessory stock dashboard — a Dafny model

This project models the calculating core of the merchandising dashboard for accessory stock (MLB, MLB KIDS and DISCOVERY). Every part of it is proved in Dafny. The model covers:

- **The stagnant-stock endpoint.** It joins one month's stock and sales per dimension key (style, colour, size or colour & size). It rates each key's sales against its mid-category's total stock. A key below the threshold ratio is *stagnant* (정체재고). The endpoint then builds:
  - three summary boxes (all stock, stagnant, normal), each broken down by mid-category;
  - four detail tables, one per season group: stagnant, current season, next season and past season.
- **The monthly season-chart endpoint.** It classifies each month of 2024 and 2025 in a different precedence: the season prefix is checked first. It then buckets the stock into a 12-month table.
- **The two offline preprocessing scripts.**
  - One folds the monthly retail and inventory CSV rows into keyed sums (by brand, item tab, month, channel and operation group) and writes a dense JSON table.
  - The other sums the incoming-stock forecast files into a brand → month → item table.
- **The client-side derivations of the dashboard:**
  - weeks of cover per channel (stock-weeks chart);
  - the year-on-year bar chart;
  - the sales-table cells;
  - the detail-table re-filtering, sort toggle, month formatting, check-summary totals and category order of the stagnant-stock analysis page.

One Dafny module per source file, plus small helper modules:

- `Wrappers`: `Option`.
- `Text`: Python's `strip`, `split`, `in`, `sorted` on strings.
- `Numbers`: digit strings, Python's half-even `round`, JavaScript's `Math.round`, `parseInt`.
- `Calendar`: month lengths.
- `Sorting`: descending insertion sort.
- `ItemSums`: filters and sums over items.

## How the model is written

- The SQL of both endpoints is modelled as functions over the two aggregated relations the queries read. SQL `NULL` is `None`.
  - `stock_agg`/`sales_agg` feed the stagnant-stock query.
  - `stock_monthly`/`sales_monthly` feed the season chart.
- The warehouse (run a query, get rows) and the clock (the current year) become parameters of the handlers.
- Amounts are exact `real`s. Python's `round` is half-to-even and JavaScript's `Math.round` is half-up, each written out.
- Imperative code stays imperative:
  - the row loops of the preprocessing scripts;
  - the nested dict building of the JSON conversion;
  - the per-file forecast loop;
  - `transformResults`, which fills a 12-slot `array` in place;
  - the handler's month prefixing;
  - the `forEach` that fills a chart data point;
  - the sort-state updater, a class `SortState` with a mutable `config` field.

  Each such method is proved equal to a specification function, and the source's promises are then proved about that function.
- Where the code and the written design differ, the model follows the code. The design describes three things the code does not have:
  - a "below minimum quantity" (당월수량미달) bucket;
  - a prior-month quantity floor;
  - per-channel stagnant fields.

  Neither endpoint produces any of these, and the season chart's handler never reads the minimum-quantity parameters. The model has exactly four season groups (`StockTypes.SeasonGroupsComplete`).

## Model

| member | source | states |
|---|---|---|
| StockTypes.ParseDimensionTab | src/types/stagnantStock.ts:6 | a label that is read as a dimension tab is that tab's label |
| StockTypes.DimensionTabsComplete | src/types/stagnantStock.ts:115 | `DIMENSION_TABS` holds exactly the four tabs, in order, with distinct labels, each read back as its tab |
| StockTypes.StatusFromLabel | pages/api/stagnant-stock.ts:290 | a row is stagnant exactly when its STATUS column reads 정체재고; any other text means normal |
| StockTypes.ParseSeasonGroup | src/types/stagnantStock.ts:15 | a label reads as the group it names, and as nothing when no group has that label |
| StockTypes.SeasonGroupsComplete | src/types/stagnantStock.ts:15 | there are exactly four season groups with distinct labels, and 당월수량미달 is not one of them |
| StockTypes.ParseItemCategory | src/types/stagnantStock.ts:18 | the four item categories are read back from their labels; no other text is an item category |
| StockTypes.MidCategoriesOrder | src/types/stagnantStock.ts:118 | `MID_CATEGORIES` is 전체 followed by the four item categories, all distinct, covering every category |
| StockTypes.BrandCode | src/components/StagnantStockAnalysis.tsx:466 | a known brand gets its code from the map, any other brand gets "M"; the result is always one of the map's codes |
| StockTypes.BrandCodeTable | src/types/stagnantStock.ts:108-112 | MLB→M, MLB KIDS→I, DISCOVERY→X, and the map has no other brand |
| Wrappers.Coalesce | pages/api/stagnant-stock.ts:145-151 | `COALESCE` is present exactly when one side is, and prefers the first |
| StagnantQuery.SalesMatch | pages/api/stagnant-stock.ts:157 | the joined sales row has the same non-NULL key; there is none when the key is NULL or no sales row has it |
| StagnantQuery.Ratio | pages/api/stagnant-stock.ts:176-179 | the ratio is 0 without a positive category total, and otherwise sales divided by that total |
| StagnantQuery.StagnantStockQuery | pages/api/stagnant-stock.ts:164-186 | the result is ordered by stock amount descending and is a permutation of the classified joined rows |
| StagnantQuery.CombineRows | pages/api/stagnant-stock.ts:156-160 | every joined row comes from a kept `stock_agg` row, and every kept `stock_agg` row produces its joined row |
| StagnantQuery.CombinedRowsFiltered | pages/api/stagnant-stock.ts:158-160 | every joined row has positive stock and one of the four categories, and its denominator is that category's total |
| StagnantQuery.QueryRowsFiltered | pages/api/stagnant-stock.ts:159-160 | every row the query returns has positive stock and one of the four categories |
| StagnantQuery.SalesOnlyKeysDropped | pages/api/stagnant-stock.ts:157-159 | a key found only in `sales_agg` produces no row |
| StagnantQuery.StatusMeaning | pages/api/stagnant-stock.ts:180-184 | the status is stagnant iff the total is positive and the ratio is strictly below the threshold; a zero or missing total gives ratio 0 and normal |
| StagnantQuery.DenominatorScope | pages/api/stagnant-stock.ts:133-140 | the denominator sums every `stock_agg` row of the category, positive or not |
| StagnantQuery.DenominatorWithPositiveStock | pages/api/stagnant-stock.ts:133-140 | when every stock amount of a category is positive, the denominator is exactly the sum of that category's stock |
| StagnantQuery.DenominatorCountsDroppedRows | pages/api/stagnant-stock.ts:159 | worked example: a row with negative stock is filtered out yet still lowers its category's denominator (100 − 40 = 60) |
| StagnantStock.GetSeasonGroup | pages/api/stagnant-stock.ts:46-51 | the group is stagnant iff the status is; otherwise current season for the current-year prefix, next season for the next-year prefix, else past season (including an empty season) |
| StagnantStock.CurrentSeasonStagnantIsStagnant | pages/api/stagnant-stock.ts:47-48 | here status overrides season: a stagnant current-season item is stagnant, a normal one is current season |
| StagnantStock.RowToItem | pages/api/stagnant-stock.ts:289-309 | the item carries the row's amounts, key and season (empty when NULL) and its category label; its status and group follow from getSeasonGroup |
| StagnantStock.QueryItemsInvariant | pages/api/stagnant-stock.ts:285-309 | every item built from the query has positive stock, an item category, and the season group of its status and season |
| StagnantStock.Pct | pages/api/stagnant-stock.ts:210 | the share is 0 when the total is not positive; otherwise share × total = amount × 100, so it is the amount's percentage of the total |
| StagnantStock.PctAdd | pages/api/stagnant-stock.ts:210 | shares of a common total add up |
| StagnantStock.AggregateByCategory | pages/api/stagnant-stock.ts:191-216 | five rows in `MID_CATEGORIES` order; the 전체 row sums all items, every other row sums the items of its category, each row's item count is the number of distinct keys among its items, and every row's share is its amount's `Pct` of the report total |
| StagnantStock.FindCategory | pages/api/stagnant-stock.ts:225 | `find` returns the first row of the category, or none when no row has it |
| StagnantStock.CreateSummaryBox | pages/api/stagnant-stock.ts:219-232 | the box holds the title and the category rows, and its total is the 전체 row |
| StagnantStock.CategoryRowsAddUp | pages/api/stagnant-stock.ts:195-215 | the four category rows add up to the 전체 row in stock, quantity, sales and share |
| StagnantStock.CategoryRowSplit | pages/api/stagnant-stock.ts:315-324 | per category, the stagnant row plus the normal row equals the all-items row (stock, quantity, sales, share) |
| StagnantStock.CategoryCountSplit | pages/api/stagnant-stock.ts:205 | with distinct keys, the stagnant and normal item counts of a category add up to its item count |
| StagnantStock.CreateDetailTable | pages/api/stagnant-stock.ts:235-252 | keeps exactly the items of the group (a permutation of the filtered list), sorted by stock descending, with totals equal to their sums |
| StagnantStock.DetailTotalsOfGroup | pages/api/stagnant-stock.ts:246-250 | the totals row is the sums over the group's items |
| StagnantStock.ReportDetailPartition | pages/api/stagnant-stock.ts:326-329 | the four detail tables together hold every item exactly once |
| StagnantStock.ReportDetailTotals | pages/api/stagnant-stock.ts:322-329 | the four detail totals add up to the totalSummary 전체 row |
| StagnantStock.ReportStatusSplit | pages/api/stagnant-stock.ts:312-324 | for every category, the stagnant and normal boxes add up to the total box in stock, quantity, sales and share |
| StagnantStock.ReportCountSplit | pages/api/stagnant-stock.ts:322-324 | with distinct keys, the stagnant and normal item counts add up to the total box's count, per category |
| StagnantQuery.QueryKeysDistinct | pages/api/stagnant-stock.ts:129-186 | with one `stock_agg` row per key (the `GROUP BY`), the query returns one row per key, each the key of a `stock_agg` row |
| StagnantStock.QueryItemKeysDistinct | pages/api/stagnant-stock.ts:296 | the report's items have distinct dimension keys, unless a NULL key and an empty key both occur (each reads as "") |
| StagnantStock.BuildReportCountSplit | pages/api/stagnant-stock.ts:205 | for every warehouse answer with one `stock_agg` row per key, and not both a NULL and an empty key, the stagnant and normal item counts add up to the total count in every category |
| StagnantStock.StagnantDetailItems | pages/api/stagnant-stock.ts:326 | the stagnant detail table holds exactly the stagnant items |
| StagnantStock.ReportDetailMatchesStatus | pages/api/stagnant-stock.ts:322-329 | the stagnant table's totals equal the stagnant box's total; the three normal tables add up to the normal box's stock |
| StagnantStock.ReportShares | pages/api/stagnant-stock.ts:312-324 | with items of positive stock, the total box's share is 100, and the stagnant and normal shares add to 100 |
| StagnantStock.RequiredParam | pages/api/stagnant-stock.ts:265-270 | a parameter is accepted iff it is a single non-empty string |
| StagnantStock.ResolveDimensionTab | pages/api/stagnant-stock.ts:272 | a missing or empty tab becomes 스타일; a known label gives its tab |
| StagnantStock.Threshold | pages/api/stagnant-stock.ts:273 | a missing, unparsable or zero threshold becomes 0.01; any other number is kept |
| StagnantStock.ThresholdRatio | pages/api/stagnant-stock.ts:274 | the ratio is the percentage divided by 100 |
| StagnantStock.YearSuffix | pages/api/stagnant-stock.ts:36-43 | for a year of two digits or more, the suffix is the two digits of the year modulo 100 |
| StagnantStock.YearSuffixExample | pages/api/stagnant-stock.ts:40-41 | worked example of `YearSuffix`: 2025 gives "25" and 2026 gives "26" |
| StagnantStock.BuildReport | pages/api/stagnant-stock.ts:319-339 | the report keeps the available months and records the request's target month, brand, tab, threshold and the two year suffixes |
| StagnantStock.HandleStagnantStock | pages/api/stagnant-stock.ts:254-346 | non-GET gives 405; a missing brand or target month gives 400 with its message, brand checked first; an unknown dimension tab or a failed query gives 500; otherwise 200 with the built report |
| StagnantStock.RejectionsIgnoreQueries | pages/api/stagnant-stock.ts:258-270 | a 405 or 400 answer does not depend on what the queries would return |
| StagnantStock.DetailItems | pages/api/stagnant-stock.ts:240 | every item of a detail table has positive stock and the status of its group; current- and next-season tables hold only items starting with their year |
| StagnantStock.ReportOfValidItems | pages/api/stagnant-stock.ts:319-339 | a report of valid items is consistent: each table holds its kind of item, and the totals agree with the boxes |
| StagnantStock.StagnantDetailKinds | pages/api/stagnant-stock.ts:326 | the stagnant table holds only stagnant items with positive stock |
| StagnantStock.CurrentDetailKinds | pages/api/stagnant-stock.ts:327 | the current-season table holds only normal items whose season starts with the current year |
| StagnantStock.NextDetailKinds | pages/api/stagnant-stock.ts:328 | the next-season table holds only normal items whose season starts with the next year |
| StagnantStock.PastDetailKinds | pages/api/stagnant-stock.ts:329 | the past-season table holds only normal items |
| StagnantStock.BuildReportValid | pages/api/stagnant-stock.ts:285-339 | every report built from any warehouse answer is consistent |
| StagnantStock.HandlerReport | pages/api/stagnant-stock.ts:319-341 | a 200 answer echoes the request's brand, month, dimension tab and defaulted threshold, and its report is consistent |
| ItemSums.Select | pages/api/stagnant-stock.ts:200 | a filter keeps only items of the input that match |
| ItemSums.SumByGroups | pages/api/stagnant-stock.ts:326-329 | the sum over all items is the sum of the four season groups' sums |
| ItemSums.SumByStatus | pages/api/stagnant-stock.ts:315-316 | the sum over all items is the stagnant sum plus the normal sum |
| ItemSums.CountByStatus | pages/api/stagnant-stock.ts:315-316 | the stagnant and normal lists have as many items together as the whole list |
| ItemSums.SumByCategories | pages/api/stagnant-stock.ts:198-204 | over items of the four categories, the sum is the sum of the four category sums |
| ItemSums.KeyCountDistinct | pages/api/stagnant-stock.ts:205 | with distinct keys, the size of the key set is the number of items |
| ItemSums.GroupsPartition | pages/api/stagnant-stock.ts:240 | the four group filters split the items as a multiset |
| ItemSums.SumPermutation | pages/api/stagnant-stock.ts:245-250 | reordering the items does not change their sums |
| ItemSums.SumPositive | pages/api/stagnant-stock.ts:312 | the stock of items with positive stock sums to a positive amount unless the list is empty |
| Sorting.SortDesc | pages/api/stagnant-stock.ts:245 | the result is sorted by the key descending and is a permutation of the input |
| Sorting.SortDescStable | pages/api/stagnant-stock.ts:245 | the sort is stable: the elements with any one key keep their original order |
| SeasonChart.LastTwoSpec | pages/api/inventory-season-chart.ts:77 | `slice(-2)` is the last two characters (all of a shorter text) |
| SeasonChart.YearShortValue | pages/api/inventory-season-chart.ts:77 | the season prefix of a year is its two digits modulo 100 |
| SeasonChart.NextYearShortValue | pages/api/inventory-season-chart.ts:78 | the next prefix is the prefix plus one, padded to two digits |
| SeasonChart.SeasonPrefixes | pages/api/inventory-season-chart.ts:77-78 | for a four-digit year the prefixes are its last two digits and the next two-digit number ("2024" → "24", "25") |
| SeasonChart.NextYearShortAfter99 | pages/api/inventory-season-chart.ts:78 | `padStart` does not wrap: after "99" comes "100" |
| SeasonChart.MonthlySalesMatch | pages/api/inventory-season-chart.ts:164-165 | the joined sales row has the same month and non-NULL key; there is none when no such row exists |
| SeasonChart.ChartSeasonGroup | pages/api/inventory-season-chart.ts:182-189 | the current prefix gives current season, else the next prefix gives next season; only other rows are stagnant (positive total, ratio below threshold) or else past |
| SeasonChart.PrecedenceDiffers | pages/api/inventory-season-chart.ts:184 | a current-season row with a stagnant ratio is stagnant in the report but current season in the chart |
| SeasonChart.NoStagnationWithoutDenominator | pages/api/inventory-season-chart.ts:187 | a row whose month-category total is zero or missing is never stagnant |
| SeasonChart.SeasonRowsOrigin | pages/api/inventory-season-chart.ts:163-169 | every classified row comes from a kept stock row passing the item filter, and every such stock row is classified |
| SeasonChart.SeasonRowFacts | pages/api/inventory-season-chart.ts:149-200 | a classified row has positive stock, a valid category (the filter's when one is set) and its month-category denominator, and its group follows the CASE |
| SeasonChart.KeptRowHasTotal | pages/api/inventory-season-chart.ts:138-146 | every kept stock row has a month-category total |
| SeasonChart.GroupBySums | pages/api/inventory-season-chart.ts:194-202 | the grouped result rows of each month and group add up to the classified rows' amounts |
| SeasonChart.MonthKeyDigits | pages/api/inventory-season-chart.ts:211-212 | the key of month `i` is `i + 1` padded to two digits |
| SeasonChart.MonthIndexSpec | pages/api/inventory-season-chart.ts:233 | the month lookup finds month `i` exactly for the `i`-th key |
| SeasonChart.AddAmounts | pages/api/inventory-season-chart.ts:235-238 | adds the amounts to one group and to the month totals, leaving the other groups unchanged |
| SeasonChart.ChartOf | pages/api/inventory-season-chart.ts:211-245 | the table has twelve months keyed "01" .. "12" in order |
| SeasonChart.TransformResults | pages/api/inventory-season-chart.ts:207-246 | the array it fills in place equals the table of the rows |
| SeasonChart.AddRow | pages/api/inventory-season-chart.ts:226-240 | one loop step changes the table in place exactly as applying that row does |
| SeasonChart.AddAmountsBalanced | pages/api/inventory-season-chart.ts:235-238 | adding to a group and to the totals keeps the totals equal to the sum of the four groups |
| SeasonChart.ChartBalanced | pages/api/inventory-season-chart.ts:226-240 | in every month the stock and sales totals equal the sums over the four groups |
| SeasonChart.ChartInMonthOrder | pages/api/inventory-season-chart.ts:243-245 | the months are strictly ascending by `parseInt`, so the final sort changes nothing |
| SeasonChart.ChartSums | pages/api/inventory-season-chart.ts:226-240 | each cell holds the sum of the result rows of its month and group; rows with an unknown month or group add nothing, and a missing amount adds 0 |
| SeasonChart.ChartOfQuery | pages/api/inventory-season-chart.ts:194-240 | each cell of a year's table is the sum over the classified rows of its month and group |
| SeasonChart.ItemFilterOf | pages/api/inventory-season-chart.ts:266 | a missing or empty filter becomes ACC합계 (no condition); any other text is kept |
| SeasonChart.PrefixMonths | pages/api/inventory-season-chart.ts:282-283 | the in-place loop puts the year in front of every month and changes nothing else |
| SeasonChart.HandleSeasonChart | pages/api/inventory-season-chart.ts:248-301 | non-GET gives 405; a missing brand gives 400; an unknown dimension tab or a failed query gives 500; otherwise both years' tables and the meta data from the defaulted parameters |
| SeasonChart.YearChartShape | pages/api/inventory-season-chart.ts:282-283 | each answered year has twelve months "YYYY01" .. "YYYY12" in order, each balanced |
| PreprocessSales.DetermineOperationGroup | scripts/preprocess_sales.py:64-89 | core iff the stripped basis is INTRO or FOCUS, or the basis is empty and the stripped season contains 24FW, 25SS, 25FW or 26SS; outlet otherwise |
| PreprocessSales.YearMonthOfMonth | scripts/preprocess_sales.py:152-154 | the rebuilt year-month of a "YYYY.MM" file month is that month |
| PreprocessSales.RowKeysOcc | scripts/preprocess_sales.py:157-179 | how often a row adds to a key: zero unless it passes the filters, otherwise its tab count times its channel count for its brand, month and operation group |
| PreprocessSales.IgnoredRow | scripts/preprocess_sales.py:164-165 | a filtered-out row, or one whose channel is outside FRS/OR (retail) or FRS/HQ/OR (inventory), adds to no key |
| PreprocessSales.InvalidCategoryOnlyTotal | scripts/preprocess_sales.py:167-170 | a row without a valid category adds only under the 전체 tab |
| PreprocessSales.ValidCategoryBothTabs | scripts/preprocess_sales.py:167-170 | a row with a valid category adds once under 전체 and once under its category |
| PreprocessSales.ChannelTotals | scripts/preprocess_sales.py:172-179 | in the sums, 전체 = FRS + OR for retail and 전체 = FRS + HQ_OR for inventory, for every brand, tab, month and group |
| PreprocessSales.AggregateGet | scripts/preprocess_sales.py:104-183 | the sum at a key is the total, over the existing analysis-month files, of each row's contributions |
| PreprocessSales.UnexpectedIn | scripts/preprocess_sales.py:139-143 | a category is reported as unexpected iff some existing file has a filtered row carrying it |
| PreprocessSales.AddRow | scripts/preprocess_sales.py:157-179 | one row's loop adds its amount (0 for NaN) to exactly its keys |
| PreprocessSales.AddTabs | scripts/preprocess_sales.py:172-179 | the tab loop adds the amount to the total and channel keys of every tab |
| PreprocessSales.CollectUnexpected | scripts/preprocess_sales.py:140-143 | the set grows by exactly the file's unexpected categories |
| PreprocessSales.AddFileRows | scripts/preprocess_sales.py:129-179 | the row loop of one file leaves the sums of that file's rows |
| PreprocessSales.ProcessMonths | scripts/preprocess_sales.py:104-183 | the file loop leaves the sums and unexpected categories of the given months |
| PreprocessSales.ProcessMonthlyFiles | scripts/preprocess_sales.py:97-185 | the whole pass returns the sums over the analysis months and their unexpected categories (retail; the inventory pass is the same with its own channels) |
| PreprocessSalesJson.PutOpGroups | scripts/preprocess_sales.py:306-311 | adds the core and outlet fields of one channel group and keeps every other field |
| PreprocessSalesJson.SalesMonthData | scripts/preprocess_sales.py:303-313 | a sales record has exactly the six channel × group fields, each the rounded sum (0 for a missing key) |
| PreprocessSalesJson.InventoryMonthData | scripts/preprocess_sales.py:347-376 | an inventory record has exactly the 전체, FRS and HQ_OR fields, rounded, plus OR_sales copied unrounded |
| PreprocessSalesJson.MonthTable | scripts/preprocess_sales.py:302-313 | one record for every analysis month |
| PreprocessSalesJson.TabTable | scripts/preprocess_sales.py:299-313 | one month table for each of the five item tabs |
| PreprocessSalesJson.BrandTableOf | scripts/preprocess_sales.py:296-313 | one tab table for each valid brand, complete |
| PreprocessSalesJson.AnalysisMonthsWellFormed | scripts/preprocess_sales.py:22-27 | every analysis month is a well-formed "YYYY.MM" |
| PreprocessSalesJson.MonthNumbers | scripts/preprocess_sales.py:336-337 | `int(month[:4])` and `int(month[5:7])` read the year and month digits |
| PreprocessSalesJson.DaysInMonthTable | scripts/preprocess_sales.py:335-338 | one entry per analysis month, holding that month's calendar length |
| PreprocessSalesJson.ConvertSales | scripts/preprocess_sales.py:286-315 | dense brand table of rounded sales; unexpected categories sorted and duplicate-free; months are the analysis months |
| PreprocessSalesJson.ConvertInventory | scripts/preprocess_sales.py:318-378 | dense brand table of inventory records; sorted unexpected categories; the analysis months and their lengths |
| PreprocessSalesJson.RecordField | scripts/preprocess_sales.py:296-313 | every brand × tab × month × channel × group field is present with its value |
| PreprocessSalesJson.SalesStockField | scripts/preprocess_sales.py:307-311 | each stored sales field is `round` of its sum, with 0 for a missing key |
| PreprocessSalesJson.SalesChannelFields | scripts/preprocess_sales.py:305-311 | in the sales file the 전체 field is within 1 of FRS + OR after rounding |
| PreprocessSalesJson.InventoryStockField | scripts/preprocess_sales.py:349-368 | each stored stock field is `round` of its inventory sum |
| PreprocessSalesJson.InventoryChannelFields | scripts/preprocess_sales.py:349-368 | in the inventory file the 전체 field is within 1 of FRS + HQ_OR after rounding |
| ForecastInventory.ForecastFilesWellFormed | scripts/preprocess_forecast_inventory.py:17 | every forecast file name is a well-formed "YY.MM" |
| ForecastInventory.ToFullYearMonthOf | scripts/preprocess_forecast_inventory.py:28-33 | "YY.MM" becomes 2000+YY when YY < 50, else 1900+YY, with MM unchanged |
| ForecastInventory.SortKeyOfFull | scripts/preprocess_forecast_inventory.py:103 | the sort key of a converted month is its numeric (year, month) |
| ForecastInventory.ParseAmountGrouped | scripts/preprocess_forecast_inventory.py:77 | a thousands separator is removed before parsing ("1,234" → 1234) |
| ForecastInventory.PyFloatDigits | scripts/preprocess_forecast_inventory.py:77 | a string of digits parses to its value |
| ForecastInventory.Kept | scripts/preprocess_forecast_inventory.py:66-72 | a row is kept exactly when it has a valid brand and a valid item category |
| ForecastInventory.KeptMultiset | scripts/preprocess_forecast_inventory.py:66-72 | every passing row is kept as often as it occurs, and no other row is kept |
| ForecastInventory.BrandKeys | scripts/preprocess_forecast_inventory.py:38-42 | the result always has exactly MLB, MLB KIDS and DISCOVERY |
| ForecastInventory.FoldRowsCell | scripts/preprocess_forecast_inventory.py:83-96 | summing a file's rows adds each brand and item's accepted amounts to that file's month only |
| ForecastInventory.AddAmountCell | scripts/preprocess_forecast_inventory.py:84-96 | one row adds its amount only to the cell of its stripped brand, item and month |
| ForecastInventory.FoldRowsMonths | scripts/preprocess_forecast_inventory.py:91-93 | a month appears under a brand iff it did before, or the file has an accepted row of that brand |
| ForecastInventory.AddStrippedMonths | scripts/preprocess_forecast_inventory.py:88-93 | a row whose stripped brand or item is invalid creates no month |
| ForecastInventory.FoldFilesCell | scripts/preprocess_forecast_inventory.py:45-96 | each cell is the total of the accepted amounts over the files used, starting from 0 |
| ForecastInventory.SortMonths | scripts/preprocess_forecast_inventory.py:103 | the list holds exactly the set's months, without duplicates, ascending by (year, month) |
| ForecastInventory.FilterRows | scripts/preprocess_forecast_inventory.py:66-74 | the filter loop keeps exactly the rows both filters keep |
| ForecastInventory.ParseCell | scripts/preprocess_forecast_inventory.py:77 | a cell parses iff its separator-free text is a number (a missing cell counts as 0) |
| ForecastInventory.ParseAmounts | scripts/preprocess_forecast_inventory.py:77 | the amounts are parsed iff every kept cell parses, each to its value |
| ForecastInventory.AddRow | scripts/preprocess_forecast_inventory.py:84-96 | one step adds the amount to the cell of the stripped brand and item, if both are valid |
| ForecastInventory.ProcessFile | scripts/preprocess_forecast_inventory.py:46-100 | a used file adds its kept rows and its month; a missing, empty or unparsable file changes nothing |
| ForecastInventory.SumRows | scripts/preprocess_forecast_inventory.py:83-96 | the row loop leaves the sums of the kept rows |
| ForecastInventory.MonthsUsedKeys | scripts/preprocess_forecast_inventory.py:79-80 | every month added to the set has a numeric sort key |
| ForecastInventory.ProcessFiles | scripts/preprocess_forecast_inventory.py:45-100 | the file loop leaves the folded brand table and the set of months of the files used |
| ForecastInventory.ProcessForecastData | scripts/preprocess_forecast_inventory.py:36-108 | the brand table of all files; months are exactly those of used files, duplicate-free and ascending |
| StagnantStockView.ItemsOfTabMembers | src/components/StagnantStockAnalysis.tsx:475 | an item is kept iff it is in the table and has the tab's category |
| StagnantStockView.FilterDetailTableByItem | src/components/StagnantStockAnalysis.tsx:469-489 | ACC합계 returns the table unchanged; any other tab keeps that category's items, with the same title and group and the totals recomputed |
| StagnantStockView.CategoryTab | src/components/StagnantStockAnalysis.tsx:475-482 | a category tab keeps that category's items in their order and sums them |
| StagnantStockView.CategoryTabsAddUp | src/components/StagnantStockAnalysis.tsx:475-482 | when the totals are sums, the four category tabs' counts and totals add up to the unfiltered table's |
| StagnantStockView.NextSortConfig | src/components/StagnantStockAnalysis.tsx:565-570 | the key is the clicked one; the direction is ascending iff the same key was sorted descending |
| StagnantStockView.SortClickCycle | src/components/StagnantStockAnalysis.tsx:568 | clicking the same key flips the direction, and two more clicks return to the same state |
| StagnantStockView.SortState.constructor | src/components/StagnantStockAnalysis.tsx:456-459 | the initial sort is by stock amount, descending |
| StagnantStockView.SortState.HandleSort | src/components/StagnantStockAnalysis.tsx:565-570 | the state update applies the sort toggle |
| StagnantStockView.SortedItems | src/components/StagnantStockAnalysis.tsx:300-305 | a permutation of the items, ordered by the numeric key in the chosen direction |
| StagnantStockView.SortedItemsStable | src/components/StagnantStockAnalysis.tsx:300-305 | items with equal column values keep their order, as the stable `Array.prototype.sort` does |
| StagnantStockView.FormatMonth | src/components/StagnantStockAnalysis.tsx:573-576 | a six-character month gains a dot after the year; any other text is unchanged |
| StagnantStockView.GetDaysInMonth | src/components/StagnantStockAnalysis.tsx:244-249 | 30 when the length is not 6; a calendar length otherwise |
| StagnantStockView.GetDaysInMonthCalendar | src/components/StagnantStockAnalysis.tsx:246-248 | for a digit string "YYYYMM" it is the length of that month in the calendar |
| StagnantStockView.CalcStockWeeks | src/components/StagnantStockAnalysis.tsx:252-258 | 판매0 iff there are no sales (or a negative day count); otherwise the rounded stock over weekly sales |
| StagnantStockView.CalcStockWeeksOfMonth | src/components/StagnantStockAnalysis.tsx:273 | with sales, a target month gives a number of weeks, never negative for non-negative stock |
| StagnantStockView.DetailWeeksMatchChart | src/components/StagnantStockAnalysis.tsx:252-256 | the detail table's weeks are the chart's weeks rounded to an integer |
| StagnantStockView.SortedCategoriesSpec | src/components/StagnantStockAnalysis.tsx:69-72 | the box shows each present category once, first-found row, in 전체, 신발, 모자, 가방, 기타 order, and drops absent ones |
| StagnantStockView.SummaryBoxOrderKept | src/components/StagnantStockAnalysis.tsx:69-72 | the boxes the endpoint builds are already in display order |
| StagnantStockView.SalesRatio | src/components/StagnantStockAnalysis.tsx:146 | sales / stock × 100 when stock is positive, else 0 |
| StagnantStockView.CheckSummaryOf | src/components/StagnantStockAnalysis.tsx:136-149 | one row per item category, in order |
| StagnantStockView.CheckCategoriesAddUp | src/components/StagnantStockAnalysis.tsx:129-149 | the category counts add up to the row count of all four tables, and their sums to the totals |
| StagnantStockView.CheckTotalsOfTables | src/components/StagnantStockAnalysis.tsx:121-133 | the check totals are the sums of the four tables' totals rows |
| StagnantStockView.CheckTotalsMatchReport | src/components/StagnantStockAnalysis.tsx:121-133 | on an endpoint report, the check totals equal the totalSummary 전체 row |
| StagnantStockView.CheckCategoriesMatchReport | src/components/StagnantStockAnalysis.tsx:136-149 | on an endpoint report, each check row's sums equal the total box's row of that category |
| StockWeeksChart.MonthLabels | src/components/StockWeeksChart.tsx:148 | each month label is the month number after "2025." followed by 월 |
| StockWeeksChart.CalculateWeeks | src/components/StockWeeksChart.tsx:83-89 | null iff sales or days are 0; otherwise weeks × weekly sales = inventory |
| StockWeeksChart.Fixed1 | src/components/StockWeeksChart.tsx:160 | rounding to one decimal moves a value by at most 0.05 and keeps it non-negative |
| StockWeeksChart.Fixed1Of | src/components/StockWeeksChart.tsx:160 | null stays null, and a number becomes its `Fixed1` value, within 0.05 of it |
| StockWeeksChart.ChannelStock | src/components/StockWeeksChart.tsx:105-136 | FRS and ALL/other read their own stock; 창고 is HQ_OR minus the retail estimate, clamped at 0 |
| StockWeeksChart.ChannelSales | src/components/StockWeeksChart.tsx:105-136 | FRS reads FRS sales; every other tab reads the 전체 sales |
| StockWeeksChart.GetChannelData | src/components/StockWeeksChart.tsx:92-137 | a missing month gives all zeros; otherwise the channel's stock and sales of both groups |
| StockWeeksChart.WarehouseWithoutDeduction | src/components/StockWeeksChart.tsx:100-103 | with no days, no direct-store sales or stock week 0, the warehouse stock is HQ_OR clamped at 0 |
| StockWeeksChart.RetailStockMonotone | src/components/StockWeeksChart.tsx:100-103 | more direct-store sales give a larger retail estimate |
| StockWeeksChart.WarehouseBounds | src/components/StockWeeksChart.tsx:115-122 | the warehouse stock never exceeds HQ_OR clamped, and falls as direct-store sales rise |
| StockWeeksChart.WeeksPointOf | src/components/StockWeeksChart.tsx:141-162 | the core and the outlet figure are each present iff both records and a day count exist and that group's sales are non-zero; each is then `Fixed1` of that group's stock over its weekly sales |
| StockWeeksChart.SingleItemChartData | src/components/StockWeeksChart.tsx:140-164 | twelve points, one per month of 2025, in order |
| StockWeeksChart.ItemLabelsDistinct | src/components/StockWeeksChart.tsx:50-56 | different item tabs have different labels |
| StockWeeksChart.KeysDistinct | src/components/StockWeeksChart.tsx:181-182 | the core and outlet keys of all tabs are pairwise distinct |
| StockWeeksChart.PutTab | src/components/StockWeeksChart.tsx:176-195 | one tab step sets that tab's core and outlet weeks in the data point |
| StockWeeksChart.PointOfTabs | src/components/StockWeeksChart.tsx:176-196 | the `forEach` leaves the values of every tab visited |
| StockWeeksChart.MonthPoint | src/components/StockWeeksChart.tsx:170-198 | a month's point holds every item tab's weeks |
| StockWeeksChart.PointsOfMonths | src/components/StockWeeksChart.tsx:170-199 | one point per month, in order, each labelled and filled with every tab's weeks |
| StockWeeksChart.AllItemsChartData | src/components/StockWeeksChart.tsx:167-200 | empty unless showAllItems is set and both datasets are present; otherwise twelve points of every tab's weeks |
| StockWeeksChart.PointValuesAt | src/components/StockWeeksChart.tsx:176-196 | every tab's keys are present with that tab's own weeks, never overwritten by another tab |
| StockWeeksChart.AllItemsMatchSingle | src/components/StockWeeksChart.tsx:176-196 | each tab's series in the all-items chart equals that tab's single-item chart |
| StockWeeksChart.NoFiguresAfterAnalysis | src/components/StockWeeksChart.tsx:146-152 | months the inventory file lacks (November, December) have null weeks |
| InventoryChart.ChannelPrefix | src/components/InventoryChart.tsx:71-89 | the channel reads one of the inventory file's channel groups |
| InventoryChart.GetChannelInventory | src/components/InventoryChart.tsx:65-90 | 0 and 0 for a missing month; otherwise the channel's fields (FRS, HQ_OR for 창고, 전체 for the rest; missing is 0) rounded |
| InventoryChart.Yoy | src/components/InventoryChart.tsx:111-112 | present iff both months exist and both totals are positive; then it is the rounded ratio × 100 |
| InventoryChart.ChartRowOf | src/components/InventoryChart.tsx:93-121 | a row holds both years' rounded stock and the ratio rule of its totals |
| InventoryChart.ChartData | src/components/InventoryChart.tsx:92-123 | twelve rows, one per month number, in order |
| InventoryChart.RowLabels | src/components/InventoryChart.tsx:115 | row `i` is labelled `i + 1` followed by 월, without a leading zero |
| InventoryChart.YoyDirection | src/components/InventoryChart.tsx:112 | the ratio is at least 100 when the stock did not fall, at most 100 when it did not rise |
| InventoryChart.NoCurrentYearAfterAnalysis | src/components/InventoryChart.tsx:97-98 | months outside the analysis period have 2025 bars of 0 and no ratio |
| InventoryChart.ChartShowsFileValues | src/components/InventoryChart.tsx:74-87 | the inventory file's whole-number fields are shown unchanged |
| SalesTable.GetCellValue | src/components/SalesTable.tsx:12-27 | 0 for a missing month; a 전체/FRS/OR row is core + outlet (NaN when a field is missing); any other key is its field, 0 when missing |
| SalesTable.TotalRowNearChannelRows | src/components/SalesTable.tsx:16-24 | in the generated sales file the 전체 cell is within 2 of FRS plus OR |
| Calendar.DaysInMonth | scripts/preprocess_sales.py:92-94 | 28–31 days; February has 29 iff the year is a leap year; April, June, September and November have 30 |
| Calendar.JsLastDayIsMonthLength | src/components/StagnantStockAnalysis.tsx:248 | `new Date(y, m, 0).getDate()` is the length of month `m` |
| Numbers.PyRound | scripts/preprocess_sales.py:310 | round to the nearest integer, ties to even |
| Numbers.JsRound | src/components/InventoryChart.tsx:74 | round to the nearest integer, ties up |
| Numbers.PyInt | scripts/preprocess_sales.py:336 | a digit string reads as its value |
| Numbers.JsParseInt | src/components/InventoryChart.tsx:115 | a digit string reads as its value |
| Numbers.TwoDigits | pages/api/inventory-season-chart.ts:212 | `padStart(2, "0")` of a number below 100 is two digits denoting it |
| Numbers.TwoDigitsOfDigits | pages/api/inventory-season-chart.ts:78 | padding the value of a two-digit string gives the string back |
| Text.StripSpec | scripts/preprocess_forecast_inventory.py:84-85 | `strip` removes exactly the leading and trailing whitespace |
| Text.ContainsAt | scripts/preprocess_sales.py:85 | `in` on strings holds iff the pattern occurs at some position |
| Text.ReplaceFirst | src/components/StockWeeksChart.tsx:148 | `replace` changes a leading match and leaves a text without the pattern unchanged |
| Text.RemoveAll | scripts/preprocess_forecast_inventory.py:77 | removing every comma leaves no comma |
| Text.SortedList | scripts/preprocess_sales.py:292 | `sorted(list(set))` holds exactly the set's elements, strictly ascending |
| Text.StrictlySortedUnique | scripts/preprocess_sales.py:292 | only one strictly sorted list has a given set of elements |
| Text.SplitAt | scripts/preprocess_forecast_inventory.py:30 | `split(".")` separates at the first dot |

## Left out

- I/O is not modelled:
  - reading CSV files with pandas in chunks;
  - the existence check on files, modelled as membership in a map from month to rows;
  - `json.dump`;
  - console output.
- The queries are not modelled as SQL text; string interpolation and its injection-safety are out of scope. The stagnant-stock SQL's `GROUP BY`/`SUM` of the raw sale and stock tables into `stock_agg`/`sales_agg` is not modelled either: the model starts from these aggregated relations. Where a proof needs the one row per key that the `GROUP BY` gives, it assumes it as `StagnantQuery.UniqueStockKeys`.
- The Snowflake connection and `runQuery` become function parameters of the handlers. A thrown error is a `None` answer.
- The available-months query is not modelled: its rows pass through unchanged.
- `getYearConfig` reads the clock; the model takes the current year as a parameter.
- Python exceptions in a file are modelled as that file being skipped. In the forecast script, an amount that does not parse skips its file. In the sales script, a read error is not modelled.
- `float()` of the forecast amount accepts only an optional sign, digits and an optional fraction; exponents, `inf` and `nan` text are not modelled.
- IEEE floating point is not modelled: amounts are exact reals, so no sum loses precision and no −0 appears.
- Display formatting is not modelled:
  - `toLocaleString`;
  - the thousands separators of "N주";
  - the percentage and M-unit formatting;
  - every piece of JSX, colour and label table.
- React state and effects are not modelled: `useState`, `useEffect`, `fetch`, loading and error states. `handleSort` is kept, as a state update.
- StagnantStockView.SortedItems: models only the numeric sort keys in full. A string column is ordered by `localeCompare`, which is not modelled.
- `parseFloat` of the threshold parameter is not modelled, in either handler. `StagnantStock.Request` and `SeasonChart.ChartRequest` carry its result as an exact real, or `None` for NaN. So the prefix parse is not modelled ("5abc" reads as 5). Nor are the infinite thresholds, which are not Dafny reals: `Infinity` makes every row stagnant whose category total is positive, and `-Infinity` makes no row stagnant.
- The item-count split of the endpoint (`StagnantStock.BuildReportCountSplit`) is proved only when the warehouse has not both a NULL key and an empty key. The report reads both as "", and `new Set(...).size` then counts them once.
- StockWeeksChart.Fixed1: states a bound of 0.05 rather than the exact decimal string `toFixed(1)` produces on a binary float. `Fixed1Of` and `WeeksPointOf` state their figures as `Fixed1` values, so this is the only place the gap sits.
- The error bodies of the 405 and 500 answers are not modelled, in either handler. The 405 body is `{ error: "Method not allowed" }`, and the 500 body is `{ error: String(error) }`, which depends on the exception text. `MethodNotAllowed`, `ServerError`, `ChartMethodNotAllowed` and `ChartServerError` carry no text; the 400 messages are modelled.
- `ITEM_TABS`, `SALES_TABLE_ROWS` and the month-data types come from src/types/sales.ts, which is not part of this model. The model writes the tabs and field names it needs as constants.
- Three design features are not modelled, because no code produces them:
  - the 당월수량미달 bucket;
  - a prior-month quantity floor;
  - per-channel stagnant fields.

  The season-chart UI's `minQty` parameters are never read by the handler.
- The season-chart UI (`InventorySeasonChart.tsx`), `CollapsibleSection`, `ItemTabs`, the debug scripts and the test endpoint are not part of this model.
