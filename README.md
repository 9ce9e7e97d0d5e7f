# Restaurant sales-report engine, modelled in Dafny

The system reads a point-of-sale "item-wise sales" spreadsheet. It classifies every row of the
decoded grid as one of:

- a skipped summary or header;
- a category heading;
- an item line;
- nothing.

It files each item under the most recent category heading. It finds the item's cost price in an
inventory by name. It then computes, per item, its cost, its profit and its margin rounded to one
decimal, and the same totals per category and for the whole report.

The code holds several copies of this engine:

- the `/api/parse` and `/api/upload` routes;
- `lib/excel-parser-v3.ts`, which is the same code again;
- three older variants with their own classification rules (`lib/excel-parser-v2.ts`,
  `lib/excel-parser-new.ts`, `lib/excel-parser.ts`).

Around the engine sit:

- the in-memory store `lib/api-db.ts`, with inventory and sales records, id counters, a fuzzy name
  lookup and the analytics queries;
- the seed inventory `lib/inventory-data.ts`;
- the margin calculator behind `POST /api/analytics`.

## How the model is built

- **Shared engine.** The parse route, the upload route and v3 share one engine, `ReportRows`. Their
  helpers are textual copies; only the cost resolver differs, so the resolver is a parameter.
  `lib/excel-parser-new.ts` and `lib/excel-parser.ts` share `LegacyRows` in the same way; there the
  parameter is the pricing of one item.
- **Row loops.** Each row loop is a `method` with a `while` loop. It is proved to compute the value of
  a function `Run`, a fold of one step over the classified rows. The properties of a pass are lemmas
  about `Run`: items in order, the current category, first-seen bucket order, buckets partitioning
  the items, and category totals adding up to the summary.
- **The store.** `lib/api-db.ts` is the class `ApiDb.Db`. Its fields are the inventory and
  sales-record sequences and the two id counters. Every mutating method states the whole new state
  and that nothing else changes. The analytics queries are methods whose loops build a
  `Map`-with-insertion-order (`Tally`). Each is proved equal to a function, and lemmas relate that
  function to the records (per-key sums, distinct keys, sort order).
- **Pure computations.** Date extraction, lookups, pricing, validation, the seed list and the
  analytics calculator are functions with contracts, plus lemmas.

Conventions:

- **Cells.** A cell is `Absent` (null or undefined), `Str(s)` or `Num(n)`, and money is `real`.
- **Rounding.** `Math.round(x)` is `Floor(x + 1/2)`.
- **Numeric coercion.** `Number(x) || 0` gives 0 for missing or non-numeric cells.
- **Clock.** The current date and time are parameters (`today`, `now`).

An item name that no inventory entry matches is priced at cost 0 (so its whole net amount is profit,
at a 100% margin), and nothing records it. That behaviour is what `ParseRoute.UnknownNameIsFree`, `ParseRoute.UnknownCostsNothing`,
`Sales.UnmatchedItem` and `Analytics.UnknownItemBeatsExpectation` state.

## Model

| member | source | states |
|---|---|---|
| ReportRows.ClassifiersExclusive | app/api/parse/route.ts:235-260 | No row is both a category row (text in column 0, column 1 empty) and an item row (nothing in column 0). |
| ReportRows.SkipRowsNeverCategories | app/api/parse/route.ts:86-89 | The skip test runs before the category test: a "Total" or "Sub Total" row with an empty column 1 is skipped, never opened as a category. |
| ReportRows.Classify | app/api/parse/route.ts:79-99 | Classifies in the source's order: an empty row is blank; a skip label (exact list, "hotel" in the lower-cased text, "Group Report") is skipped; then category, then item. Each outcome holds exactly when its test does and the earlier ones fail. The category name is trimmed column 0; the item name is trimmed column 1 with a positive quantity. |
| ReportRows.FiguresOf | app/api/parse/route.ts:100-105 | Quantity, my amount, discount, net amount, tax and total sales are columns 2 to 7, each read as `Number(x)` or 0. |
| ReportRows.LinesOf | app/api/parse/route.ts:79-84 | One line per row, in row order: line i is the classification of row i. |
| ReportRows.Open | app/api/parse/route.ts:91-93 | Opening a bucket is idempotent. A new key goes last in the order with an empty bucket; an existing key changes nothing. |
| ReportRows.EnterCategory | app/api/parse/route.ts:90-93 | A heading becomes the current category, and its bucket exists afterwards; the items are unchanged. |
| ReportRows.AddItem | app/api/parse/route.ts:128-133 | An item is appended once to the items, and the current category is unchanged. |
| ReportRows.RowPass | app/api/parse/route.ts:77-135 | The row loop's items, bucket order and buckets are those of `Run` over the classified rows. |
| ReportRows.RunCurrent | app/api/parse/route.ts:77-90 | After any prefix of the rows, the current category is the name in the latest category heading, or "Uncategorized" before any. |
| ReportRows.RunItems | app/api/parse/route.ts:97-133 | The items are exactly the item lines, in row order. Each is priced under the category current at its row. |
| ReportRows.RunOrder | app/api/parse/route.ts:91-93 | The bucket order is the distinct bucket keys in first-touched order. |
| ReportRows.RunKeys | app/api/parse/route.ts:128-133 | Every key in the order has a bucket. |
| ReportRows.RunGrouped | app/api/parse/route.ts:128-133 | The buckets partition the items: each bucket is exactly the items of its category, in order, with no key twice. |
| ReportRows.PassCategoriesAddUp | app/api/parse/route.ts:159-191 | Category revenues, costs, taxes, item counts, quantities and profits sum to the report summary's. |
| ReportRows.RepeatedCategoryMerges | app/api/parse/route.ts:90-93 | A repeated heading only moves the current category back; it merges into the open bucket. |
| ReportRows.PlainHeaderOpensEmptyBucket | app/api/parse/route.ts:90-93 | A plain header row such as a restaurant name, not on the skip list and with nothing beside it, opens an empty bucket whose summary is all zeros. |
| Sales.PriceItem | app/api/parse/route.ts:108-126 | Total cost is cost price times quantity. Profit plus total cost is the net amount. The margin is the profit over the net amount, in percent, rounded to one decimal, and 0 when nothing was sold. |
| Sales.UnmatchedItem | app/api/parse/route.ts:108-111 | At cost 0 the profit is the whole net amount, at a margin of 100 when the net amount is positive and 0 otherwise. |
| Sales.MarginBounded | app/api/parse/route.ts:108-111 | With a cost price and a quantity that are not negative, no item margin exceeds 100. |
| Sales.ChilliChickenExample | test-parser-v2.js:89-97 | The worked example: 3 Chilli Chicken at cost price 175 for a net amount of 1047 cost 525, make a profit of 522, and have margin 49.9. |
| Sales.Summarize | app/api/parse/route.ts:159-174 | A category summary: item count, sums of quantity, revenue, cost and tax over its bucket, profit as revenue minus cost, and the one-decimal average margin of those totals. |
| Sales.EmptyCategory | app/api/parse/route.ts:159-174 | A category with no items has all-zero totals and a 0 margin. |
| Sales.Summaries | app/api/parse/route.ts:159-174 | One summary per key of the insertion order, in that order. |
| Sales.Total | app/api/parse/route.ts:177-191 | The report summary: item count, orders as the sum of quantities, sums of revenue, cost and tax, pre-tax profit and its one-decimal margin. |
| Sales.CategoriesAddUp | app/api/parse/route.ts:159-191 | When buckets partition the items, the categories' revenue, cost, tax, item count, quantity and profit sums equal the report's totals. |
| DateRange.ExtractDateRange | app/api/parse/route.ts:216-225 | Without a match the range is empty and the date is today. Otherwise the range is "DD-MM-YYYY to DD-MM-YYYY" with single spaces, and the date is the end date as YYYY-MM-DD. |
| DateRange.ExtractNoMatch | app/api/parse/route.ts:216-225 | The range is empty exactly when no position holds a match of the pattern `date \s+ to \s+ date`. |
| DateRange.ExtractLeftmost | app/api/parse/route.ts:216-225 | A found range is built from the leftmost match in the text. |
| DateRange.MatchAtCorrect | app/api/parse/route.ts:218 | The matcher at one position finds a match exactly when the pattern matches there, and returns its two dates. |
| DateRange.Search | app/api/parse/route.ts:218 | The scan returns the first position with a match, and there is none before it. |
| DateRange.EndDate | app/api/parse/route.ts:220-221 | The end date DD-MM-YYYY is reordered to YYYY-MM-DD. |
| DateRange.FoundDates | app/api/parse/route.ts:218 | Both matched dates have the DD-MM-YYYY digit shape. |
| DateRange.ExtractFormatted | app/api/parse/route.ts:216-225 | A range already in normal form is returned as it is, dated at its end date. |
| DateRange.ExtractIdempotent | app/api/parse/route.ts:216-225 | Extracting again from an extracted range gives the same result. |
| DateRange.ExampleHeader | app/api/parse/route.ts:216-225 | "17-10-2025 to 18-10-2025" gives that range and the date 2025-10-18. |
| DateRange.NoHeader | app/api/parse/route.ts:224 | A header without dates gives an empty range and today's date. |
| DateRange.Period | app/api/parse/route.ts:72 | The period is read from the text of row 1, column 0 only; a falsy cell gives today. |
| ParseRoute.Precheck | app/api/parse/route.ts:30-59 | Refuses with 400 when there is no file, when neither MIME type nor extension says Excel, or when the workbook has no sheet. Passes exactly in the remaining case. |
| ParseRoute.RestaurantName | app/api/parse/route.ts:71 | The text of row 0, column 0, or "Unknown Restaurant" when that cell is falsy. |
| ParseRoute.Sample | app/api/parse/route.ts:137-156 | A debug sample row is present exactly when the row exists. |
| ParseRoute.Post | app/api/parse/route.ts:25-204 | With the items priced by the store's `getCostPrice` over the inventory `inv`, the handler returns the response function's value: checks, row loop, summaries. |
| ParseRoute.Handle | app/api/parse/route.ts:25-204 | For any pricing function, the checks, the row loop and the summaries compute the response function's value. |
| ParseRoute.ShortSheetRefused | app/api/parse/route.ts:63-68 | A sheet of fewer than five rows is refused with the "empty or has insufficient data" error. |
| ParseRoute.NoItemsRefused | app/api/parse/route.ts:137-156 | A sheet of five rows or more without an item row is refused with 400. Its debug object carries the row count. |
| ParseRoute.NoItemLines | app/api/parse/route.ts:97-135 | Rows none of which is an item row produce no item. |
| ParseRoute.ParsedReport | app/api/parse/route.ts:159-204 | A success had at least five rows. Its items are the item lines in order, its summary is their total, and the categories' revenue, cost, tax, item count, quantity and profit sums equal the summary's. |
| ParseRoute.UnknownNameIsFree | app/api/parse/route.ts:108-111 | With the store's resolver, a name no inventory name overlaps costs nothing: profit is the net amount, margin 100, and no warning is recorded. |
| ParseRoute.UnknownCostsNothing | lib/api-db.ts:120-127 | The store's resolver prices a name that matches nothing at 0. |
| ApiDb.UnknownNoOverlap | lib/api-db.ts:101-114 | `Unknown` (checked entry by entry from the end) holds exactly when no inventory name overlaps the query, which is when `getInventoryByName` finds nothing. |
| UploadRoute.FieldsOf | app/api/upload/route.ts:112-152 | The saved record carries the file name, restaurant name, period, items and category summaries, and the totals of the items (revenue, cost, pre-tax profit, tax, orders, one-decimal net margin). |
| UploadRoute.Post | app/api/upload/route.ts:16-173 | The items are priced by the store's own `getCostPrice` over its current inventory. A refusal answers 400 and leaves the store unchanged. A save appends exactly one record, under the next id, leaves the inventory alone, and keeps the ids consecutive. |
| UploadRoute.Decide | app/api/upload/route.ts:21-137 | The checks and the row loop compute the upload's plan: the refusal and its message, or the fields of the record to save. |
| UploadRoute.Commit | app/api/upload/route.ts:139-173 | A refusal answers 400 and changes nothing. A save stores exactly the planned record under the next id and answers with it. |
| UploadRoute.UploadSavesWhatParseReturns | app/api/upload/route.ts:40-173 | On a file the parse route accepts, the upload saves exactly when the parse succeeds, and it saves the parse's items, categories, period and names. |
| UploadRoute.UploadSkipsParseChecks | app/api/upload/route.ts:21-51 | No type or row-count check: any sheet with an item row is saved, with exactly its item lines. |
| ApiDb.Stamp | lib/api-db.ts:75-83 | The seeded inventory has the seed entries in order, with ids 1 to n. |
| ApiDb.InventoryByName | lib/api-db.ts:101-114 | Returns the first entry whose lower-cased name equals the trimmed, lower-cased query; else the first whose name contains it or is contained in it; else nothing. |
| ApiDb.CostPrice | lib/api-db.ts:120-127 | The matched entry's cost price and margin; cost 0 and margin 45 when nothing matches. |
| ApiDb.InventoryByCategory | lib/api-db.ts:116-118 | Exactly the entries of that category. |
| ApiDb.InventoryByCategoryInListOrder | lib/api-db.ts:116-118 | The filter distributes over concatenation and keeps one entry exactly when it has the category, so the entries come in list order. |
| ApiDb.InventoryCategories | lib/api-db.ts:161-163 | The distinct categories, none twice, each the category of some entry, in the order they first occur. |
| ApiDb.StatOf | lib/api-db.ts:165-180 | A category's count is the number of its entries. Its average margin is the mean margin rounded to a whole number. |
| ApiDb.StatsOf | lib/api-db.ts:165-180 | One statistic per category, in order. |
| ApiDb.InventoryStatsOf | lib/api-db.ts:165-180 | The item total and one statistic per distinct category. |
| ApiDb.StatsCountAddsUp | lib/api-db.ts:165-180 | The category counts add up to the item total. |
| ApiDb.StatsMarginBounded | lib/api-db.ts:165-180 | With every margin between 0 and 100, every category average lies between 0 and 100. |
| ApiDb.ApplyUpdate | lib/api-db.ts:139-150 | Each field the update carries overrides the stored one; the others are kept, and the time stamp is the current time. |
| ApiDb.UpdateIdempotent | lib/api-db.ts:139-150 | Applying the same update twice is applying it once. |
| ApiDb.EmptyUpdate | lib/api-db.ts:139-150 | An empty update changes only the time stamp. |
| ApiDb.Reversed | lib/api-db.ts:186 | The records newest first: element i is element n-1-i. |
| ApiDb.ReversedTwice | lib/api-db.ts:186 | Reversing twice gives the records back. |
| ApiDb.SalesRecordById | lib/api-db.ts:188-190 | A record with that id, or nothing exactly when no record has it. |
| ApiDb.SalesRecordsByDateRange | lib/api-db.ts:192-194 | Exactly the records dated between start and end inclusive, in string order. |
| ApiDb.EmptyDateRange | lib/api-db.ts:192-194 | A start after the end selects nothing. |
| ApiDb.DashboardOf | lib/api-db.ts:219-247 | An empty store gives zeros and no tax field. Otherwise: sums of revenue, profit, orders and tax, the record count, and the one-decimal average margin. |
| ApiDb.DashboardSnoc | lib/api-db.ts:219-247 | Adding a record adds its figures to every total and one to the count. |
| ApiDb.CategoryAnalyticsCorrect | lib/api-db.ts:249-277 | One row per distinct item category in first-seen order. Each row sums revenue, cost, profit, quantity and tax over that category's items, with the one-decimal margin. |
| ApiDb.CategoryRevenueAddsUp | lib/api-db.ts:249-277 | The category revenues add up to the revenue of all items. |
| ApiDb.TalliedSums | lib/api-db.ts:253-268 | Each counted key's running totals are the sums over its items. |
| ApiDb.TopItemsCorrect | lib/api-db.ts:279-301 | Exactly `min(limit, n)` rows for n distinct item names (`n + limit` rows, at least 0, for a negative limit), sorted by revenue descending. Each row aggregates all items of its name. |
| ApiDb.TopItemsBeatLeftOut | lib/api-db.ts:279-301 | No item name left out of the list sold more than any name in it. |
| ApiDb.TopItemsTiesInFirstSeenOrder | lib/api-db.ts:283-299 | Rows of equal revenue come in the order their names were first sold, the `Map`'s insertion order that the stable sort keeps. |
| ApiDb.TopItemsComplete | lib/api-db.ts:279-301 | With a limit at least the number of names, every item name appears. |
| ApiDb.DailyTrendsCorrect | lib/api-db.ts:303-322 | One entry per distinct date, in ascending date order, each summing that date's records. |
| ApiDb.Db.constructor | lib/api-db.ts:75-88 | The store starts with the stamped seed and no sales. The inventory counter is the seed length plus one; the sales counter is 1. |
| ApiDb.Db.AddInventoryItem | lib/api-db.ts:129-137 | The item gets the counter as id and is appended last. The counter goes up by one; nothing else changes, and ids stay fresh. |
| ApiDb.Db.UpdateInventoryItem | lib/api-db.ts:139-150 | With no entry of that id: returns nothing, store unchanged. Otherwise only the first such entry is replaced by the updated one, in place, and returned. |
| ApiDb.Db.DeleteInventoryItem | lib/api-db.ts:152-159 | Returns true exactly when an entry has the id, and then removes only the first such entry. Otherwise the store is unchanged. |
| ApiDb.Db.AddSalesRecord | lib/api-db.ts:196-204 | The record gets the next id and is appended; ids stay 1, 2, 3, … in insertion order. |
| ApiDb.Db.DeleteSalesRecord | lib/api-db.ts:206-213 | Returns true exactly when a record has the id, and then removes only it. Otherwise the store is unchanged. |
| ApiDb.Db.GetCategoryAnalytics | lib/api-db.ts:249-277 | The loop over every record's items computes the category analytics function. |
| ApiDb.Db.GetTopItems | lib/api-db.ts:279-301 | The loop computes the top-items function. |
| ApiDb.Db.GetDailyTrends | lib/api-db.ts:303-322 | The loop computes the daily-trends function. |
| Tally.TallyInto | lib/api-db.ts:253-268 | The `forEach` that counts elements into a `Map` yields the table of all elements counted in order. |
| Tally.TallyKeys | lib/api-db.ts:253-268 | The map's keys are the distinct keys in first-insertion order. |
| Grouping.DistinctKeysInFirstSeenOrder | lib/api-db.ts:253-268 | The distinct keys are ordered by the position where each key first occurs. |
| Tally.TallyTotals | lib/api-db.ts:253-268 | Each key's total is the fold of exactly its group's elements. |
| Tally.GroupFoldIsFoldOfGroup | lib/api-db.ts:253-268 | Folding only the elements of one key is folding that key's group. |
| Sorting.SortDesc | lib/api-db.ts:299 | Sorting by a number descending gives a permutation in descending order. |
| Sorting.SortAsc | lib/api-db.ts:321 | Sorting by a string ascending gives a permutation in ascending order. |
| Sorting.SortDescOfSorted | lib/api-db.ts:299 | Sorting what is already sorted changes nothing (stability). |
| Sorting.SortDescStable | lib/api-db.ts:299 | Of two distinct elements with the same key, the one first in the input comes first in the output. |
| Sorting.Take | lib/api-db.ts:300 | `slice(0, limit)` is a prefix of length `limit`, capped at the length; a negative limit counts from the end. |
| ParserV3.CostPrice | lib/excel-parser-v3.ts:139-160 | The cost is 0 or the cost of some inventory key; it is 0 when no key overlaps the trimmed, lower-cased name. |
| ParserV3.ExactKeyCost | lib/excel-parser-v3.ts:142-144 | First tier: a key equal to the trimmed name, case-sensitively, wins. |
| ParserV3.CaseInsensitiveCost | lib/excel-parser-v3.ts:146-151 | Second tier: with no exact key, the first key equal ignoring case wins. |
| ParserV3.PartialMatchCost | lib/excel-parser-v3.ts:153-158 | Third tier: with neither, the first key containing the name or contained in it wins. |
| ParserV3.ExactKeyWins | lib/excel-parser-v3.ts:139-160 | On the two Budweiser entries of the table, in their table order, "Budweiser Magnum" costs its own 350, although it contains the earlier key "Budweiser". |
| ParserV3.BudweiserOverlaps | lib/excel-parser-v3.ts:153-158 | "budweiser" is contained in "budweiser magnum", so the partial tier alone would pick the wrong entry. |
| ParserV3.InventoryItem | lib/excel-parser-v3.ts:395-397 | An exact-key lookup only: an entry with that key, or nothing exactly when no key equals the name. |
| ParserV3.CategoryFor | lib/excel-parser-v3.ts:306-325 | A category's quantity, revenue, cost and tax sums, its pre-tax profit, and its average margin rounded to one decimal. |
| ParserV3.Categories | lib/excel-parser-v3.ts:306-325 | One category per bucket key, in insertion order. |
| ParserV3.BuildCategories | lib/excel-parser-v3.ts:306-325 | The loop over the map builds exactly those categories. |
| ParserV3.SummaryOf | lib/excel-parser-v3.ts:327-352 | The summary sums, gross profit as revenue minus cost, net profit equal to gross profit (tax not subtracted), and a one-decimal net margin. |
| ParserV3.RestaurantCell | lib/excel-parser-v3.ts:236 | Row 0, column 0 when truthy, else "Unknown". |
| ParserV3.HeaderText | lib/excel-parser-v3.ts:237 | The text of row 1, column 0. It fails exactly when that cell is a non-zero number, which has no `match` method. |
| ParserV3.NumericHeaderThrows | lib/excel-parser-v3.ts:237 | Such a number in the header cell makes the parse throw. |
| ParserV3.ParseExcelFile | lib/excel-parser-v3.ts:218-362 | With the items priced by v3's own `getCostPrice` over its `INVENTORY`, the parser returns the parse function's value: sheet and empty checks, the row loop, categories and summary, and the no-items error. |
| ParserV3.ParsedPass | lib/excel-parser-v3.ts:240-352 | A parsed result is the row pass's items with their categories and summary. |
| ParserV3.CategoriesGrouped | lib/excel-parser-v3.ts:306-325 | The categories have distinct names, each holding exactly its items. |
| ParserV3.CategoriesMatchSummaries | lib/excel-parser-v3.ts:306-325 | v3's category revenue, cost, tax, quantity, profit and item-count sums equal those of the route's summaries. |
| ParserV3.ParsedReport | lib/excel-parser-v3.ts:240-352 | A parsed report has the item lines in order, distinct category names each grouping exactly their items, and category revenue, cost, tax, item-count, quantity and profit sums equal to the summary's. |
| ParserV2.Window | lib/excel-parser-v2.ts:162 | The date scan looks at the first min(5, n) rows. |
| ParserV2.FirstHeaderWins | lib/excel-parser-v2.ts:162-177 | The first row in the window whose column 0 matches gives the period. |
| ParserV2.NoHeaderMeansToday | lib/excel-parser-v2.ts:162-177 | With no match in the window the range is empty and the date is today. |
| ParserV2.FindPeriod | lib/excel-parser-v2.ts:162-177 | The scanning loop computes that period. |
| ParserV2.Classify | lib/excel-parser-v2.ts:199-257 | A row of fewer than 3 cells is ignored. Otherwise the v2 skip rules, then a heading (shape plus a name with Menu, Others, dine, bar or food), then an item; each holds exactly when its test does. A heading-shaped row with another name falls through to nothing. |
| ParserV2.LinesOf | lib/excel-parser-v2.ts:199-257 | One line per row, in row order: line i is the classification of row i. |
| ParserV2.PriceItem | lib/excel-parser-v2.ts:275-293 | Profit plus cost is the net amount, and the item margin is rounded to one decimal. |
| ParserV2.Open | lib/excel-parser-v2.ts:295-304 | Opening a group is idempotent, and a new key goes last. |
| ParserV2.AddItem | lib/excel-parser-v2.ts:282-304 | An item is appended, and its net amount and tax are added to the running totals. |
| ParserV2.StepRow | lib/excel-parser-v2.ts:199-307 | One loop turn computes one step of the pass. |
| ParserV2.RowLoop | lib/excel-parser-v2.ts:199-307 | The row loop computes the pass over the classified rows. |
| ParserV2.RunCurrent | lib/excel-parser-v2.ts:240-243 | The current heading is the latest one, or the empty text before any. |
| ParserV2.RunItems | lib/excel-parser-v2.ts:282-304 | The items are the item lines in order, and the running revenue and tax are their sums. |
| ParserV2.RunGrouped | lib/excel-parser-v2.ts:295-304 | The groups partition the items by group key. |
| ParserV2.ItemBeforeHeadingGroupedUnderEmptyKey | lib/excel-parser-v2.ts:286-301 | An item before any heading is labelled "Uncategorized" but grouped under the empty key. |
| ParserV2.UncategorizedIsNoHeading | lib/excel-parser-v2.ts:233-239 | "Uncategorized" passes none of the heading name tests. |
| ParserV2.NoItemsKeysAreHeadings | lib/excel-parser-v2.ts:309-318 | With no items, the open groups are exactly the distinct headings seen. |
| ParserV2.NoItemsRefused | lib/excel-parser-v2.ts:309-318 | With no items the parse throws a message giving the row count and the number of categories found. |
| ParserV2.GroupOf | lib/excel-parser-v2.ts:328-345 | A group's subtotals are the sums over its items, with pre-tax subtotal profit. |
| ParserV2.Groups | lib/excel-parser-v2.ts:328-345 | One group per key, in insertion order. |
| ParserV2.BuildGroups | lib/excel-parser-v2.ts:328-345 | The loop over the map builds exactly those groups. |
| ParserV2.Report | lib/excel-parser-v2.ts:320-359 | Result totals: revenue, cost, orders and tax sums; profit after tax; unrounded net margin. |
| ParserV2.Assemble | lib/excel-parser-v2.ts:320-359 | The assembly code builds exactly that result. |
| ParserV2.ParseExcelFile | lib/excel-parser-v2.ts:137-371 | With the items priced by v2's own `getCostPrice` over its `DEFAULT_INVENTORY`, the parser returns the parse function's value: the no-sheet and empty checks, the loop, and the result or the no-items error. |
| ParserV2.GroupsAddUp | lib/excel-parser-v2.ts:320-345 | Group subtotals sum to the result's revenue, cost, orders and tax, and to the pre-tax profit. |
| ParserV2.GroupsGrouped | lib/excel-parser-v2.ts:328-345 | Groups have distinct names and hold exactly their items. |
| ParserV2.ParsedPass | lib/excel-parser-v2.ts:320-359 | A parsed result is the report of the row pass over a non-empty sheet with items. |
| ParserV2.ParsedReport | lib/excel-parser-v2.ts:320-359 | A parsed result has the item lines in order, and its groups partition them. Group sums equal the result totals; group profits sum to the result profit plus tax. |
| ParserNew.CostPrice | lib/excel-parser-new.ts:91-96 | A case-insensitive exact match or 0: never the price of a name that differs from the query after lower-casing. |
| ParserNew.FirstMatchSetsPrice | lib/excel-parser-new.ts:91-96 | The first entry equal ignoring case sets the price. |
| ParserNew.NoPartialMatch | lib/excel-parser-new.ts:91-96 | There is no substring fallback: on the two Budweiser entries of the table, "Budweiser Magnum Extra" costs 0. |
| ParserNew.PriceItem | lib/excel-parser-new.ts:168-184 | Profit plus cost is the net amount, and the margin is rounded to one decimal. |
| ParserNew.ItemsPriced | lib/excel-parser-new.ts:161-188 | Every item is priced at its name's table cost. |
| ParserNew.ReportTotals | lib/excel-parser-new.ts:195-213 | Revenue, cost, orders and tax are the item sums; profit is the item profits minus tax; the net margin is unrounded. |
| ParserNew.ParseExcelFile | lib/excel-parser-new.ts:102-225 | The parser returns the parse function's value, with the items priced from its own `DEFAULT_INVENTORY`. |
| ParserNew.ParsedPass | lib/excel-parser-new.ts:132-213 | A parsed result is the report of the pass's items. |
| ParserNew.ParsedReport | lib/excel-parser-new.ts:122-213 | A parsed result has the period of row 1, the item lines in order priced from the table, and the post-tax totals. |
| ParserNew.NoItemsRefused | lib/excel-parser-new.ts:191-193 | A sheet without item rows throws. |
| LegacyRows.Classify | lib/excel-parser-new.ts:138-161 | Only Max, Min, Avg or Total is skipped. A text with a falsy column 2 is always consumed, and it moves the category unless it names Sub Total, Round off, Hotel or Group Report. An item needs nothing in column 0, a truthy column 1 and any number in column 2. |
| LegacyRows.LinesOf | lib/excel-parser-new.ts:138-161 | One line per row, in row order: line i is the classification of row i. |
| LegacyRows.StepRow | lib/excel-parser-new.ts:132-189 | One loop turn computes one step of the pass. |
| LegacyRows.RowLoop | lib/excel-parser-new.ts:132-189 | The row loop computes the pass. |
| LegacyRows.RunCurrent | lib/excel-parser.ts:42-70 | The current category is the latest heading. |
| LegacyRows.RunItems | lib/excel-parser.ts:42-104 | The items are the item lines in order, and the running revenue and tax are their sums. |
| LegacyRows.NoItemLines | lib/excel-parser.ts:42-104 | No item rows, no items. |
| ParserLegacy.CostOf | lib/excel-parser.ts:80-81 | The looked-up cost, or 0 when the lookup misses. |
| ParserLegacy.PriceItem | lib/excel-parser.ts:83-99 | Profit plus cost is the net amount; the margin is the unrounded percentage. |
| ParserLegacy.ItemsPriced | lib/excel-parser.ts:42-104 | Every item is priced by the injected lookup. |
| ParserLegacy.ParseExcelFile | lib/excel-parser.ts:17-134 | The parser returns the parse function's value. |
| ParserLegacy.PassReport | lib/excel-parser.ts:42-125 | The result is the report of the pass. |
| ParserLegacy.ParsedReport | lib/excel-parser.ts:42-125 | The result has the item lines in order, the sums, the post-tax profit and the unrounded net margin. |
| ParserLegacy.NoItemsGiveZeros | lib/excel-parser.ts:106-125 | There is no no-items error: an empty result has zero totals and net margin 0. |
| ParserLegacy.ProfitsAddUp | lib/excel-parser.ts:107-112 | The item profits sum to revenue minus cost. |
| Validation.ValidateExcelFile | lib/excel-parser-v3.ts:368-381 | Valid exactly when the lower-cased name ends in .xlsx or .xls and the size is within the limit. The extension error comes first, then the size error. |
| Validation.ExtensionErrorFirst | lib/excel-parser-v2.ts:376-391 | An oversized .csv file is refused for its extension. |
| Validation.UpperCaseExtensionAtLimit | lib/excel-parser-new.ts:230-245 | The extension test ignores case, and a file of exactly the limit passes. |
| InventoryData.CalcCost | lib/inventory-data.ts:22-24 | The cost is the selling price less the margin, within half a unit. |
| InventoryData.CalcCostBounds | lib/inventory-data.ts:22-24 | For a whole price at a margin between 0 and 100, the cost lies between 0 and the price. |
| InventoryData.CalcCostHalfUp | lib/inventory-data.ts:32 | Rounding is half up: 199 at 50% costs 100, and 449 at 40% costs 269. |
| InventoryData.Seed | lib/inventory-data.ts:26-121 | A seed line keeps its name, category, price and margin, at a cost between 0 and its price. |
| InventoryData.SeedAll | lib/inventory-data.ts:26-121 | The seed list maps each line in order. |
| InventoryData.SeedCostsWithinPrice | lib/inventory-data.ts:26-121 | The 51 seeded items all cost no more than they sell for. |
| InventoryData.GetItemCost | lib/inventory-data.ts:124-144 | The cost and margin of the first exact match of the trimmed, lower-cased name, else of the first substring match either way, else nothing. |
| InventoryData.ExactNameWins | lib/inventory-data.ts:124-144 | On the two Budweiser seed entries, in list order, "Budweiser Magnum" resolves to its own entry, cost 269 and margin 40, although the earlier "Budweiser" also overlaps it. |
| InventoryData.GetItemsByCategory | lib/inventory-data.ts:147-149 | Exactly the entries of that category. |
| InventoryData.ItemsByCategoryInListOrder | lib/inventory-data.ts:147-149 | The filter distributes over concatenation and keeps one entry exactly when it has the category, so the entries come in list order. |
| InventoryData.GetAllCategories | lib/inventory-data.ts:152-154 | The distinct categories, none twice, each the category of some entry, in the order they first occur. |
| InventoryData.CategoriesCoverInventory | lib/inventory-data.ts:152-154 | The category lists together hold every entry once. |
| Lookup.FirstIndex | lib/inventory-data.ts:128-138 | `findIndex`: the first index passing the test, or none when none does. |
| Lookup.FuzzyIndex | lib/api-db.ts:101-114 | The first exact match when one exists, else the first overlapping match, else none. |
| Lookup.SameNameOverlaps | lib/api-db.ts:101-114 | An exact match also overlaps, so the tier order decides the result. |
| Lookup.BlankQueryResolvesToFirst | lib/api-db.ts:101-114 | A blank query resolves to the first entry. |
| Lookup.KeyedTiers | lib/excel-parser-v3.ts:139-160 | The three tiers of the keyed lookup, each taken only when the earlier ones miss. |
| Analytics.Priced | app/api/analytics/route.ts:83-103 | Cost is cost price times quantity, and profit plus cost is the net amount. The actual margin is one-decimal, and the margin difference is actual minus expected. |
| Analytics.Calculate | app/api/analytics/route.ts:84-86 | The item is priced at the quantity, net amount and tax it was sent with: a number as it is, a missing field as 0. |
| Analytics.CalculateReadsText | app/api/analytics/route.ts:84-86 | A figure sent as text is read as `Number(text) || 0`. |
| Analytics.Respond | app/api/analytics/route.ts:69-151 | No items array gives 400 "Missing items array", and a non-text name gives a 500. Otherwise: the items sorted by profit descending as a permutation, the summary, the margin issues in posted order, the top five and the low-margin items. |
| Analytics.AllConsistent | app/api/analytics/route.ts:82-104 | Every calculated item satisfies the pricing relations. |
| Analytics.Answered | app/api/analytics/route.ts:82-118 | The answer's items are a reordering of the calculated posted items, each consistent in its pricing, with the summary of those items. |
| Analytics.SummaryMatchesItems | app/api/analytics/route.ts:107-127 | The summary sums the items' quantity, revenue, cost and tax; profit is revenue minus cost; the net margin is one-decimal. |
| Analytics.ProfitsAddUp | app/api/analytics/route.ts:107-109 | The item profits sum to the summary profit. |
| Analytics.IssuesExact | app/api/analytics/route.ts:114 | An item is a margin issue exactly when its margin difference is below -10. |
| Analytics.InsightsExact | app/api/analytics/route.ts:129-141 | Margin issues and low-margin items hold exactly the items meeting their tests. |
| Analytics.LowsExact | app/api/analytics/route.ts:139-141 | A low-margin item is one with actual margin below 40. |
| Analytics.TopItemsAreTheMostProfitable | app/api/analytics/route.ts:135-138 | At most five top items, in descending profit, none less profitable than any item left out. |
| Analytics.UnknownItemBeatsExpectation | app/api/analytics/route.ts:83 | An unknown name is expected at 45% but costs 0, so with positive sales its difference is +55 and it is never an issue. |
| Analytics.FreeItemMakes100 | app/api/analytics/route.ts:88-90 | An item at cost 0 with positive sales has margin 100. |
| Strings.Trim | app/api/parse/route.ts:83 | The result starts and ends with no white space; text without white space is kept; only white space trims to empty. |
| Strings.TrimIdempotent | app/api/parse/route.ts:83 | Trimming twice is trimming once. |
| Money.OneDecimalMargin | app/api/parse/route.ts:111 | A whole number of tenths within 0.05 of the exact percentage of profit over the base, and 0 when the base is not positive. |
| Money.MarginAtMost100 | app/api/parse/route.ts:111 | With a cost that is not negative the margin is at most 100, and exactly 100 at cost 0. |

## Left out

- Workbook decoding (`XLSX.read`, `sheet_to_json`) is not modelled; an upload carries the decoded first sheet, or nothing when there is none. `FileReader`, the Promise wrappers, `formData` and the JSON response plumbing are left out too.
- Every `console.log` and debug print is left out.
- IEEE-754 floating point is not modelled: money is exact `real`, so rounding artefacts, NaN and Infinity do not arise.
- Prototype keys in object lookups (such as "constructor") are not modelled.
- `String(n)` of a fraction is modelled as its exact decimal expansion, not JavaScript's shortest round-trip form.
- `Number(text)` reads only an optional sign, digits and an optional fraction. Exponents, hexadecimal, "Infinity" and any other non-decimal text come out 0.
- `toLowerCase` folds ASCII letters only.
- `<` and `localeCompare` on strings are compared by character code, not by locale or UTF-16 unit.
- The current date (`today`) and time (`now`) are parameters, not clocks.
- Analytics.Respond: an exception inside the handler becomes the 500 answer `Crashed`, without the exception's message text.
- Analytics.Respond: `.sort` is modelled as a stable sort of a value. The aliasing is stated in its result instead: the answer's items and low-margin items come out sorted, and the margin issues keep the posted order. An item in the posted array that is `null` is not modelled.
- ParserV2.Classify: v2 reads the quantity as `typeof n === 'number' ? n : Number(n)` and tests it `> 0`. The model reads `Number(n) || 0`, which agrees on that test, but a non-numeric quantity is modelled as 0 rather than NaN.
- ParserV3.RestaurantCell: v3 keeps the restaurant name as the raw cell (number or text) rather than converting it to text.
- lib/excel-parser-v2.ts `getInventoryItem` and `getAllInventoryItems`, and v3's `getAllInventoryItems`, are left out: they read the constant table itself, which is the `Inventory` sequence of the model.
- lib/db.ts (the Dexie IndexedDB wrapper) is not part of this model. The legacy parser's `getInventoryByName` from it is an injected lookup function.
- The GET dispatcher of app/api/analytics/route.ts and the dashboard, sales, inventory and test-parse routes are left out: they are HTTP and debug plumbing over the store.
- UploadRoute.Post: the pricing function is a parameter that must agree, name by name, with `getCostPrice` over the store's current inventory; the handler does not build that function from the store itself.
- ParserV3.ExactKeyWins: shown on the table's two Budweiser entries alone. That no other of the 51 keys of `INVENTORY` equals or overlaps "Budweiser Magnum" first is not proved, because indexing the literal 51-entry table that deep exceeds the solver's budget. The rule for any table is `ParserV3.ExactKeyCost`.
- ParserNew.NoPartialMatch: shown on the table's two Budweiser entries alone, for the same reason; that no name of `DEFAULT_INVENTORY` equals "Budweiser Magnum Extra" ignoring case is not proved. The rule for any table is the contract of `ParserNew.CostPrice`.
- InventoryData.ExactNameWins: shown on the two Budweiser seed entries alone, for the same reason. The rule for any list is the contract of `Lookup.FuzzyIndex`.
- ApiDb.Db: `getInventory` and `getSalesRecords` return copies. The model reads the fields as values, so aliasing between a returned array and the store is not modelled.
- ApiDb.Db.UpdateInventoryItem: an update that carries an `id` can duplicate an id. The freshness of ids is proved only for updates without one.
