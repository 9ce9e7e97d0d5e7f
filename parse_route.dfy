/** `POST /api/parse` (app/api/parse/route.ts): the uploaded workbook's first sheet is read
    row by row with the shared row engine, every item priced with the store's `getCostPrice`,
    and the items, the category summaries and the report summary are returned; nothing is
    saved. The decoding of the workbook is not modelled: the upload carries the decoded
    first sheet, or nothing when the workbook has none. */
module ParseRoute {
  import opened Wrappers
  import opened Strings
  import opened Cells
  import opened Money
  import opened Grouping
  import opened Sales
  import opened ReportRows
  import opened DateRange
  import Validation
  import ApiDb

  /** The `file` field of the form: its name, MIME type, size and decoded first sheet. */
  datatype UploadedFile = UploadedFile(name: string, mimeType: string, size: nat, sheet: Option<seq<Row>>)

  const ExcelMimeTypes: seq<string> := [
    "application/vnd.openxmlformats-officedocument.spreadsheetml.sheet",
    "application/vnd.ms-excel"]

  /** The `debug` object sent back when no item row was found. */
  datatype Debug = Debug(
    totalRows: nat, fileName: string, fileSize: nat,
    sampleFirstRow: Option<Row>, sampleRow3: Option<Row>, sampleRow10: Option<Row>)

  /** The `data` object of a successful parse. */
  datatype ParsedData = ParsedData(
    fileName: string, restaurantName: string, dateRange: string, date: string,
    items: seq<SaleItem>, categories: seq<CategorySummary>, summary: Totals)

  datatype Response = Success(data: ParsedData) | Failure(status: nat, error: string, debug: Option<Debug>)

  /** `db.getCostPrice(itemName).costPrice` over the store's inventory `inv`. */
  function Resolver(inv: seq<ApiDb.InventoryItem>): string -> real {
    (name: string) => ApiDb.CostPrice(inv, name).costPrice
  }

  /** An item name that no inventory name matches, either way round, is priced at 0, so its
      whole net amount is profit, at a margin of 100 percent when it sold for anything. */
  lemma UnknownNameIsFree(inv: seq<ApiDb.InventoryItem>, name: string, category: string, f: Figures)
    requires ApiDb.Unknown(inv, ApiDb.Query(name))
    ensures var r := PriceItem(name, category, f, Resolver(inv)(name));
            r.totalCost == 0.0 && r.profit == f.netAmount &&
            r.margin == (if f.netAmount > 0.0 then 100.0 else 0.0)
  {
    UnknownCostsNothing(inv, name);
    UnmatchedItem(name, category, f);
  }

  lemma UnknownCostsNothing(inv: seq<ApiDb.InventoryItem>, name: string)
    requires ApiDb.Unknown(inv, ApiDb.Query(name))
    ensures Resolver(inv)(name) == 0.0
  {
    ApiDb.UnknownNoOverlap(inv, ApiDb.Query(name));
    assert ApiDb.CostPrice(inv, name).costPrice == 0.0;
  }

  /** `String(rows[0]?.[0] || 'Unknown Restaurant')`. */
  function RestaurantName(rows: seq<Row>): (r: string)
    ensures !Truthy(CellAt(rows, 0, 0)) ==> r == "Unknown Restaurant"
    ensures CellAt(rows, 0, 0).Str? && CellAt(rows, 0, 0).s != "" ==> r == CellAt(rows, 0, 0).s
  {
    TextOr(CellAt(rows, 0, 0), "Unknown Restaurant")
  }

  /** `rows[i] || null`: a row that exists, even an empty one, is an array and truthy. */
  function Sample(rows: seq<Row>, i: nat): (r: Option<Row>)
    ensures r.Some? <==> i < |rows|
    ensures r.Some? ==> r.value == rows[i]
  {
    if i < |rows| then Some(rows[i]) else None
  }

  function NoItemsError(rows: seq<Row>, fileName: string): string {
    "No items found in Excel file. Total rows: " + NatText(|rows|) + ". File: " + fileName + ". Please check the file format."
  }

  /** The checks made before the sheet is read: a file is present, it is an Excel file by
      type or by name, and it has a first sheet. */
  function Precheck(file: Option<UploadedFile>): (r: Option<Response>)
    ensures r.None? <==> file.Some? && (file.value.mimeType in ExcelMimeTypes || Validation.HasExcelExtension(file.value.name)) &&
                         file.value.sheet.Some?
    ensures file.None? ==> r == Some(Failure(400, "No file uploaded", None))
  {
    if file.None? then Some(Failure(400, "No file uploaded", None))
    else if !(file.value.mimeType in ExcelMimeTypes) && !Validation.HasExcelExtension(file.value.name) then
      Some(Failure(400, "Invalid file type. Please upload an Excel file (.xlsx or .xls)", None))
    else if file.value.sheet.None? then Some(Failure(400, "No sheets found in Excel file", None))
    else None
  }

  /** The response assembled from the sheet `rows` once the row loop has collected `items`,
      the categories in first-seen `order` and their `buckets`. */
  function Respond(f: UploadedFile, rows: seq<Row>, items: seq<SaleItem>, order: seq<string>,
                   buckets: map<string, seq<SaleItem>>, today: string): Response
    requires forall k :: k in order ==> k in buckets
  {
    if items == [] then
      Failure(400, NoItemsError(rows, f.name),
              Some(Debug(|rows|, f.name, f.size, Sample(rows, 0), Sample(rows, 3), Sample(rows, 10))))
    else
      var e := Period(rows, today);
      Success(ParsedData(f.name, RestaurantName(rows), e.dateRange, e.date, items,
                         Summaries(order, buckets), Total(items)))
  }

  /** What the handler answers for `file`, with `cost` the store's cost lookup (`Resolver` of
      its inventory) and `today` the current date. */
  function ParseResponse(file: Option<UploadedFile>, cost: string -> real, today: string): Response {
    var pre := Precheck(file);
    if pre.Some? then pre.value
    else
      var rows := file.value.sheet.value;
      if |rows| < 5 then Failure(400, "Excel file is empty or has insufficient data", None)
      else
        var p := Run(LinesOf(rows), cost);
        RunKeys(LinesOf(rows), cost);
        Respond(file.value, rows, p.items, p.order, p.buckets, today)
  }

  /** The handler: the store's `getCostPrice` on the inventory `inv` prices the items. */
  method Post(file: Option<UploadedFile>, inv: seq<ApiDb.InventoryItem>, today: string) returns (r: Response)
    ensures r == ParseResponse(file, Resolver(inv), today)
  {
    r := Handle(file, Resolver(inv), today);
  }

  /** The body of the handler, with `cost` the lookup that prices each item: the checks, then
      the row loop, then the summaries. */
  method Handle(file: Option<UploadedFile>, cost: string -> real, today: string) returns (r: Response)
    ensures r == ParseResponse(file, cost, today)
  {
    var pre := Precheck(file);
    if pre.Some? {
      return pre.value;
    }
    var f := file.value;
    var rows := f.sheet.value;
    if |rows| < 5 {
      return Failure(400, "Excel file is empty or has insufficient data", None);
    }
    var items, order, buckets := RowPass(rows, cost);
    RunKeys(LinesOf(rows), cost);
    r := Respond(f, rows, items, order, buckets, today);
  }

  /** A sheet of fewer than five rows is refused before any row is read. */
  lemma ShortSheetRefused(f: UploadedFile, cost: string -> real, today: string)
    requires Precheck(Some(f)).None? && |f.sheet.value| < 5
    ensures ParseResponse(Some(f), cost, today) == Failure(400, "Excel file is empty or has insufficient data", None)
  {
  }

  /** A sheet of five rows or more with no item row is refused, and the debug object reports
      its row count. */
  lemma NoItemsRefused(f: UploadedFile, cost: string -> real, today: string)
    requires Precheck(Some(f)).None? && |f.sheet.value| >= 5
    requires forall i :: 0 <= i < |f.sheet.value| ==> !Classify(f.sheet.value[i]).Item?
    ensures var r := ParseResponse(Some(f), cost, today);
            r.Failure? && r.status == 400 && r.debug.Some? && r.debug.value.totalRows == |f.sheet.value|
  {
    var rows := f.sheet.value;
    NoItemLines(rows, cost);
    RunItems(LinesOf(rows), cost);
  }

  /** Rows none of which is an item row leave no item. */
  lemma {:induction false} NoItemLines(rows: seq<Row>, cost: string -> real)
    requires forall i :: 0 <= i < |rows| ==> !Classify(rows[i]).Item?
    ensures ItemsOf(LinesOf(rows), cost) == []
  {
    if rows != [] {
      var init := rows[..|rows| - 1];
      NoItemLines(init, cost);
      assert LinesOf(rows) == LinesOf(init) + [Classify(rows[|rows| - 1])];
      assert LinesOf(rows)[..|rows| - 1] == LinesOf(init);
    }
  }

  /** A successful parse had a file with at least five rows and some item row; its items are
      the item lines in order, each filed under the latest category heading before it, and
      its category summaries add up to its summary. */
  lemma ParsedReport(file: Option<UploadedFile>, cost: string -> real, today: string)
    requires ParseResponse(file, cost, today).Success?
    ensures file.Some? && file.value.sheet.Some? && |file.value.sheet.value| >= 5
    ensures var d, lines := ParseResponse(file, cost, today).data, LinesOf(file.value.sheet.value);
            d.items != [] && d.items == ItemsOf(lines, cost) &&
            d.summary == Total(d.items) &&
            Sum(d.categories, RevenueOf) == d.summary.totalRevenue &&
            Sum(d.categories, CategoryCostOf) == d.summary.totalCost &&
            Sum(d.categories, CategoryTaxOf) == d.summary.totalTax &&
            Sum(d.categories, ItemCountOf) == d.summary.totalItems as real &&
            Sum(d.categories, CategoryQuantityOf) == d.summary.totalOrders &&
            Sum(d.categories, CategoryProfitOf) == d.summary.totalProfit
  {
    var lines := LinesOf(file.value.sheet.value);
    RunItems(lines, cost);
    PassCategoriesAddUp(lines, cost);
  }
}
