/** `POST /api/upload` (app/api/upload/route.ts): the parse of `/api/parse` without its file
    type and row count checks, followed by `db.addSalesRecord` of the parsed report. */
module UploadRoute {
  import opened Wrappers
  import opened Cells
  import opened Money
  import opened Sales
  import opened ReportRows
  import opened DateRange
  import ApiDb
  import ParseRoute

  /** The `record` object of the answer. */
  datatype Saved = Saved(
    id: int, fileName: string, restaurantName: string, dateRange: string, date: string,
    categories: seq<CategorySummary>, summary: Totals)

  datatype UploadResponse = Stored(record: Saved) | Refused(status: nat, error: string)

  /** What the handler decides to do: refuse with a message, or save these fields. */
  datatype Plan = Reject(error: string) | Save(fields: ApiDb.SalesFields)

  /** The fields handed to `addSalesRecord` for a sheet whose row loop collected `items`,
      `order` and `buckets`. */
  function FieldsOf(fileName: string, rows: seq<Row>, items: seq<SaleItem>, order: seq<string>,
                    buckets: map<string, seq<SaleItem>>, today: string): (r: ApiDb.SalesFields)
    requires forall k :: k in order ==> k in buckets
    ensures r.fileName == fileName && r.items == items && r.categories == Summaries(order, buckets)
    ensures r.restaurantName == ParseRoute.RestaurantName(rows)
    ensures r.dateRange == Period(rows, today).dateRange && r.date == Period(rows, today).date
    ensures var t := Total(items);
            r.totalRevenue == t.totalRevenue && r.totalCost == t.totalCost && r.totalProfit == t.totalProfit &&
            r.totalTax == t.totalTax && r.totalOrders == t.totalOrders && r.netMargin == t.netMargin
  {
    var e := Period(rows, today);
    var t := Total(items);
    ApiDb.SalesFields(fileName, e.date, e.dateRange, ParseRoute.RestaurantName(rows), items,
                      Summaries(order, buckets), t.totalRevenue, t.totalCost, t.totalProfit,
                      t.totalTax, t.totalOrders, t.netMargin)
  }

  /** The handler's decision for `file`, items priced by `cost`, on the date `today`. */
  function PlanOf(file: Option<ParseRoute.UploadedFile>, cost: string -> real, today: string): Plan {
    if file.None? then Reject("No file provided")
    else if file.value.sheet.None? then Reject("No sheets found in Excel file")
    else
      var rows := file.value.sheet.value;
      var p := Run(LinesOf(rows), cost);
      RunKeys(LinesOf(rows), cost);
      if p.items == [] then Reject("No items found in Excel file")
      else Save(FieldsOf(file.value.name, rows, p.items, p.order, p.buckets, today))
  }

  /** The answer for a saved record: its id and names, the category summaries and a summary
      recomputed from its items. */
  function Answer(r: ApiDb.SalesRecord): UploadResponse {
    Stored(Saved(r.id, r.fields.fileName, r.fields.restaurantName, r.fields.dateRange, r.fields.date,
                 r.fields.categories, Total(r.fields.items)))
  }

  /** The answer for a decision: the refusal with its message, or the saved record. */
  function Reply(plan: Plan, id: int, now: int): UploadResponse {
    match plan
    case Reject(error) => Refused(400, error)
    case Save(fields) => Answer(ApiDb.SalesRecord(id, fields, now))
  }

  /** The records a decision appends to the store: none, or the one saved under `id`. */
  function Added(plan: Plan, id: int, now: int): seq<ApiDb.SalesRecord> {
    match plan
    case Reject(_) => []
    case Save(fields) => [ApiDb.SalesRecord(id, fields, now)]
  }

  /** The handler: parse, pricing every item with `cost`, which prices each name as the
      store's `getCostPrice` does on its inventory, then save. A refusal leaves the store as
      it was; a save appends exactly one record, under the next id. */
  method Post(db: ApiDb.Db, file: Option<ParseRoute.UploadedFile>, cost: string -> real, today: string, now: int)
    returns (r: UploadResponse)
    requires db.Valid()
    requires forall name :: cost(name) == ApiDb.CostPrice(db.inventory, name).costPrice
    modifies db
    ensures db.Valid()
    ensures db.inventory == old(db.inventory) && db.inventoryIdCounter == old(db.inventoryIdCounter)
    ensures var plan := PlanOf(file, cost, today);
            r == Reply(plan, old(db.salesIdCounter), now) &&
            db.salesRecords == old(db.salesRecords) + Added(plan, old(db.salesIdCounter), now) &&
            db.salesIdCounter == old(db.salesIdCounter) + (if plan.Save? then 1 else 0)
    ensures PlanOf(file, cost, today).Save? && old(db.Consecutive()) ==> db.Consecutive()
  {
    var plan := Decide(file, cost, today);
    r := Commit(db, plan, now);
  }

  /** The save part of the handler: a refusal answers with its message and leaves the store
      alone; a decision to save appends the record with `addSalesRecord` and answers with it. */
  method Commit(db: ApiDb.Db, plan: Plan, now: int) returns (r: UploadResponse)
    requires db.Valid()
    modifies db
    ensures db.Valid()
    ensures db.inventory == old(db.inventory) && db.inventoryIdCounter == old(db.inventoryIdCounter)
    ensures r == Reply(plan, old(db.salesIdCounter), now)
    ensures db.salesRecords == old(db.salesRecords) + Added(plan, old(db.salesIdCounter), now)
    ensures db.salesIdCounter == old(db.salesIdCounter) + (if plan.Save? then 1 else 0)
    ensures plan.Save? && old(db.Consecutive()) ==> db.Consecutive()
  {
    if plan.Reject? {
      assert Added(plan, db.salesIdCounter, now) == [];
      return Refused(400, plan.error);
    }
    var record := db.AddSalesRecord(plan.fields, now);
    assert Added(plan, old(db.salesIdCounter), now) == [record];
    r := Answer(record);
  }

  /** The parse part of the handler, with `cost` the lookup that prices each item: the two
      checks on the upload, the row loop, and the check that it found an item. */
  method Decide(file: Option<ParseRoute.UploadedFile>, cost: string -> real, today: string) returns (plan: Plan)
    ensures plan == PlanOf(file, cost, today)
  {
    if file.None? {
      return Reject("No file provided");
    }
    var f := file.value;
    if f.sheet.None? {
      return Reject("No sheets found in Excel file");
    }
    var rows := f.sheet.value;
    var items, order, buckets := RowPass(rows, cost);
    RunKeys(LinesOf(rows), cost);
    if items == [] {
      return Reject("No items found in Excel file");
    }
    plan := Save(FieldsOf(f.name, rows, items, order, buckets, today));
  }

  /** On a file that `/api/parse` accepts as an Excel file with at least five rows, the upload
      saves exactly when the parse succeeds, and it saves what the parse returns. */
  lemma UploadSavesWhatParseReturns(f: ParseRoute.UploadedFile, cost: string -> real, today: string)
    requires ParseRoute.Precheck(Some(f)).None? && |f.sheet.value| >= 5
    ensures PlanOf(Some(f), cost, today).Save? <==> ParseRoute.ParseResponse(Some(f), cost, today).Success?
    ensures PlanOf(Some(f), cost, today).Save? ==>
              var s, d := PlanOf(Some(f), cost, today).fields, ParseRoute.ParseResponse(Some(f), cost, today).data;
              s.fileName == d.fileName && s.restaurantName == d.restaurantName &&
              s.dateRange == d.dateRange && s.date == d.date && s.items == d.items &&
              s.categories == d.categories && Total(s.items) == d.summary
  {
  }

  /** The upload takes files that the parse refuses: an upload of any name and type, or with
      fewer than five rows, is saved as soon as it has an item row. */
  lemma UploadSkipsParseChecks(f: ParseRoute.UploadedFile, cost: string -> real, today: string)
    requires f.sheet.Some? && ItemsOf(LinesOf(f.sheet.value), cost) != []
    ensures PlanOf(Some(f), cost, today).Save?
    ensures PlanOf(Some(f), cost, today).fields.items == ItemsOf(LinesOf(f.sheet.value), cost)
  {
    RunItems(LinesOf(f.sheet.value), cost);
  }
}
