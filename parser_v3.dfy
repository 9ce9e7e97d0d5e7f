/** lib/excel-parser-v3.ts: the client-side parser. Its row loop is the shared row engine of
    the report routes; it prices items from its own keyed cost table with a three-tier lookup,
    keeps each category's items in its summary, and reports a gross and a net profit that are
    the same number. */
module ParserV3 {
  import opened Wrappers
  import opened Strings
  import opened Cells
  import opened Money
  import opened Grouping
  import opened Lookup
  import opened Sales
  import opened ReportRows
  import opened DateRange

  /** One entry of the `INVENTORY` object: its key, unit cost and category. */
  datatype CostEntry = CostEntry(key: string, cost: real, category: string)

  function KeyOf(e: CostEntry): string { e.key }

  /** `INVENTORY`, in the insertion order `Object.entries` visits it. */
  const Inventory: seq<CostEntry> := [
    CostEntry("Non Veg Sweet Corn Soup", 100.0, "Dine In Food Menu"),
    CostEntry("Crispy Corn", 124.0, "Dine In Food Menu"),
    CostEntry("Mushroom Salt And Pepper", 149.0, "Dine In Food Menu"),
    CostEntry("Chilli Chicken", 175.0, "Dine In Food Menu"),
    CostEntry("Chilli Prawns", 224.0, "Dine In Food Menu"),
    CostEntry("Dragon Chicken", 174.0, "Dine In Food Menu"),
    CostEntry("Chilli Egg", 124.0, "Dine In Food Menu"),
    CostEntry("Chicken Lollipop", 200.0, "Dine In Food Menu"),
    CostEntry("Chicken Drum Sticks", 199.0, "Dine In Food Menu"),
    CostEntry("Appolo Fish", 149.0, "Dine In Food Menu"),
    CostEntry("Pepper Chicken", 199.0, "Dine In Food Menu"),
    CostEntry("Chilli Loose Prawn", 224.0, "Dine In Food Menu"),
    CostEntry("Chicken Roast", 174.0, "Dine In Food Menu"),
    CostEntry("Chicken 65", 174.0, "Dine In Food Menu"),
    CostEntry("Salt French Fries", 124.0, "Dine In Food Menu"),
    CostEntry("Kaju Fry", 149.0, "Dine In Food Menu"),
    CostEntry("Crunchi Chicken", 199.0, "Dine In Food Menu"),
    CostEntry("Veg Fried Rice", 149.0, "Dine In Food Menu"),
    CostEntry("Egg Fried Rice", 149.0, "Dine In Food Menu"),
    CostEntry("Konaseema Boneless Biriyani", 199.0, "Dine In Food Menu"),
    CostEntry("Green Salda", 124.0, "Dine In Food Menu"),
    CostEntry("butter garlice prwans", 224.0, "Dine In Food Menu"),
    CostEntry("kaju chicken", 199.0, "Dine In Food Menu"),
    CostEntry("mixed non veg fried rice", 249.0, "Dine In Food Menu"),
    CostEntry("Coke", 48.0, "Bar Menu"),
    CostEntry("Screwdriver", 399.0, "Bar Menu"),
    CostEntry("Kf Strong", 249.0, "Bar Menu"),
    CostEntry("Kf Ultra", 274.0, "Bar Menu"),
    CostEntry("Cranberry (premium)", 158.0, "Bar Menu"),
    CostEntry("Blue Lagoon", 124.0, "Bar Menu"),
    CostEntry("Orange Mojito", 124.0, "Bar Menu"),
    CostEntry("Mango Mojito", 124.0, "Bar Menu"),
    CostEntry("Pineapple Mojito", 124.0, "Bar Menu"),
    CostEntry("Mint & Mango", 124.0, "Bar Menu"),
    CostEntry("Fresh Lemon Soda", 60.0, "Bar Menu"),
    CostEntry("Absolut (30 Ml)", 174.0, "Bar Menu"),
    CostEntry("Jocobs Greek (150 Ml)", 649.0, "Bar Menu"),
    CostEntry("Black Dog (30 Ml)", 174.0, "Bar Menu"),
    CostEntry("MC 1 QUTR", 150.0, "Bar Menu"),
    CostEntry("Heineken Tin", 224.0, "Bar Menu"),
    CostEntry("Virgin Mojito", 124.0, "Bar Menu"),
    CostEntry("M.m Green 30ml", 99.0, "Bar Menu"),
    CostEntry("Water Bottle", 30.0, "Bar Menu"),
    CostEntry("Thumsup", 60.0, "Bar Menu"),
    CostEntry("Sprit", 60.0, "Bar Menu"),
    CostEntry("Red Bull", 124.0, "Bar Menu"),
    CostEntry("Budweiser", 324.0, "Bar Menu"),
    CostEntry("Budweiser Magnum", 350.0, "Bar Menu"),
    CostEntry("Budweiser 500ml", 249.0, "Bar Menu"),
    CostEntry("spl non veg fried rice", 199.0, "Others"),
    CostEntry("spl veg fried rice", 174.0, "Others")
  ]

  /** `getCostPrice`: the three-tier lookup over `INVENTORY`. */
  function GetCostPrice(itemName: string): real {
    CostPrice(Inventory, itemName)
  }

  /** `getCostPrice(itemName)` over the table `table`: the cost of the entry the three tiers
      of `KeyedIndex` pick for the trimmed name, and 0 when no key overlaps it. */
  function CostPrice(table: seq<CostEntry>, itemName: string): (r: real)
    ensures r == 0.0 || exists i :: 0 <= i < |table| && r == table[i].cost
    ensures (forall j :: 0 <= j < |table| ==> !Overlaps(table[j].key, Lower(Trim(itemName)))) ==> r == 0.0
  {
    var k := KeyedIndex(table, KeyOf, itemName);
    NoTier(table, KeyOf, itemName);
    if k.Some? then table[k.value].cost else 0.0
  }

  /** The entry whose key is exactly the trimmed name wins (the first, should keys repeat). */
  lemma ExactKeyCost(table: seq<CostEntry>, itemName: string, i: nat)
    requires i < |table| && table[i].key == Trim(itemName)
    requires forall j :: 0 <= j < i ==> table[j].key != Trim(itemName)
    ensures CostPrice(table, itemName) == table[i].cost
  {
    ExactTier(table, KeyOf, itemName, i);
  }

  /** With no exact key, the first key equal to the name ignoring case wins. */
  lemma CaseInsensitiveCost(table: seq<CostEntry>, itemName: string, i: nat)
    requires forall j :: 0 <= j < |table| ==> table[j].key != Trim(itemName)
    requires i < |table| && SameName(table[i].key, Lower(Trim(itemName)))
    requires forall j :: 0 <= j < i ==> !SameName(table[j].key, Lower(Trim(itemName)))
    ensures CostPrice(table, itemName) == table[i].cost
  {
    CaseTier(table, KeyOf, itemName, i);
  }

  /** With no key equal to the name even ignoring case, the first key that contains the name
      or is contained in it, ignoring case, wins. */
  lemma PartialMatchCost(table: seq<CostEntry>, itemName: string, i: nat)
    requires forall j :: 0 <= j < |table| ==> !SameName(table[j].key, Lower(Trim(itemName)))
    requires i < |table| && Overlaps(table[i].key, Lower(Trim(itemName)))
    requires forall j :: 0 <= j < i ==> !Overlaps(table[j].key, Lower(Trim(itemName)))
    ensures CostPrice(table, itemName) == table[i].cost
  {
    OverlapTier(table, KeyOf, itemName, i);
  }

  /** The test that picks an entry by its exact key. */
  function HasKey(name: string): CostEntry -> bool {
    (e: CostEntry) => e.key == name
  }

  /** `getInventoryItem(name)`: the entry with exactly that key (no trimming, no case folding),
      or `null`. */
  function InventoryItem(table: seq<CostEntry>, name: string): (r: Option<CostEntry>)
    ensures r.None? <==> forall i :: 0 <= i < |table| ==> table[i].key != name
    ensures r.Some? ==> exists i :: 0 <= i < |table| && r.value == table[i] && table[i].key == name
  {
    var k := FirstIndex(table, HasKey(name));
    if k.Some? then Some(table[k.value]) else None
  }

  /** One element of `categories`: the summary of a bucket together with the bucket. */
  datatype CategoryWithItems = CategoryWithItems(
    name: string, items: seq<SaleItem>, totalQuantity: real, totalRevenue: real, totalCost: real,
    totalProfit: real, totalTax: real, avgMargin: real)

  function CategoryRevenue(c: CategoryWithItems): real { c.totalRevenue }
  function CategoryCost(c: CategoryWithItems): real { c.totalCost }
  function CategoryTax(c: CategoryWithItems): real { c.totalTax }
  function CategoryQuantity(c: CategoryWithItems): real { c.totalQuantity }
  function CategoryProfit(c: CategoryWithItems): real { c.totalProfit }
  function CategorySize(c: CategoryWithItems): real { |c.items| as real }
  function CategoryName(c: CategoryWithItems): string { c.name }

  /** The `summary` object. */
  datatype Summary = Summary(
    totalItems: nat, totalQuantity: real, totalRevenue: real, totalCost: real, grossProfit: real,
    totalTax: real, netProfit: real, netMargin: real)

  datatype ParsedExcelData = ParsedExcelData(
    restaurantName: Cell, dateRange: string, date: string, categories: seq<CategoryWithItems>,
    items: seq<SaleItem>, summary: Summary)

  /** A resolved parse, a rejected one with the message of the `Error` thrown, or the
      `TypeError` of calling `match` on a number read as the date header. */
  datatype Outcome = Parsed(data: ParsedExcelData) | Rejected(message: string) | HeaderNotText

  /** One bucket's summary: the same figures as the report routes' summary of a bucket, with
      the bucket itself in place of its size. */
  function CategoryFor(name: string, bucket: seq<SaleItem>): (c: CategoryWithItems)
    ensures c.name == name && c.items == bucket
    ensures c.totalQuantity == Sum(bucket, QuantityOf) && c.totalRevenue == Sum(bucket, Net)
    ensures c.totalCost == Sum(bucket, CostOf) && c.totalTax == Sum(bucket, TaxOf)
    ensures c.totalProfit == c.totalRevenue - c.totalCost
    ensures c.avgMargin == OneDecimalMargin(c.totalProfit, c.totalRevenue)
  {
    var s := Summarize(name, bucket);
    CategoryWithItems(name, bucket, s.totalQuantity, s.totalRevenue, s.totalCost, s.totalProfit, s.totalTax, s.avgMargin)
  }

  /** The summaries of the buckets, in key order. */
  function Categories(order: seq<string>, buckets: map<string, seq<SaleItem>>): (r: seq<CategoryWithItems>)
    requires forall k :: k in order ==> k in buckets
    ensures |r| == |order|
    ensures forall i :: 0 <= i < |order| ==> r[i] == CategoryFor(order[i], buckets[order[i]])
  {
    if order == [] then []
    else Categories(order[..|order| - 1], buckets) + [CategoryFor(order[|order| - 1], buckets[order[|order| - 1]])]
  }

  /** The report summary: the item count, the sums over all items, a gross profit before tax,
      a net profit equal to it, and the net profit's one-decimal margin. */
  function SummaryOf(items: seq<SaleItem>): (s: Summary)
    ensures s.totalItems == |items| && s.totalQuantity == Sum(items, QuantityOf)
    ensures s.totalRevenue == Sum(items, Net) && s.totalCost == Sum(items, CostOf)
    ensures s.totalTax == Sum(items, TaxOf)
    ensures s.grossProfit == s.totalRevenue - s.totalCost && s.netProfit == s.grossProfit
    ensures s.netMargin == OneDecimalMargin(s.netProfit, s.totalRevenue)
  {
    var t := Total(items);
    Summary(t.totalItems, t.totalOrders, t.totalRevenue, t.totalCost, t.totalProfit, t.totalTax,
            t.totalProfit, t.netMargin)
  }

  /** `rows[0]?.[0] || 'Unknown'`, kept as the cell it is: a number stays a number. */
  function RestaurantCell(rows: seq<Row>): (c: Cell)
    ensures Truthy(CellAt(rows, 0, 0)) ==> c == CellAt(rows, 0, 0)
    ensures !Truthy(CellAt(rows, 0, 0)) ==> c == Str("Unknown")
  {
    if Truthy(CellAt(rows, 0, 0)) then CellAt(rows, 0, 0) else Str("Unknown")
  }

  /** `rows[1]?.[0] || ''` as the text handed to `extractDateRange`: a falsy cell gives the
      empty string, a non-empty string itself, and a non-zero number no text at all. */
  function HeaderText(rows: seq<Row>): (r: Option<string>)
    ensures !Truthy(CellAt(rows, 1, 0)) ==> r == Some("")
    ensures CellAt(rows, 1, 0).Str? && CellAt(rows, 1, 0).s != "" ==> r == Some(CellAt(rows, 1, 0).s)
    ensures r.None? <==> CellAt(rows, 1, 0).Num? && CellAt(rows, 1, 0).n != 0.0
  {
    var c := CellAt(rows, 1, 0);
    if !Truthy(c) then Some("") else if c.Str? then Some(c.s) else None
  }

  const NoItemsMessage := "No items found in Excel file. Please check the file format."

  /** The parse of the decoded first sheet (`None` when the workbook has none), items priced
      by `cost`, with `today` the fallback date. */
  function Parse(sheet: Option<seq<Row>>, cost: string -> real, today: string): Outcome {
    if sheet.None? then Rejected("No sheets found in Excel file")
    else if sheet.value == [] then Rejected("Excel file is empty")
    else
      var rows := sheet.value;
      var h := HeaderText(rows);
      if h.None? then HeaderNotText
      else
        var e := ExtractDateRange(h.value, today);
        var p := Run(LinesOf(rows), cost);
        RunKeys(LinesOf(rows), cost);
        if p.items == [] then Rejected(NoItemsMessage)
        else Parsed(ParsedExcelData(RestaurantCell(rows), e.dateRange, e.date,
                                    Categories(p.order, p.buckets), p.items, SummaryOf(p.items)))
  }

  /** The `for … of categoryMap.entries()` loop that pushes one summary per bucket. */
  method BuildCategories(order: seq<string>, buckets: map<string, seq<SaleItem>>) returns (cs: seq<CategoryWithItems>)
    requires forall k :: k in order ==> k in buckets
    ensures cs == Categories(order, buckets)
  {
    cs := [];
    var i := 0;
    while i < |order|
      invariant 0 <= i <= |order|
      invariant cs == Categories(order[..i], buckets)
    {
      assert order[..i + 1][..i] == order[..i];
      cs := cs + [CategoryFor(order[i], buckets[order[i]])];
      i := i + 1;
    }
    assert order[..i] == order;
  }

  /** `parseExcelFile` once the workbook is decoded: the checks, the row loop, the category
      loop and the summary, with the items priced by `GetCostPrice`. */
  method ParseExcelFile(sheet: Option<seq<Row>>, today: string) returns (r: Outcome)
    ensures r == Parse(sheet, GetCostPrice, today)
  {
    var cost := GetCostPrice;
    if sheet.None? {
      return Rejected("No sheets found in Excel file");
    }
    var rows := sheet.value;
    if rows == [] {
      return Rejected("Excel file is empty");
    }
    var h := HeaderText(rows);
    if h.None? {
      return HeaderNotText;
    }
    var e := ExtractDateRange(h.value, today);
    var items, order, buckets := RowPass(rows, cost);
    RunKeys(LinesOf(rows), cost);
    if items == [] {
      return Rejected(NoItemsMessage);
    }
    var categories := BuildCategories(order, buckets);
    r := Parsed(ParsedExcelData(RestaurantCell(rows), e.dateRange, e.date, categories, items, SummaryOf(items)));
  }

  /** The category totals are those of the report routes' summaries of the same buckets. */
  lemma CategoriesMatchSummaries(order: seq<string>, buckets: map<string, seq<SaleItem>>)
    requires forall k :: k in order ==> k in buckets
    ensures Sum(Categories(order, buckets), CategoryRevenue) == Sum(Summaries(order, buckets), RevenueOf)
    ensures Sum(Categories(order, buckets), CategoryCost) == Sum(Summaries(order, buckets), CategoryCostOf)
    ensures Sum(Categories(order, buckets), CategoryTax) == Sum(Summaries(order, buckets), CategoryTaxOf)
    ensures Sum(Categories(order, buckets), CategoryQuantity) == Sum(Summaries(order, buckets), CategoryQuantityOf)
    ensures Sum(Categories(order, buckets), CategoryProfit) == Sum(Summaries(order, buckets), CategoryProfitOf)
    ensures Sum(Categories(order, buckets), CategorySize) == Sum(Summaries(order, buckets), ItemCountOf)
  {
    var cs, ss := Categories(order, buckets), Summaries(order, buckets);
    forall i | 0 <= i < |cs|
      ensures CategoryRevenue(cs[i]) == RevenueOf(ss[i]) && CategoryCost(cs[i]) == CategoryCostOf(ss[i])
      ensures CategoryTax(cs[i]) == CategoryTaxOf(ss[i]) && CategoryQuantity(cs[i]) == CategoryQuantityOf(ss[i])
      ensures CategoryProfit(cs[i]) == CategoryProfitOf(ss[i]) && CategorySize(cs[i]) == ItemCountOf(ss[i])
    {
      assert cs[i] == CategoryFor(order[i], buckets[order[i]]) && ss[i] == Summarize(order[i], buckets[order[i]]);
    }
    SumPointwise(cs, CategoryRevenue, ss, RevenueOf);
    SumPointwise(cs, CategoryCost, ss, CategoryCostOf);
    SumPointwise(cs, CategoryTax, ss, CategoryTaxOf);
    SumPointwise(cs, CategoryQuantity, ss, CategoryQuantityOf);
    SumPointwise(cs, CategoryProfit, ss, CategoryProfitOf);
    SumPointwise(cs, CategorySize, ss, ItemCountOf);
  }

  /** A resolved parse holds the pass over its rows: its items, the summaries of its buckets
      and the summary of its items. */
  lemma ParsedPass(sheet: Option<seq<Row>>, cost: string -> real, today: string)
    requires Parse(sheet, cost, today).Parsed?
    ensures sheet.Some? && sheet.value != []
    ensures var d, p := Parse(sheet, cost, today).data, Run(LinesOf(sheet.value), cost);
            (forall k :: k in p.order ==> k in p.buckets) &&
            d.items == p.items && d.items != [] &&
            d.categories == Categories(p.order, p.buckets) && d.summary == SummaryOf(p.items)
  {
    RunKeys(LinesOf(sheet.value), cost);
  }

  /** Buckets that group the items give categories with distinct names, each holding exactly
      the items of its name, in order. */
  lemma CategoriesGrouped(items: seq<SaleItem>, order: seq<string>, buckets: map<string, seq<SaleItem>>)
    requires GroupedBy(items, order, buckets)
    ensures var cs := Categories(order, buckets);
            (forall i, j :: 0 <= i < j < |cs| ==> cs[i].name != cs[j].name) &&
            (forall i :: 0 <= i < |cs| ==> cs[i].items == Where(items, CategoryOf, cs[i].name))
  {
    var cs := Categories(order, buckets);
    forall i | 0 <= i < |cs| ensures cs[i].name == order[i] && cs[i].items == buckets[order[i]] {
    }
  }

  /** A resolved parse had a non-empty sheet with some item row. Its items are the item lines
      in order, each under the latest category heading before it; its categories have
      distinct names, each holding exactly the items of its name in order; and their item
      counts, quantities, revenue, cost, tax and profit add up to the summary's. */
  lemma ParsedReport(sheet: Option<seq<Row>>, cost: string -> real, today: string)
    requires Parse(sheet, cost, today).Parsed?
    ensures sheet.Some? && sheet.value != []
    ensures var d := Parse(sheet, cost, today).data;
            d.items != [] && d.items == ItemsOf(LinesOf(sheet.value), cost) &&
            (forall i, j :: 0 <= i < j < |d.categories| ==> d.categories[i].name != d.categories[j].name) &&
            (forall i :: 0 <= i < |d.categories| ==> d.categories[i].items == Where(d.items, CategoryOf, d.categories[i].name)) &&
            Sum(d.categories, CategoryRevenue) == d.summary.totalRevenue &&
            Sum(d.categories, CategoryCost) == d.summary.totalCost &&
            Sum(d.categories, CategoryTax) == d.summary.totalTax &&
            Sum(d.categories, CategorySize) == d.summary.totalItems as real &&
            Sum(d.categories, CategoryQuantity) == d.summary.totalQuantity &&
            Sum(d.categories, CategoryProfit) == d.summary.grossProfit
  {
    ParsedPass(sheet, cost, today);
    var lines := LinesOf(sheet.value);
    var p := Run(lines, cost);
    RunItems(lines, cost);
    RunGrouped(lines, cost);
    CategoriesGrouped(p.items, p.order, p.buckets);
    PassCategoriesAddUp(lines, cost);
    CategoriesMatchSummaries(p.order, p.buckets);
  }

  /** A non-zero number in the first cell of the second row makes the parse throw before any
      row is read. */
  lemma NumericHeaderThrows(rows: seq<Row>, cost: string -> real, today: string)
    requires rows != [] && CellAt(rows, 1, 0).Num? && CellAt(rows, 1, 0).n != 0.0
    ensures Parse(Some(rows), cost, today) == HeaderNotText
  {
  }

  /** The exact key beats an earlier key that the substring tier would pick: with the two
      Budweiser entries of the table in their order, a name that trims to "Budweiser Magnum"
      costs its own 350, not the 324 of "Budweiser", which it contains (`BudweiserOverlaps`). */
  lemma ExactKeyWins(name: string)
    requires Trim(name) == "Budweiser Magnum"
    ensures var table := [CostEntry("Budweiser", 324.0, "Bar Menu"), CostEntry("Budweiser Magnum", 350.0, "Bar Menu")];
            CostPrice(table, name) == 350.0
  {
    var table := [CostEntry("Budweiser", 324.0, "Bar Menu"), CostEntry("Budweiser Magnum", 350.0, "Bar Menu")];
    assert table[0].key != table[1].key by {
      assert |table[0].key| != |table[1].key|;
    }
    ExactKeyCost(table, name, 1);
  }

  /** "Budweiser" is contained in "Budweiser Magnum", ignoring case. */
  lemma BudweiserOverlaps()
    ensures Overlaps("Budweiser", Lower("Budweiser Magnum"))
  {
    assert "Budweiser" <= "Budweiser Magnum";
    LowerPrefix("Budweiser", "Budweiser Magnum");
  }
}
