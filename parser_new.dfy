/** `parseExcelFile` of lib/excel-parser-new.ts, the client-side parser with its own cost
    list: the header date of row 1, the row loop shared with the legacy parser, items priced
    by a case-insensitive exact name match against `DEFAULT_INVENTORY` (0 when no name
    matches), margins rounded to one decimal, and a refusal when no item row is found. */
module ParserNew {
  import opened Strings
  import opened Cells
  import opened Money
  import opened Wrappers
  import opened DateRange
  import Lookup
  import Sales
  import LegacyRows

  /** An entry of `DEFAULT_INVENTORY`. */
  datatype InventoryItem = InventoryItem(name: string, costPrice: real, category: string)

  const Inventory: seq<InventoryItem> := [
    InventoryItem("Non Veg Sweet Corn Soup", 100.0, "Soup"),
    InventoryItem("Crispy Corn", 124.0, "Appetizer"),
    InventoryItem("Mushroom Salt And Pepper", 149.0, "Appetizer"),
    InventoryItem("Chilli Chicken", 175.0, "Food"),
    InventoryItem("Chilli Prawns", 224.0, "Seafood"),
    InventoryItem("Dragon Chicken", 174.0, "Food"),
    InventoryItem("Chilli Egg", 124.0, "Food"),
    InventoryItem("Chicken Lollipop", 200.0, "Food"),
    InventoryItem("Chicken Drum Sticks", 199.0, "Food"),
    InventoryItem("Appolo Fish", 149.0, "Seafood"),
    InventoryItem("Pepper Chicken", 199.0, "Food"),
    InventoryItem("Chilli Loose Prawn", 224.0, "Seafood"),
    InventoryItem("Chicken Roast", 174.0, "Food"),
    InventoryItem("Chicken 65", 174.0, "Food"),
    InventoryItem("Salt French Fries", 124.0, "Sides"),
    InventoryItem("Kaju Fry", 149.0, "Appetizer"),
    InventoryItem("Crunchi Chicken", 199.0, "Food"),
    InventoryItem("Veg Fried Rice", 149.0, "Rice"),
    InventoryItem("Egg Fried Rice", 149.0, "Rice"),
    InventoryItem("Konaseema Boneless Biriyani", 199.0, "Biriyani"),
    InventoryItem("Green Salda", 124.0, "Salad"),
    InventoryItem("butter garlice prwans", 224.0, "Seafood"),
    InventoryItem("kaju chicken", 199.0, "Food"),
    InventoryItem("mixed non veg fried rice", 249.0, "Rice"),
    InventoryItem("spl non veg fried rice", 199.0, "Rice"),
    InventoryItem("spl veg fried rice", 174.0, "Rice"),
    InventoryItem("Coke", 48.0, "Beverage"),
    InventoryItem("Screwdriver", 399.0, "Cocktail"),
    InventoryItem("Kf Strong", 249.0, "Beer"),
    InventoryItem("Kf Ultra", 274.0, "Beer"),
    InventoryItem("Cranberry (premium)", 158.0, "Mocktail"),
    InventoryItem("Blue Lagoon", 124.0, "Mocktail"),
    InventoryItem("Orange Mojito", 124.0, "Mocktail"),
    InventoryItem("Mango Mojito", 124.0, "Mocktail"),
    InventoryItem("Pineapple Mojito", 124.0, "Mocktail"),
    InventoryItem("Mint & Mango", 124.0, "Mocktail"),
    InventoryItem("Fresh Lemon Soda", 60.0, "Beverage"),
    InventoryItem("Absolut (30 Ml)", 174.0, "Spirits"),
    InventoryItem("Jocobs Greek (150 Ml)", 649.0, "Wine"),
    InventoryItem("Black Dog (30 Ml)", 174.0, "Whisky"),
    InventoryItem("MC 1 QUTR", 150.0, "Spirits"),
    InventoryItem("Heineken Tin", 224.0, "Beer"),
    InventoryItem("Virgin Mojito", 124.0, "Mocktail"),
    InventoryItem("M.m Green 30ml", 99.0, "Spirits"),
    InventoryItem("Water Bottle", 30.0, "Beverage"),
    InventoryItem("Thumsup", 60.0, "Beverage"),
    InventoryItem("Sprit", 60.0, "Beverage"),
    InventoryItem("Red Bull", 124.0, "Energy Drink"),
    InventoryItem("Budweiser", 324.0, "Beer"),
    InventoryItem("Budweiser Magnum", 350.0, "Beer"),
    InventoryItem("Budweiser 500ml", 249.0, "Beer")
  ]

  /** `i => i.name.toLowerCase() === itemName.toLowerCase()`. */
  function NameIs(itemName: string): InventoryItem -> bool {
    (e: InventoryItem) => Lookup.SameName(e.name, Lower(itemName))
  }

  /** `getCostPrice` over `table` (`DEFAULT_INVENTORY`): the cost of the first entry whose name
      equals `itemName` but for letter case, and 0 when there is none; no partial match. */
  function CostPrice(table: seq<InventoryItem>, itemName: string): (r: real)
    ensures (forall i :: 0 <= i < |table| ==> Lower(table[i].name) != Lower(itemName)) ==> r == 0.0
    ensures r != 0.0 ==> exists i :: 0 <= i < |table| && Lower(table[i].name) == Lower(itemName) && r == table[i].costPrice
  {
    var k := Lookup.FirstIndex(table, NameIs(itemName));
    if k.Some? then table[k.value].costPrice else 0.0
  }

  /** The first entry whose name matches but for case sets the price. */
  lemma FirstMatchSetsPrice(table: seq<InventoryItem>, itemName: string, i: nat)
    requires i < |table| && Lower(table[i].name) == Lower(itemName)
    requires forall j :: 0 <= j < i ==> Lower(table[j].name) != Lower(itemName)
    ensures CostPrice(table, itemName) == table[i].costPrice
  {
    assert NameIs(itemName)(table[i]);
  }

  /** A name that only contains a listed name costs nothing: "Budweiser Magnum Extra" is not
      priced as "Budweiser" or "Budweiser Magnum". */
  lemma NoPartialMatch(table: seq<InventoryItem>, itemName: string)
    requires table == [InventoryItem("Budweiser", 324.0, "Beer"), InventoryItem("Budweiser Magnum", 350.0, "Beer")]
    requires itemName == "Budweiser Magnum Extra"
    ensures CostPrice(table, itemName) == 0.0
  {
    assert |table[0].name| == 9 && |table[1].name| == 16 && |itemName| == 22;
  }

  /** The `SaleItem` of this parser. */
  datatype SaleItem = SaleItem(
    itemName: string, category: string, quantity: real, costPrice: real,
    netAmount: real, tax: real, profit: real, margin: real)

  function Net(i: SaleItem): real { i.netAmount }
  function TaxOf(i: SaleItem): real { i.tax }
  function QuantityOf(i: SaleItem): real { i.quantity }
  function ProfitOf(i: SaleItem): real { i.profit }
  function ItemCost(i: SaleItem): real { i.costPrice * i.quantity }

  /** One item row priced at `costPrice` a unit: the profit is what the net amount leaves
      after the unit cost times the quantity, and the margin is that profit as a percentage of
      the net amount, to one decimal. */
  function PriceItem(name: string, category: string, f: Sales.Figures, costPrice: real): (r: SaleItem)
    ensures r.itemName == name && r.category == category && r.costPrice == costPrice
    ensures r.quantity == f.quantity && r.netAmount == f.netAmount && r.tax == f.tax
    ensures r.profit + ItemCost(r) == r.netAmount
    ensures r.margin == OneDecimalMargin(r.profit, r.netAmount)
  {
    var profit := f.netAmount - costPrice * f.quantity;
    SaleItem(name, category, f.quantity, costPrice, f.netAmount, f.tax, profit, OneDecimalMargin(profit, f.netAmount))
  }

  /** How the loop records an item row: priced with `getCostPrice` over `table`. */
  function Price(table: seq<InventoryItem>): (string, string, Sales.Figures) -> SaleItem {
    (name: string, category: string, f: Sales.Figures) => PriceItem(name, category, f, CostPrice(table, name))
  }

  datatype ParsedExcelData = ParsedExcelData(
    dateRange: string, date: string, items: seq<SaleItem>,
    totalRevenue: real, totalCost: real, totalProfit: real, totalOrders: real, totalTax: real,
    grossRevenue: real, netMargin: real)

  /** A resolved promise, or a rejected one with the error's message. */
  datatype Outcome = Parsed(data: ParsedExcelData) | Rejected(message: string)

  const NoItemsMessage := "No items found in Excel file. Please check the format."

  /** The resolved object for the header read `e` and the loop's items, revenue and tax. */
  function Report(e: Extracted, items: seq<SaleItem>, revenue: real, tax: real): ParsedExcelData {
    var totalCost := Sum(items, ItemCost);
    var netProfit := (revenue - totalCost) - tax;
    ParsedExcelData(e.dateRange, e.date, items, revenue, totalCost, netProfit,
                    Sum(items, QuantityOf), tax, revenue, Percent(netProfit, revenue))
  }

  /** `parseExcelFile` on the decoded first sheet `rows`, prices from `table`
      (`DEFAULT_INVENTORY` is `Inventory`), with `today` the fallback date. */
  function Parse(rows: seq<Row>, table: seq<InventoryItem>, today: string): Outcome {
    var p := LegacyRows.Run(LegacyRows.LinesOf(rows), Price(table));
    if p.items == [] then Rejected(NoItemsMessage)
    else Parsed(Report(Period(rows, today), p.items, p.revenue, p.tax))
  }

  /** `parseExcelFile`: the parse with the items priced from `DEFAULT_INVENTORY`. */
  method ParseExcelFile(rows: seq<Row>, today: string) returns (r: Outcome)
    ensures r == Parse(rows, Inventory, today)
  {
    var table := Inventory;
    var e := Period(rows, today);
    var items, revenue, tax := LegacyRows.RowLoop(rows, Price(table));
    if items == [] {
      return Rejected(NoItemsMessage);
    }
    r := Parsed(Report(e, items, revenue, tax));
  }

  /** Recording an item keeps its net amount and tax. */
  lemma PriceKeepsFigures(table: seq<InventoryItem>)
    ensures forall n: string, c: string, f: Sales.Figures :: Net(Price(table)(n, c, f)) == f.netAmount && TaxOf(Price(table)(n, c, f)) == f.tax
  {
  }

  /** The items' profits add up to their net amounts less their costs. */
  lemma {:induction false} ProfitsAddUp(items: seq<SaleItem>)
    requires forall i :: 0 <= i < |items| ==> items[i].profit + ItemCost(items[i]) == items[i].netAmount
    ensures Sum(items, ProfitOf) == Sum(items, Net) - Sum(items, ItemCost)
  {
    if items != [] {
      ProfitsAddUp(items[..|items| - 1]);
    }
  }

  /** Every item the loop records over `table` is priced by `PriceItem` at its name's cost. */
  predicate PricedFrom(table: seq<InventoryItem>, item: SaleItem) {
    item.profit + ItemCost(item) == item.netAmount &&
    item.costPrice == CostPrice(table, item.itemName) &&
    item.margin == OneDecimalMargin(item.profit, item.netAmount)
  }

  lemma {:induction false} ItemsPriced(lines: seq<LegacyRows.Line>, table: seq<InventoryItem>)
    ensures var items := LegacyRows.ItemsOf(lines, Price(table));
            forall i :: 0 <= i < |items| ==> PricedFrom(table, items[i])
  {
    if lines != [] {
      var init, l := lines[..|lines| - 1], lines[|lines| - 1];
      ItemsPriced(init, table);
      var before := LegacyRows.ItemsOf(init, Price(table));
      assert forall j :: 0 <= j < |before| ==> PricedFrom(table, LegacyRows.ItemsOf(init, Price(table))[j]);
      if l.Item? {
        var item := Price(table)(l.name, LegacyRows.LatestHeading(init), l.figures);
        var items := before + [item];
        assert PricedFrom(table, item);
        forall i | 0 <= i < |items| ensures PricedFrom(table, items[i]) {
          if i < |before| {
            assert items[i] == before[i];
          }
        }
      } else {
        assert LegacyRows.ItemsOf(lines, Price(table)) == before + [];
      }
    }
  }

  /** A resolved parse had some item row and is the report of the loop's pass. */
  lemma ParsedPass(rows: seq<Row>, table: seq<InventoryItem>, today: string)
    requires Parse(rows, table, today).Parsed?
    ensures var p := LegacyRows.Run(LegacyRows.LinesOf(rows), Price(table));
            p.items != [] && p.items == LegacyRows.ItemsOf(LegacyRows.LinesOf(rows), Price(table)) &&
            p.revenue == Sum(p.items, Net) && p.tax == Sum(p.items, TaxOf) &&
            Parse(rows, table, today).data == Report(Period(rows, today), p.items, p.revenue, p.tax)
  {
    PriceKeepsFigures(table);
    LegacyRows.RunItems(LegacyRows.LinesOf(rows), Price(table), Net, TaxOf);
  }

  /** What the report of a pass states about its items. */
  lemma ReportTotals(e: Extracted, items: seq<SaleItem>)
    requires forall i :: 0 <= i < |items| ==> items[i].profit + ItemCost(items[i]) == items[i].netAmount
    ensures var d := Report(e, items, Sum(items, Net), Sum(items, TaxOf));
            d.totalRevenue == Sum(d.items, Net) && d.grossRevenue == d.totalRevenue &&
            d.totalTax == Sum(d.items, TaxOf) && d.totalCost == Sum(d.items, ItemCost) &&
            d.totalOrders == Sum(d.items, QuantityOf) &&
            d.totalProfit == Sum(d.items, ProfitOf) - d.totalTax &&
            d.netMargin == Percent(d.totalProfit, d.totalRevenue)
  {
    ProfitsAddUp(items);
  }

  /** A resolved parse had some item row. Its items are the item rows in order, each with the
      heading current at its row and priced from `table`; its revenue, tax, cost and orders are
      the items' sums; its after-tax profit is the items' profits less the tax; and its margin
      is that profit as an unrounded percentage of the revenue. */
  lemma ParsedReport(rows: seq<Row>, table: seq<InventoryItem>, today: string)
    requires Parse(rows, table, today).Parsed?
    ensures var d, e := Parse(rows, table, today).data, Period(rows, today);
            d.dateRange == e.dateRange && d.date == e.date &&
            d.items != [] && d.items == LegacyRows.ItemsOf(LegacyRows.LinesOf(rows), Price(table)) &&
            (forall i :: 0 <= i < |d.items| ==> PricedFrom(table, d.items[i])) &&
            d.totalRevenue == Sum(d.items, Net) && d.grossRevenue == d.totalRevenue &&
            d.totalTax == Sum(d.items, TaxOf) && d.totalCost == Sum(d.items, ItemCost) &&
            d.totalOrders == Sum(d.items, QuantityOf) &&
            d.totalProfit == Sum(d.items, ProfitOf) - d.totalTax &&
            d.netMargin == Percent(d.totalProfit, d.totalRevenue)
  {
    var lines := LegacyRows.LinesOf(rows);
    ParsedPass(rows, table, today);
    ItemsPriced(lines, table);
    var items := LegacyRows.ItemsOf(lines, Price(table));
    assert forall i :: 0 <= i < |items| ==> items[i].profit + ItemCost(items[i]) == items[i].netAmount by {
      forall i | 0 <= i < |items| ensures items[i].profit + ItemCost(items[i]) == items[i].netAmount {
        assert PricedFrom(table, items[i]);
      }
    }
    ReportTotals(Period(rows, today), items);
  }

  /** A sheet without an item row is refused, whatever else it holds. */
  lemma NoItemsRefused(rows: seq<Row>, table: seq<InventoryItem>, today: string)
    requires forall i :: 0 <= i < |rows| ==> !LegacyRows.IsItemRow(rows[i])
    ensures Parse(rows, table, today) == Rejected(NoItemsMessage)
  {
    var lines := LegacyRows.LinesOf(rows);
    PriceKeepsFigures(table);
    LegacyRows.RunItems(lines, Price(table), Net, TaxOf);
    LegacyRows.NoItemLines(rows, Price(table));
  }
}
