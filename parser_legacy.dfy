/** `parseExcelFile` of lib/excel-parser.ts, the first client-side parser: the header date of
    row 1 and the row loop shared with lib/excel-parser-new.ts, with every item priced by the
    browser store's `getInventoryByName` (0 when the store has no entry, or one without a
    price), the item's columns 3, 4 and 7 kept, and an unrounded margin. It never refuses a
    sheet: one without item rows gives a report of zeros. */
module ParserLegacy {
  import opened Cells
  import opened Money
  import opened Wrappers
  import opened DateRange
  import Sales
  import LegacyRows

  /** The `SaleItem` of lib/db.ts as this parser fills it. */
  datatype SaleItem = SaleItem(
    itemName: string, category: string, quantity: real, costPrice: real, myAmount: real,
    totalDiscount: real, netAmount: real, totalTax: real, totalSales: real, profit: real, margin: real)

  function Net(i: SaleItem): real { i.netAmount }
  function TaxOf(i: SaleItem): real { i.totalTax }
  function QuantityOf(i: SaleItem): real { i.quantity }
  function ProfitOf(i: SaleItem): real { i.profit }
  function ItemCost(i: SaleItem): real { i.costPrice * i.quantity }

  /** `inventoryItem?.costPrice || 0` for the store's answer `found`. */
  function CostOf(found: Option<real>): (r: real)
    ensures found.None? ==> r == 0.0
    ensures found.Some? ==> r == found.value
  {
    if found.Some? then found.value else 0.0
  }

  /** One item row priced at `costPrice` a unit: the figures are kept as read, the profit is
      what the net amount leaves after the unit cost times the quantity, and the margin is
      that profit as a percentage of the net amount, not rounded. */
  function PriceItem(name: string, category: string, f: Sales.Figures, costPrice: real): (r: SaleItem)
    ensures r.itemName == name && r.category == category && r.costPrice == costPrice
    ensures r.quantity == f.quantity && r.myAmount == f.myAmount && r.totalDiscount == f.discount
    ensures r.netAmount == f.netAmount && r.totalTax == f.tax && r.totalSales == f.totalSales
    ensures r.profit + ItemCost(r) == r.netAmount
    ensures r.margin == Percent(r.profit, r.netAmount)
  {
    var profit := f.netAmount - costPrice * f.quantity;
    SaleItem(name, category, f.quantity, costPrice, f.myAmount, f.discount, f.netAmount, f.tax,
             f.totalSales, profit, Percent(profit, f.netAmount))
  }

  /** How the loop records an item row, with `lookup` the store's `getInventoryByName`
      (the cost price of the entry found, if any). */
  function Price(lookup: string -> Option<real>): (string, string, Sales.Figures) -> SaleItem {
    (name: string, category: string, f: Sales.Figures) => PriceItem(name, category, f, CostOf(lookup(name)))
  }

  datatype ParsedExcelData = ParsedExcelData(
    dateRange: string, date: string, items: seq<SaleItem>,
    totalRevenue: real, totalCost: real, totalProfit: real, totalOrders: real, totalTax: real,
    grossRevenue: real, netMargin: real)

  /** The resolved object for the header read `e` and the loop's items, revenue and tax. */
  function Report(e: Extracted, items: seq<SaleItem>, revenue: real, tax: real): ParsedExcelData {
    var totalCost := Sum(items, ItemCost);
    var netProfit := (revenue - totalCost) - tax;
    ParsedExcelData(e.dateRange, e.date, items, revenue, totalCost, netProfit,
                    Sum(items, QuantityOf), tax, revenue, Percent(netProfit, revenue))
  }

  /** `parseExcelFile` on the decoded first sheet `rows`, with `today` the fallback date. */
  function Parse(rows: seq<Row>, lookup: string -> Option<real>, today: string): ParsedExcelData {
    var p := LegacyRows.Run(LegacyRows.LinesOf(rows), Price(lookup));
    Report(Period(rows, today), p.items, p.revenue, p.tax)
  }

  method ParseExcelFile(rows: seq<Row>, lookup: string -> Option<real>, today: string) returns (d: ParsedExcelData)
    ensures d == Parse(rows, lookup, today)
  {
    var e := Period(rows, today);
    var items, revenue, tax := LegacyRows.RowLoop(rows, Price(lookup));
    d := Report(e, items, revenue, tax);
  }

  /** Every item the loop records is priced by `PriceItem` at what the store returns for its
      name. */
  predicate PricedBy(lookup: string -> Option<real>, item: SaleItem) {
    item.profit + ItemCost(item) == item.netAmount &&
    item.costPrice == CostOf(lookup(item.itemName)) &&
    item.margin == Percent(item.profit, item.netAmount)
  }

  lemma {:induction false} ItemsPriced(lines: seq<LegacyRows.Line>, lookup: string -> Option<real>)
    ensures var items := LegacyRows.ItemsOf(lines, Price(lookup));
            forall i :: 0 <= i < |items| ==> PricedBy(lookup, items[i])
  {
    if lines != [] {
      var init, l := lines[..|lines| - 1], lines[|lines| - 1];
      ItemsPriced(init, lookup);
      var before := LegacyRows.ItemsOf(init, Price(lookup));
      assert forall j :: 0 <= j < |before| ==> PricedBy(lookup, LegacyRows.ItemsOf(init, Price(lookup))[j]);
      if l.Item? {
        var item := Price(lookup)(l.name, LegacyRows.LatestHeading(init), l.figures);
        var items := before + [item];
        PriceKeepsFigures(lookup);
        assert PricedBy(lookup, item);
        forall i | 0 <= i < |items| ensures PricedBy(lookup, items[i]) {
          if i < |before| {
            assert items[i] == before[i];
          }
        }
      } else {
        assert LegacyRows.ItemsOf(lines, Price(lookup)) == before + [];
      }
    }
  }

  /** The items' profits add up to their net amounts less their costs. */
  lemma {:induction false} ProfitsAddUp(items: seq<SaleItem>)
    requires forall i :: 0 <= i < |items| ==> items[i].profit + ItemCost(items[i]) == items[i].netAmount
    ensures Sum(items, ProfitOf) == Sum(items, Net) - Sum(items, ItemCost)
  {
    if items != [] {
      ProfitsAddUp(items[..|items| - 1]);
    }
  }

  /** Recording an item keeps its net amount and tax, and prices it at the store's answer. */
  lemma PriceKeepsFigures(lookup: string -> Option<real>)
    ensures forall n: string, c: string, f: Sales.Figures ::
              Net(Price(lookup)(n, c, f)) == f.netAmount && TaxOf(Price(lookup)(n, c, f)) == f.tax &&
              Price(lookup)(n, c, f) == PriceItem(n, c, f, CostOf(lookup(n)))
  {
    forall n: string, c: string, f: Sales.Figures
      ensures Price(lookup)(n, c, f) == PriceItem(n, c, f, CostOf(lookup(n)))
    {
    }
  }

  /** The parse is the report of the loop's pass, whose totals are its items' sums. */
  lemma PassReport(rows: seq<Row>, lookup: string -> Option<real>, today: string)
    ensures var p := LegacyRows.Run(LegacyRows.LinesOf(rows), Price(lookup));
            p.items == LegacyRows.ItemsOf(LegacyRows.LinesOf(rows), Price(lookup)) &&
            p.revenue == Sum(p.items, Net) && p.tax == Sum(p.items, TaxOf) &&
            Parse(rows, lookup, today) == Report(Period(rows, today), p.items, p.revenue, p.tax)
  {
    PriceKeepsFigures(lookup);
    LegacyRows.RunItems(LegacyRows.LinesOf(rows), Price(lookup), Net, TaxOf);
  }

  /** The report's items are those of the item rows, in order, each with the heading current
      at its row and priced by the store; its revenue, tax, cost and orders are the items'
      sums; its after-tax profit is the items' profits less the tax; and its margin is that
      profit as a percentage of the revenue. */
  lemma ParsedReport(rows: seq<Row>, lookup: string -> Option<real>, today: string)
    ensures var d, e := Parse(rows, lookup, today), Period(rows, today);
            d.dateRange == e.dateRange && d.date == e.date &&
            d.items == LegacyRows.ItemsOf(LegacyRows.LinesOf(rows), Price(lookup)) &&
            (forall i :: 0 <= i < |d.items| ==> PricedBy(lookup, d.items[i])) &&
            d.totalRevenue == Sum(d.items, Net) && d.grossRevenue == d.totalRevenue &&
            d.totalTax == Sum(d.items, TaxOf) && d.totalCost == Sum(d.items, ItemCost) &&
            d.totalOrders == Sum(d.items, QuantityOf) &&
            d.totalProfit == Sum(d.items, ProfitOf) - d.totalTax &&
            d.netMargin == Percent(d.totalProfit, d.totalRevenue)
  {
    var lines := LegacyRows.LinesOf(rows);
    PassReport(rows, lookup, today);
    ItemsPriced(lines, lookup);
    ProfitsAddUp(LegacyRows.ItemsOf(lines, Price(lookup)));
  }

  /** A sheet without an item row is not refused: it gives no items and a report of zeros. */
  lemma NoItemsGiveZeros(rows: seq<Row>, lookup: string -> Option<real>, today: string)
    requires forall i :: 0 <= i < |rows| ==> !LegacyRows.IsItemRow(rows[i])
    ensures var d := Parse(rows, lookup, today);
            d.items == [] && d.totalRevenue == 0.0 && d.totalCost == 0.0 && d.totalProfit == 0.0 &&
            d.totalOrders == 0.0 && d.totalTax == 0.0 && d.grossRevenue == 0.0 && d.netMargin == 0.0
  {
    PassReport(rows, lookup, today);
    LegacyRows.NoItemLines(rows, Price(lookup));
  }
}
