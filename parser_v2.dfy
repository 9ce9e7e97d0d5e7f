/** lib/excel-parser-v2.ts: the client-side parser with its own row heuristics. Rows shorter
    than three cells are passed over, a longer skip list is applied to both of the first two
    columns, only headings that look like a menu section open a category, items need a
    positive net amount, items before any heading are grouped under the empty key, the
    report period is looked for in the first five rows, and the report profit is taken after
    tax while the group subtotals are taken before it. */
module ParserV2 {
  import opened Wrappers
  import opened Strings
  import opened Cells
  import opened Money
  import opened Grouping
  import opened DateRange
  import Sales
  import ReportRows
  import ParserV3

  /** `DEFAULT_INVENTORY`, in the insertion order `Object.entries` visits it (the two "spl"
      rice dishes come before the bar menu here). Its `getCostPrice` is the three-tier
      `ParserV3.CostPrice` over this table. */
  const Inventory: seq<ParserV3.CostEntry> := [
    ParserV3.CostEntry("Non Veg Sweet Corn Soup", 100.0, "Dine In Food Menu"),
    ParserV3.CostEntry("Crispy Corn", 124.0, "Dine In Food Menu"),
    ParserV3.CostEntry("Mushroom Salt And Pepper", 149.0, "Dine In Food Menu"),
    ParserV3.CostEntry("Chilli Chicken", 175.0, "Dine In Food Menu"),
    ParserV3.CostEntry("Chilli Prawns", 224.0, "Dine In Food Menu"),
    ParserV3.CostEntry("Dragon Chicken", 174.0, "Dine In Food Menu"),
    ParserV3.CostEntry("Chilli Egg", 124.0, "Dine In Food Menu"),
    ParserV3.CostEntry("Chicken Lollipop", 200.0, "Dine In Food Menu"),
    ParserV3.CostEntry("Chicken Drum Sticks", 199.0, "Dine In Food Menu"),
    ParserV3.CostEntry("Appolo Fish", 149.0, "Dine In Food Menu"),
    ParserV3.CostEntry("Pepper Chicken", 199.0, "Dine In Food Menu"),
    ParserV3.CostEntry("Chilli Loose Prawn", 224.0, "Dine In Food Menu"),
    ParserV3.CostEntry("Chicken Roast", 174.0, "Dine In Food Menu"),
    ParserV3.CostEntry("Chicken 65", 174.0, "Dine In Food Menu"),
    ParserV3.CostEntry("Salt French Fries", 124.0, "Dine In Food Menu"),
    ParserV3.CostEntry("Kaju Fry", 149.0, "Dine In Food Menu"),
    ParserV3.CostEntry("Crunchi Chicken", 199.0, "Dine In Food Menu"),
    ParserV3.CostEntry("Veg Fried Rice", 149.0, "Dine In Food Menu"),
    ParserV3.CostEntry("Egg Fried Rice", 149.0, "Dine In Food Menu"),
    ParserV3.CostEntry("Konaseema Boneless Biriyani", 199.0, "Dine In Food Menu"),
    ParserV3.CostEntry("Green Salda", 124.0, "Dine In Food Menu"),
    ParserV3.CostEntry("butter garlice prwans", 224.0, "Dine In Food Menu"),
    ParserV3.CostEntry("kaju chicken", 199.0, "Dine In Food Menu"),
    ParserV3.CostEntry("mixed non veg fried rice", 249.0, "Dine In Food Menu"),
    ParserV3.CostEntry("spl non veg fried rice", 199.0, "Others"),
    ParserV3.CostEntry("spl veg fried rice", 174.0, "Others"),
    ParserV3.CostEntry("Coke", 48.0, "Bar Menu"),
    ParserV3.CostEntry("Screwdriver", 399.0, "Bar Menu"),
    ParserV3.CostEntry("Kf Strong", 249.0, "Bar Menu"),
    ParserV3.CostEntry("Kf Ultra", 274.0, "Bar Menu"),
    ParserV3.CostEntry("Cranberry (premium)", 158.0, "Bar Menu"),
    ParserV3.CostEntry("Blue Lagoon", 124.0, "Bar Menu"),
    ParserV3.CostEntry("Orange Mojito", 124.0, "Bar Menu"),
    ParserV3.CostEntry("Mango Mojito", 124.0, "Bar Menu"),
    ParserV3.CostEntry("Pineapple Mojito", 124.0, "Bar Menu"),
    ParserV3.CostEntry("Mint & Mango", 124.0, "Bar Menu"),
    ParserV3.CostEntry("Fresh Lemon Soda", 60.0, "Bar Menu"),
    ParserV3.CostEntry("Absolut (30 Ml)", 174.0, "Bar Menu"),
    ParserV3.CostEntry("Jocobs Greek (150 Ml)", 649.0, "Bar Menu"),
    ParserV3.CostEntry("Black Dog (30 Ml)", 174.0, "Bar Menu"),
    ParserV3.CostEntry("MC 1 QUTR", 150.0, "Bar Menu"),
    ParserV3.CostEntry("Heineken Tin", 224.0, "Bar Menu"),
    ParserV3.CostEntry("Virgin Mojito", 124.0, "Bar Menu"),
    ParserV3.CostEntry("M.m Green 30ml", 99.0, "Bar Menu"),
    ParserV3.CostEntry("Water Bottle", 30.0, "Bar Menu"),
    ParserV3.CostEntry("Thumsup", 60.0, "Bar Menu"),
    ParserV3.CostEntry("Sprit", 60.0, "Bar Menu"),
    ParserV3.CostEntry("Red Bull", 124.0, "Bar Menu"),
    ParserV3.CostEntry("Budweiser", 324.0, "Bar Menu"),
    ParserV3.CostEntry("Budweiser Magnum", 350.0, "Bar Menu"),
    ParserV3.CostEntry("Budweiser 500ml", 249.0, "Bar Menu")
  ]

  /** `getCostPrice`: the three-tier lookup over `DEFAULT_INVENTORY`. */
  function GetCostPrice(itemName: string): real {
    ParserV3.CostPrice(Inventory, itemName)
  }

  /** One element of `items`. */
  datatype SaleItem = SaleItem(
    itemName: string, category: string, quantity: real, costPrice: real, netAmount: real,
    tax: real, profit: real, margin: real)

  function Net(i: SaleItem): real { i.netAmount }
  function TaxOf(i: SaleItem): real { i.tax }
  function QuantityOf(i: SaleItem): real { i.quantity }
  function ProfitOf(i: SaleItem): real { i.profit }

  /** `item.costPrice * item.quantity`, the cost the totals add up. */
  function ItemCost(i: SaleItem): real { i.costPrice * i.quantity }

  /** The `categoryGroups` key an item is filed under: its category, except that the label
      "Uncategorized" of items read before any heading stands for the empty key. */
  function GroupKey(i: SaleItem): string {
    if i.category == "Uncategorized" then "" else i.category
  }

  /** One element of `categoryGroups`: a bucket and its subtotals. */
  datatype CategoryGroup = CategoryGroup(
    name: string, items: seq<SaleItem>, subtotalRevenue: real, subtotalCost: real,
    subtotalProfit: real, subtotalOrders: real, subtotalTax: real)

  function GroupRevenue(g: CategoryGroup): real { g.subtotalRevenue }
  function GroupCost(g: CategoryGroup): real { g.subtotalCost }
  function GroupProfit(g: CategoryGroup): real { g.subtotalProfit }
  function GroupOrders(g: CategoryGroup): real { g.subtotalOrders }
  function GroupTax(g: CategoryGroup): real { g.subtotalTax }

  datatype ParsedExcelData = ParsedExcelData(
    dateRange: string, date: string, items: seq<SaleItem>, categoryGroups: seq<CategoryGroup>,
    totalRevenue: real, totalCost: real, totalProfit: real, totalOrders: real, totalTax: real,
    grossRevenue: real, netMargin: real)

  /** A resolved parse, or a rejected one with the message of the `Error` thrown. */
  datatype Outcome = Parsed(data: ParsedExcelData) | Rejected(message: string)

  // ---------------------------------------------------------------- the report period

  /** How many rows the header scan looks at: `Math.min(5, jsonData.length)`. */
  function Window(rows: seq<Row>): (n: nat)
    ensures n <= 5 && n <= |rows| && (|rows| >= 5 ==> n == 5) && (|rows| < 5 ==> n == |rows|)
  {
    if |rows| < 5 then |rows| else 5
  }

  /** Row `i` has a truthy first cell whose text the date pattern matches. */
  predicate HeaderMatches(rows: seq<Row>, i: nat) {
    Truthy(CellAt(rows, i, 0)) && Search(Text(CellAt(rows, i, 0)), 0).Some?
  }

  /** The period found by the scan from row `i` on. */
  function ScanPeriod(rows: seq<Row>, i: nat, today: string): Extracted
    requires i <= Window(rows)
    decreases Window(rows) - i
  {
    if i == Window(rows) then Extracted("", today)
    else if HeaderMatches(rows, i) then ExtractDateRange(Text(CellAt(rows, i, 0)), today)
    else ScanPeriod(rows, i + 1, today)
  }

  /** The first of the first five rows whose first cell holds a period decides the period. */
  lemma {:induction false} FirstHeaderWins(rows: seq<Row>, i: nat, j: nat, today: string)
    requires i <= j < Window(rows) && HeaderMatches(rows, j)
    requires forall k :: i <= k < j ==> !HeaderMatches(rows, k)
    ensures ScanPeriod(rows, i, today) == ExtractDateRange(Text(CellAt(rows, j, 0)), today)
    decreases j - i
  {
    if i < j {
      assert !HeaderMatches(rows, i);
      assert ScanPeriod(rows, i, today) == ScanPeriod(rows, i + 1, today);
      FirstHeaderWins(rows, i + 1, j, today);
    }
  }

  /** With no period in the first five rows, the range is empty and the date is today's,
      whatever later rows hold. */
  lemma {:induction false} NoHeaderMeansToday(rows: seq<Row>, i: nat, today: string)
    requires i <= Window(rows)
    requires forall k :: i <= k < Window(rows) ==> !HeaderMatches(rows, k)
    ensures ScanPeriod(rows, i, today) == Extracted("", today)
    decreases Window(rows) - i
  {
    if i < Window(rows) {
      NoHeaderMeansToday(rows, i + 1, today);
    }
  }

  /** The `for` loop over the first rows, with its `break` at the first match. */
  method FindPeriod(rows: seq<Row>, today: string) returns (e: Extracted)
    ensures e == ScanPeriod(rows, 0, today)
  {
    e := Extracted("", today);
    var i := 0;
    while i < Window(rows)
      invariant 0 <= i <= Window(rows)
      invariant ScanPeriod(rows, 0, today) == ScanPeriod(rows, i, today)
      invariant e == Extracted("", today)
    {
      var c := CellAt(rows, i, 0);
      if Truthy(c) {
        var m := Search(Text(c), 0);
        if m.Some? {
          e := ExtractDateRange(Text(c), today);
          return;
        }
      }
      i := i + 1;
    }
  }

  // ---------------------------------------------------------------- the rows

  /** The labels of header and summary rows in column 0, and in column 1. */
  const SkipLabels: seq<string> := ["Max", "Min", "Avg", "Total", "Group", "Item", "Round off", "Sub Total", "Qty.", "My Amount"]
  const ColumnLabels: seq<string> := ["Qty.", "My Amount", "Item"]

  /** `String(row[1] || '').trim()`. */
  function Col1(row: Row): string {
    Trim(TextOr(At(row, 1), ""))
  }

  /** The skip test on the trimmed first two cells; the "Hotel" and "Report" tests keep case. */
  predicate IsSkipRow(row: Row) {
    var a, b := ReportRows.Col0(row), Col1(row);
    a in SkipLabels || Lower(a) == "sl.no" || b in ColumnLabels || Contains(a, "Hotel") || Contains(a, "Report")
  }

  /** The shape of a heading: a first cell, no second cell, and no non-zero number in the
      third (`!thirdCell || typeof thirdCell !== 'number'`). */
  predicate HeadingShape(row: Row) {
    ReportRows.Col0(row) != "" && Col1(row) == "" && !(At(row, 2).Num? && At(row, 2).n != 0.0)
  }

  /** The names taken for a menu section. */
  predicate NamesCategory(name: string) {
    Contains(name, "Menu") || name == "Others" || Contains(Lower(name), "dine") ||
    Contains(Lower(name), "bar") || Contains(Lower(name), "food")
  }

  /** The shape of an item line: no first cell (`null`, `undefined`, blank text or 0), a second
      cell, and a positive quantity. A quantity that is text is read with `Number`, which
      can only be positive when `Number(x) || 0` is. */
  predicate ItemShape(row: Row) {
    ReportRows.Col0(row) == "" && Col1(row) != "" && NumberOr0(At(row, 2)) > 0.0
  }

  datatype Line = Short | Skipped | Heading(name: string) | Item(name: string, figures: Sales.Figures) | Ignored

  /** The tests of the row loop, in their order. A heading-shaped row whose name is not a
      menu section falls through to the item test, which it cannot pass. */
  function Classify(row: Row): (l: Line)
    ensures l == Short <==> |row| < 3
    ensures l == Skipped <==> |row| >= 3 && IsSkipRow(row)
    ensures l.Heading? <==> |row| >= 3 && !IsSkipRow(row) && HeadingShape(row) && NamesCategory(ReportRows.Col0(row))
    ensures l.Item? <==> |row| >= 3 && !IsSkipRow(row) && ItemShape(row)
    ensures l.Heading? ==> l.name == ReportRows.Col0(row) && l.name != "" && NamesCategory(l.name)
    ensures l.Item? ==> l.name == Col1(row) && l.name != "" &&
                        l.figures == ReportRows.FiguresOf(row) && l.figures.quantity > 0.0
    ensures |row| >= 3 && !IsSkipRow(row) && HeadingShape(row) && !NamesCategory(ReportRows.Col0(row)) ==> l == Ignored
  {
    if |row| < 3 then Short
    else if IsSkipRow(row) then Skipped
    else if HeadingShape(row) && NamesCategory(ReportRows.Col0(row)) then Heading(ReportRows.Col0(row))
    else if ItemShape(row) then Item(Col1(row), ReportRows.FiguresOf(row))
    else Ignored
  }

  function LinesOf(rows: seq<Row>): (ls: seq<Line>)
    ensures |ls| == |rows|
    ensures forall i :: 0 <= i < |rows| ==> ls[i] == Classify(rows[i])
  {
    if rows == [] then [] else LinesOf(rows[..|rows| - 1]) + [Classify(rows[|rows| - 1])]
  }

  /** One priced item: the cost is the unit cost times the quantity, the profit what the net
      amount leaves after it, the margin that profit as a percentage, to one decimal. */
  function PriceItem(name: string, category: string, f: Sales.Figures, costPrice: real): (r: SaleItem)
    ensures r.itemName == name && r.category == category && r.costPrice == costPrice
    ensures r.quantity == f.quantity && r.netAmount == f.netAmount && r.tax == f.tax
    ensures r.profit + ItemCost(r) == r.netAmount
    ensures r.margin == OneDecimalMargin(r.profit, r.netAmount)
  {
    var profit := f.netAmount - costPrice * f.quantity;
    SaleItem(name, category, f.quantity, costPrice, f.netAmount, f.tax, profit, OneDecimalMargin(profit, f.netAmount))
  }

  /** `currentCategory || 'Uncategorized'`. */
  function Label(current: string): string {
    if current == "" then "Uncategorized" else current
  }

  /** The loop's state: the items, the keys of `categoryGroups` in insertion order and their
      buckets, `currentCategory`, and the running `totalRevenue` and `totalTax`. */
  datatype Pass = Pass(
    items: seq<SaleItem>, order: seq<string>, buckets: map<string, seq<SaleItem>>, current: string,
    revenue: real, tax: real)

  const Start: Pass := Pass([], [], map[], "", 0.0, 0.0)

  /** `if (!categoryGroups.has(k)) categoryGroups.set(k, [])`. */
  function Open(p: Pass, k: string): (q: Pass)
    ensures q.items == p.items && q.current == p.current && q.revenue == p.revenue && q.tax == p.tax
    ensures k in q.buckets
    ensures k in p.buckets ==> q == p
    ensures k !in p.buckets ==> q.order == p.order + [k] && q.buckets == p.buckets[k := []]
  {
    if k in p.buckets then p else p.(order := p.order + [k], buckets := p.buckets[k := []])
  }

  /** An accepted item goes to `items` and to the bucket of `currentCategory`, and its net
      amount and tax to the running totals. */
  function AddItem(p: Pass, item: SaleItem): (q: Pass)
    ensures q.items == p.items + [item] && q.current == p.current
    ensures q.revenue == p.revenue + item.netAmount && q.tax == p.tax + item.tax
  {
    var o := Open(p, p.current);
    o.(items := o.items + [item], buckets := o.buckets[p.current := o.buckets[p.current] + [item]],
       revenue := o.revenue + item.netAmount, tax := o.tax + item.tax)
  }

  /** One turn of the loop: a heading becomes `currentCategory` and opens its bucket; an item
      line with a positive net amount is priced at `cost` of its name and filed; anything
      else changes nothing. */
  function Step(p: Pass, l: Line, cost: string -> real): Pass {
    match l
    case Heading(name) => Open(p.(current := name), name)
    case Item(name, f) =>
      if f.netAmount > 0.0 then AddItem(p, PriceItem(name, Label(p.current), f, cost(name))) else p
    case _ => p
  }

  function Run(lines: seq<Line>, cost: string -> real): Pass {
    if lines == [] then Start else Step(Run(lines[..|lines| - 1], cost), lines[|lines| - 1], cost)
  }

  lemma RunSnoc(lines: seq<Line>, l: Line, cost: string -> real)
    ensures Run(lines + [l], cost) == Step(Run(lines, cost), l, cost)
  {
    assert (lines + [l])[..|lines|] == lines;
  }

  /** One turn of the row loop on the loop's variables. */
  method StepRow(items: seq<SaleItem>, order: seq<string>, buckets: map<string, seq<SaleItem>>, current: string,
                 revenue: real, tax: real, line: Line, cost: string -> real)
    returns (items': seq<SaleItem>, order': seq<string>, buckets': map<string, seq<SaleItem>>, current': string,
             revenue': real, tax': real)
    ensures Pass(items', order', buckets', current', revenue', tax') ==
            Step(Pass(items, order, buckets, current, revenue, tax), line, cost)
  {
    items', order', buckets', current', revenue', tax' := items, order, buckets, current, revenue, tax;
    match line {
      case Heading(name) =>
        current' := name;
        if name !in buckets {
          order' := order + [name];
          buckets' := buckets[name := []];
        }
      case Item(itemName, f) =>
        if f.netAmount > 0.0 {
          var item := PriceItem(itemName, Label(current), f, cost(itemName));
          items' := items + [item];
          if current !in buckets {
            order' := order + [current];
            buckets' := buckets[current := []];
          }
          buckets' := buckets'[current := buckets'[current] + [item]];
          revenue' := revenue + f.netAmount;
          tax' := tax + f.tax;
        }
      case _ =>
    }
  }

  /** The row loop of `parseExcelFile`. */
  method RowLoop(rows: seq<Row>, cost: string -> real)
    returns (items: seq<SaleItem>, order: seq<string>, buckets: map<string, seq<SaleItem>>, revenue: real, tax: real)
    ensures var p := Run(LinesOf(rows), cost);
            items == p.items && order == p.order && buckets == p.buckets && revenue == p.revenue && tax == p.tax
  {
    items, order, buckets, revenue, tax := [], [], map[], 0.0, 0.0;
    var current := "";
    var i := 0;
    assert LinesOf(rows[..0]) == [] by { assert rows[..0] == []; }
    while i < |rows|
      invariant 0 <= i <= |rows|
      invariant Pass(items, order, buckets, current, revenue, tax) == Run(LinesOf(rows[..i]), cost)
    {
      var line := Classify(rows[i]);
      assert LinesOf(rows[..i + 1]) == LinesOf(rows[..i]) + [line] by {
        assert rows[..i + 1][..i] == rows[..i] && rows[..i + 1][i] == rows[i];
      }
      RunSnoc(LinesOf(rows[..i]), line, cost);
      items, order, buckets, current, revenue, tax := StepRow(items, order, buckets, current, revenue, tax, line, cost);
      i := i + 1;
    }
    assert rows[..i] == rows;
  }

  // ---------------------------------------------------------------- what the pass keeps

  /** `currentCategory` after `lines`: the latest heading, the empty string before any. */
  function LatestHeading(lines: seq<Line>): string {
    if lines == [] then ""
    else if lines[|lines| - 1].Heading? then lines[|lines| - 1].name
    else LatestHeading(lines[..|lines| - 1])
  }

  /** The items of `lines`: one per item line with a positive net amount, in line order,
      labelled with the heading current at that line. */
  function ItemsOf(lines: seq<Line>, cost: string -> real): seq<SaleItem> {
    if lines == [] then []
    else
      var init, l := lines[..|lines| - 1], lines[|lines| - 1];
      ItemsOf(init, cost) +
      (if l.Item? && l.figures.netAmount > 0.0 then [PriceItem(l.name, Label(LatestHeading(init)), l.figures, cost(l.name))] else [])
  }

  /** The heading names of `lines`, in order. */
  function Headings(lines: seq<Line>): seq<string> {
    if lines == [] then []
    else Headings(lines[..|lines| - 1]) + (if lines[|lines| - 1].Heading? then [lines[|lines| - 1].name] else [])
  }

  /** "Uncategorized" is not a menu section, so no heading carries the fallback label. */
  lemma UncategorizedIsNoHeading(s: string)
    requires s == "Uncategorized"
    ensures !NamesCategory(s)
  {
    LowerUncategorized(s);
    NoOccurrence(s, "Menu");
    NoLowerSection(Lower(s));
  }

  /** None of the lower-case section words occurs in "uncategorized". */
  lemma NoLowerSection(l: string)
    requires l == "uncategorized"
    ensures !Contains(l, "dine") && !Contains(l, "bar") && !Contains(l, "food")
  {
    NoOccurrence(l, "dine");
    NoOccurrence(l, "bar");
    NoOccurrence(l, "food");
  }

  lemma LowerUncategorized(s: string)
    requires s == "Uncategorized"
    ensures Lower(s) == "uncategorized"
  {
  }

  /** A text in which the first character of `needle` starts no long enough suffix does not
      contain it. */
  lemma {:induction false} NoOccurrence(hay: string, needle: string)
    requires needle != [] && forall k :: 0 <= k <= |hay| - |needle| ==> hay[k] != needle[0]
    ensures !Contains(hay, needle)
  {
    if |hay| >= |needle| {
      assert hay[0] != needle[0];
      assert !(needle <= hay);
      var rest := hay[1..];
      forall k | 0 <= k <= |rest| - |needle| ensures rest[k] != needle[0] {
        assert rest[k] == hay[k + 1];
      }
      NoOccurrence(rest, needle);
    } else if hay != [] {
      NoLongerNeedle(hay, needle);
    }
  }

  /** A needle longer than the text is not in it. */
  lemma {:induction false} NoLongerNeedle(hay: string, needle: string)
    requires |hay| < |needle|
    ensures !Contains(hay, needle)
  {
    if hay != [] {
      NoLongerNeedle(hay[1..], needle);
    }
  }

  /** `currentCategory` is the latest heading. */
  lemma {:induction false} RunCurrent(lines: seq<Line>, cost: string -> real)
    ensures Run(lines, cost).current == LatestHeading(lines)
  {
    if lines != [] {
      RunCurrent(lines[..|lines| - 1], cost);
    }
  }

  /** Every heading of the lines of a sheet names a menu section. */
  predicate MenuHeadings(lines: seq<Line>) {
    forall i :: 0 <= i < |lines| && lines[i].Heading? ==> NamesCategory(lines[i].name)
  }

  lemma SheetHeadings(rows: seq<Row>)
    ensures MenuHeadings(LinesOf(rows))
  {
  }

  /** So the latest heading is empty or a menu section's name. */
  lemma {:induction false} LatestHeadingNamed(lines: seq<Line>)
    requires MenuHeadings(lines)
    ensures LatestHeading(lines) == "" || NamesCategory(LatestHeading(lines))
  {
    if lines != [] && !lines[|lines| - 1].Heading? {
      LatestHeadingNamed(lines[..|lines| - 1]);
    }
  }

  /** Each item line with a positive net amount is appended once, in line order, labelled
      with the heading current at that line; the running totals are the sums of the net
      amounts and taxes of the items. */
  lemma {:induction false} RunItems(lines: seq<Line>, cost: string -> real)
    ensures var p := Run(lines, cost);
            p.items == ItemsOf(lines, cost) && p.revenue == Sum(p.items, Net) && p.tax == Sum(p.items, TaxOf)
  {
    if lines != [] {
      var init, l := lines[..|lines| - 1], lines[|lines| - 1];
      RunItems(init, cost);
      RunCurrent(init, cost);
      var p := Run(init, cost);
      if l.Item? && l.figures.netAmount > 0.0 {
        var item := PriceItem(l.name, Label(p.current), l.figures, cost(l.name));
        assert (p.items + [item])[..|p.items|] == p.items;
      } else {
        assert ItemsOf(lines, cost) == ItemsOf(init, cost) + [];
      }
    }
  }

  /** The buckets are the groups of `items` by group key, with no key twice. */
  ghost predicate GroupedBy(items: seq<SaleItem>, order: seq<string>, buckets: map<string, seq<SaleItem>>) {
    NoDuplicates(order) &&
    (forall k :: k in buckets <==> k in order) &&
    (forall k :: k in buckets ==> buckets[k] == Where(items, GroupKey, k)) &&
    (forall i :: 0 <= i < |items| ==> GroupKey(items[i]) in buckets)
  }

  lemma OpenGrouped(p: Pass, k: string)
    requires GroupedBy(p.items, p.order, p.buckets)
    ensures var q := Open(p, k); GroupedBy(q.items, q.order, q.buckets)
  {
    if k !in p.buckets {
      var q := Open(p, k);
      forall i | 0 <= i < |p.items| ensures GroupKey(p.items[i]) != k {
        assert GroupKey(p.items[i]) in p.buckets;
      }
      WhereNone(p.items, GroupKey, k);
      NoDuplicatesSnoc(p.order, k);
      forall key | key in q.buckets ensures q.buckets[key] == Where(q.items, GroupKey, key) {
        if key != k {
          assert q.buckets[key] == p.buckets[key];
        }
      }
    }
  }

  lemma AddItemGrouped(p: Pass, item: SaleItem)
    requires GroupedBy(p.items, p.order, p.buckets) && GroupKey(item) == p.current
    ensures var q := AddItem(p, item); GroupedBy(q.items, q.order, q.buckets)
  {
    OpenGrouped(p, p.current);
    var o := Open(p, p.current);
    FileGrouped(o.items, o.order, o.buckets, item);
  }

  /** Filing an item in the bucket of its key keeps the buckets grouped. */
  lemma FileGrouped(items: seq<SaleItem>, order: seq<string>, buckets: map<string, seq<SaleItem>>, item: SaleItem)
    requires GroupedBy(items, order, buckets) && GroupKey(item) in buckets
    ensures GroupedBy(items + [item], order, buckets[GroupKey(item) := buckets[GroupKey(item)] + [item]])
  {
    var c := GroupKey(item);
    var items', buckets' := items + [item], buckets[c := buckets[c] + [item]];
    forall k | k in buckets' ensures buckets'[k] == Where(items', GroupKey, k) {
      WhereSnoc(items, item, GroupKey, k);
      if k != c {
        assert buckets'[k] == buckets[k];
      }
    }
    forall i | 0 <= i < |items'| ensures GroupKey(items'[i]) in buckets' {
      if i < |items| {
        assert items'[i] == items[i];
      }
    }
  }

  /** Every turn keeps the buckets equal to the groups of `items`: the empty key holds the
      items labelled "Uncategorized", every other key the items labelled with it. */
  lemma {:induction false} RunGrouped(lines: seq<Line>, cost: string -> real)
    requires MenuHeadings(lines)
    ensures var p := Run(lines, cost); GroupedBy(p.items, p.order, p.buckets)
  {
    if lines != [] {
      var init, l := lines[..|lines| - 1], lines[|lines| - 1];
      assert MenuHeadings(init) by {
        forall i | 0 <= i < |init| && init[i].Heading? ensures NamesCategory(init[i].name) {
          assert init[i] == lines[i];
        }
      }
      RunGrouped(init, cost);
      RunCurrent(init, cost);
      LatestHeadingNamed(init);
      var p := Run(init, cost);
      if p.current == "Uncategorized" {
        UncategorizedIsNoHeading(p.current);
      }
      StepGrouped(p, l, cost);
    }
  }

  /** One turn keeps the buckets grouped, as long as the current heading is not the label
      "Uncategorized" itself. */
  lemma StepGrouped(p: Pass, l: Line, cost: string -> real)
    requires GroupedBy(p.items, p.order, p.buckets) && p.current != "Uncategorized"
    ensures var q := Step(p, l, cost); GroupedBy(q.items, q.order, q.buckets)
  {
    match l
    case Heading(name) =>
      OpenGrouped(p.(current := name), name);
    case Item(name, f) =>
      if f.netAmount > 0.0 {
        AddItemGrouped(p, PriceItem(name, Label(p.current), f, cost(name)));
      }
    case _ =>
  }

  /** With no item accepted, the keys of `categoryGroups` are exactly the distinct headings. */
  lemma {:induction false} NoItemsKeysAreHeadings(lines: seq<Line>, cost: string -> real)
    requires ItemsOf(lines, cost) == []
    ensures Run(lines, cost).order == Distinct(Headings(lines))
    ensures forall k :: k in Run(lines, cost).buckets <==> k in Run(lines, cost).order
  {
    if lines != [] {
      var init, l := lines[..|lines| - 1], lines[|lines| - 1];
      assert ItemsOf(init, cost) == [];
      assert !(l.Item? && l.figures.netAmount > 0.0);
      NoItemsKeysAreHeadings(init, cost);
      var p := Run(init, cost);
      assert Run(lines, cost) == Step(p, l, cost);
      if l.Heading? {
        assert Headings(lines) == Headings(init) + [l.name];
        DistinctSnoc(Headings(init), l.name);
      } else {
        assert Headings(lines) == Headings(init);
        assert Step(p, l, cost) == p;
      }
    }
  }

  // ---------------------------------------------------------------- the result

  /** One group with its subtotals; the subtotal profit is taken before tax. */
  function GroupOf(name: string, bucket: seq<SaleItem>): (g: CategoryGroup)
    ensures g.name == name && g.items == bucket
    ensures g.subtotalRevenue == Sum(bucket, Net) && g.subtotalCost == Sum(bucket, ItemCost)
    ensures g.subtotalOrders == Sum(bucket, QuantityOf) && g.subtotalTax == Sum(bucket, TaxOf)
    ensures g.subtotalProfit == g.subtotalRevenue - g.subtotalCost
  {
    var revenue, cost := Sum(bucket, Net), Sum(bucket, ItemCost);
    CategoryGroup(name, bucket, revenue, cost, revenue - cost, Sum(bucket, QuantityOf), Sum(bucket, TaxOf))
  }

  /** `categoryGroupsArray`: one group per key, in key order. */
  function Groups(order: seq<string>, buckets: map<string, seq<SaleItem>>): (r: seq<CategoryGroup>)
    requires forall k :: k in order ==> k in buckets
    ensures |r| == |order|
    ensures forall i :: 0 <= i < |order| ==> r[i] == GroupOf(order[i], buckets[order[i]])
  {
    if order == [] then []
    else Groups(order[..|order| - 1], buckets) + [GroupOf(order[|order| - 1], buckets[order[|order| - 1]])]
  }

  /** The `for … of categoryGroups.entries()` loop. */
  method BuildGroups(order: seq<string>, buckets: map<string, seq<SaleItem>>) returns (gs: seq<CategoryGroup>)
    requires forall k :: k in order ==> k in buckets
    ensures gs == Groups(order, buckets)
  {
    gs := [];
    var i := 0;
    while i < |order|
      invariant 0 <= i <= |order|
      invariant gs == Groups(order[..i], buckets)
    {
      assert order[..i + 1][..i] == order[..i];
      gs := gs + [GroupOf(order[i], buckets[order[i]])];
      i := i + 1;
    }
    assert order[..i] == order;
  }

  /** The resolved data of a pass with some item: the running totals, the cost summed from
      the items, the profit after tax and its unrounded margin. */
  function Report(e: Extracted, p: Pass): (d: ParsedExcelData)
    requires forall k :: k in p.order ==> k in p.buckets
    ensures d.dateRange == e.dateRange && d.date == e.date && d.items == p.items
    ensures d.categoryGroups == Groups(p.order, p.buckets)
    ensures d.totalRevenue == p.revenue && d.grossRevenue == p.revenue && d.totalTax == p.tax
    ensures d.totalCost == Sum(p.items, ItemCost) && d.totalOrders == Sum(p.items, QuantityOf)
    ensures d.totalProfit == d.totalRevenue - d.totalCost - d.totalTax
    ensures d.netMargin == Percent(d.totalProfit, d.totalRevenue)
  {
    var totalCost := Sum(p.items, ItemCost);
    var netProfit := (p.revenue - totalCost) - p.tax;
    ParsedExcelData(e.dateRange, e.date, p.items, Groups(p.order, p.buckets), p.revenue, totalCost,
                    netProfit, Sum(p.items, QuantityOf), p.tax, p.revenue, Percent(netProfit, p.revenue))
  }

  function NoItemsMessage(rowCount: nat, categoryCount: nat): string {
    "No items found in Excel file. File may have incorrect format. Processed " + NatText(rowCount) +
    " rows, found " + NatText(categoryCount) + " categories."
  }

  lemma {:induction false} RunKeys(lines: seq<Line>, cost: string -> real)
    ensures forall k :: k in Run(lines, cost).order ==> k in Run(lines, cost).buckets
  {
    if lines != [] {
      RunKeys(lines[..|lines| - 1], cost);
    }
  }

  /** `parseExcelFile` on the decoded first sheet (`None` when the workbook has none), items
      priced by `cost` (`GetCostPrice` for the parser itself), with `today` the fallback date. */
  function Parse(sheet: Option<seq<Row>>, cost: string -> real, today: string): Outcome {
    if sheet.None? then Rejected("No sheets found in Excel file")
    else if sheet.value == [] then Rejected("Excel file is empty or cannot be read")
    else
      var rows := sheet.value;
      var e := ScanPeriod(rows, 0, today);
      var p := Run(LinesOf(rows), cost);
      RunKeys(LinesOf(rows), cost);
      if p.items == [] then Rejected(NoItemsMessage(|rows|, |p.order|))
      else Parsed(Report(e, p))
  }

  /** `parseExcelFile`: the parse with this parser's own `getCostPrice`. */
  method ParseExcelFile(sheet: Option<seq<Row>>, today: string) returns (r: Outcome)
    ensures r == Parse(sheet, GetCostPrice, today)
  {
    var cost := GetCostPrice;
    if sheet.None? {
      return Rejected("No sheets found in Excel file");
    }
    var rows := sheet.value;
    if rows == [] {
      return Rejected("Excel file is empty or cannot be read");
    }
    var e := FindPeriod(rows, today);
    var items, order, buckets, revenue, tax := RowLoop(rows, cost);
    RunKeys(LinesOf(rows), cost);
    if items == [] {
      return Rejected(NoItemsMessage(|rows|, |order|));
    }
    var d := Assemble(e, Run(LinesOf(rows), cost), items, order, buckets, revenue, tax);
    r := Parsed(d);
  }

  /** The totals and groups computed after the loop, from the pass `p` it ran. */
  method Assemble(e: Extracted, ghost p: Pass, items: seq<SaleItem>, order: seq<string>,
                  buckets: map<string, seq<SaleItem>>, revenue: real, tax: real) returns (d: ParsedExcelData)
    requires items == p.items && order == p.order && buckets == p.buckets && revenue == p.revenue && tax == p.tax
    requires forall k :: k in order ==> k in buckets
    ensures d == Report(e, p)
  {
    var groups := BuildGroups(order, buckets);
    var totalCost := Sum(items, ItemCost);
    var netProfit := (revenue - totalCost) - tax;
    d := ParsedExcelData(e.dateRange, e.date, items, groups, revenue, totalCost, netProfit,
                         Sum(items, QuantityOf), tax, revenue, Percent(netProfit, revenue));
  }

  /** `Sum` over the groups of a group-wise figure is the sum over the items of the matching
      item figure, when the buckets are the groups of the items. */
  lemma {:induction false} GroupsSum(order: seq<string>, buckets: map<string, seq<SaleItem>>, items: seq<SaleItem>, f: SaleItem -> real, g: CategoryGroup -> real)
    requires forall k :: k in order ==> k in buckets && buckets[k] == Where(items, GroupKey, k)
    requires forall k :: k in order ==> g(GroupOf(k, buckets[k])) == Sum(buckets[k], f)
    ensures Sum(Groups(order, buckets), g) == SumOverKeys(order, items, GroupKey, f)
  {
    if order != [] {
      GroupsSum(order[..|order| - 1], buckets, items, f, g);
    }
  }

  /** The groups partition the items: their revenue, cost, orders and tax add up to the
      report's, and their pre-tax profits to the report's after-tax profit plus the tax. */
  lemma GroupsAddUp(items: seq<SaleItem>, order: seq<string>, buckets: map<string, seq<SaleItem>>)
    requires GroupedBy(items, order, buckets)
    ensures var gs := Groups(order, buckets);
            Sum(gs, GroupRevenue) == Sum(items, Net) && Sum(gs, GroupCost) == Sum(items, ItemCost) &&
            Sum(gs, GroupOrders) == Sum(items, QuantityOf) && Sum(gs, GroupTax) == Sum(items, TaxOf) &&
            Sum(gs, GroupProfit) == Sum(items, Net) - Sum(items, ItemCost)
  {
    forall i | 0 <= i < |items| ensures GroupKey(items[i]) in order {
      assert GroupKey(items[i]) in buckets;
    }
    GroupsSum(order, buckets, items, Net, GroupRevenue);
    GroupsPartitionSum(order, items, GroupKey, Net);
    GroupsSum(order, buckets, items, ItemCost, GroupCost);
    GroupsPartitionSum(order, items, GroupKey, ItemCost);
    GroupsSum(order, buckets, items, QuantityOf, GroupOrders);
    GroupsPartitionSum(order, items, GroupKey, QuantityOf);
    GroupsSum(order, buckets, items, TaxOf, GroupTax);
    GroupsPartitionSum(order, items, GroupKey, TaxOf);
    GroupProfitsAddUp(Groups(order, buckets));
  }

  /** A sum of pre-tax subtotal profits is the sum of revenues less the sum of costs. */
  lemma {:induction false} GroupProfitsAddUp(gs: seq<CategoryGroup>)
    requires forall i :: 0 <= i < |gs| ==> gs[i].subtotalProfit == gs[i].subtotalRevenue - gs[i].subtotalCost
    ensures Sum(gs, GroupProfit) == Sum(gs, GroupRevenue) - Sum(gs, GroupCost)
  {
    if gs != [] {
      GroupProfitsAddUp(gs[..|gs| - 1]);
    }
  }

  /** A resolved parse holds the pass over its rows. */
  lemma ParsedPass(sheet: Option<seq<Row>>, cost: string -> real, today: string)
    requires Parse(sheet, cost, today).Parsed?
    ensures sheet.Some? && sheet.value != []
    ensures var d, p := Parse(sheet, cost, today).data, Run(LinesOf(sheet.value), cost);
            (forall k :: k in p.order ==> k in p.buckets) &&
            d == Report(ScanPeriod(sheet.value, 0, today), p) && p.items != []
  {
    RunKeys(LinesOf(sheet.value), cost);
  }

  /** Grouped buckets give groups with distinct names, each holding exactly the items of its
      key, in order. */
  lemma GroupsGrouped(items: seq<SaleItem>, order: seq<string>, buckets: map<string, seq<SaleItem>>)
    requires GroupedBy(items, order, buckets)
    ensures var gs := Groups(order, buckets);
            (forall i, j :: 0 <= i < j < |gs| ==> gs[i].name != gs[j].name) &&
            (forall i :: 0 <= i < |gs| ==> gs[i].items == Where(items, GroupKey, gs[i].name))
  {
    var gs := Groups(order, buckets);
    forall i | 0 <= i < |gs| ensures gs[i].name == order[i] && gs[i].items == buckets[order[i]] {
    }
  }

  /** A resolved parse had a non-empty sheet and some accepted item. Its items are the item
      lines with a positive net amount, in order, labelled with the heading current at their
      line; its revenue and tax are their sums; its groups have distinct names, each holding
      exactly the items of its key; and the groups' subtotals add up to the report's totals,
      except that their pre-tax profits exceed the report's after-tax profit by the tax. */
  lemma ParsedReport(sheet: Option<seq<Row>>, cost: string -> real, today: string)
    requires Parse(sheet, cost, today).Parsed?
    ensures sheet.Some? && sheet.value != []
    ensures var d := Parse(sheet, cost, today).data;
            d.items != [] && d.items == ItemsOf(LinesOf(sheet.value), cost) &&
            d.totalRevenue == Sum(d.items, Net) && d.totalTax == Sum(d.items, TaxOf) &&
            (forall i, j :: 0 <= i < j < |d.categoryGroups| ==> d.categoryGroups[i].name != d.categoryGroups[j].name) &&
            (forall i :: 0 <= i < |d.categoryGroups| ==> d.categoryGroups[i].items == Where(d.items, GroupKey, d.categoryGroups[i].name)) &&
            Sum(d.categoryGroups, GroupRevenue) == d.totalRevenue &&
            Sum(d.categoryGroups, GroupCost) == d.totalCost &&
            Sum(d.categoryGroups, GroupOrders) == d.totalOrders &&
            Sum(d.categoryGroups, GroupTax) == d.totalTax &&
            Sum(d.categoryGroups, GroupProfit) == d.totalProfit + d.totalTax
  {
    ParsedPass(sheet, cost, today);
    var lines := LinesOf(sheet.value);
    var p := Run(lines, cost);
    RunItems(lines, cost);
    SheetHeadings(sheet.value);
    RunGrouped(lines, cost);
    GroupsGrouped(p.items, p.order, p.buckets);
    GroupsAddUp(p.items, p.order, p.buckets);
  }

  /** A sheet with rows but no accepted item is refused with its row count and the number of
      distinct headings met. */
  lemma NoItemsRefused(rows: seq<Row>, cost: string -> real, today: string)
    requires rows != [] && ItemsOf(LinesOf(rows), cost) == []
    ensures Parse(Some(rows), cost, today) == Rejected(NoItemsMessage(|rows|, |Distinct(Headings(LinesOf(rows)))|))
  {
    RunItems(LinesOf(rows), cost);
    NoItemsKeysAreHeadings(LinesOf(rows), cost);
  }

  /** Items read before any heading are labelled "Uncategorized" and filed under the empty
      key: a single item line yields one group, named "". */
  lemma ItemBeforeHeadingGroupedUnderEmptyKey(l: Line, cost: string -> real)
    requires l.Item? && l.figures.netAmount > 0.0
    ensures var p := Run([l], cost);
            p.order == [""] && "" in p.buckets && |p.items| == 1 &&
            p.items[0].category == "Uncategorized" && p.buckets[""] == p.items
  {
    assert [l][..0] == [];
  }
}
