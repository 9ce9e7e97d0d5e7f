/** The row engine shared by the parse and upload routes and by lib/excel-parser-v3.ts: each
    row of the decoded grid is classified (skipped, a category heading, an item line, or
    nothing), item lines are priced with a cost resolver and appended to the item list and to
    the bucket of the most recent category. The three copies are textually the same; only the
    cost resolver differs, so it is a parameter here. */
module ReportRows {
  import opened Strings
  import opened Cells
  import opened Money
  import opened Grouping
  import opened Sales

  /** The labels of the summary and header rows that are never read as data. */
  const SkipExact: seq<string> := ["Max", "Min", "Avg", "Total", "Sub Total", "Round off", "Group"]

  /** `isSkipRow(col0)`. */
  predicate IsSkipRow(col0: string) {
    col0 in SkipExact || Contains(Lower(col0), "hotel") || Contains(col0, "Group Report")
  }

  /** `isCategoryRow(row)`: a text in column 0 that is not blank, and nothing (or the empty
      text) in column 1. */
  predicate IsCategoryRow(row: Row) {
    At(row, 0).Str? && Trim(At(row, 0).s) != "" &&
    (At(row, 1).Absent? || At(row, 1) == Str(""))
  }

  /** `isItemRow(row)`: nothing in column 0, a text that is not blank in column 1, and a
      positive number in column 2. */
  predicate IsItemRow(row: Row) {
    At(row, 0).Absent? && At(row, 1).Str? && Trim(At(row, 1).s) != "" &&
    At(row, 2).Num? && At(row, 2).n > 0.0
  }

  /** The two classifiers never both accept a row: a category row has a text in column 0,
      an item row has nothing there. */
  lemma ClassifiersExclusive(row: Row)
    ensures !(IsCategoryRow(row) && IsItemRow(row))
  {
  }

  /** `String(row[0] || '').trim()`. */
  function Col0(row: Row): string {
    Trim(TextOr(At(row, 0), ""))
  }

  /** The figures of an item row, columns 2 to 7, each read with `Number(x) || 0`. */
  function FiguresOf(row: Row): (f: Figures)
    ensures f.quantity == NumberOr0(At(row, 2)) && f.myAmount == NumberOr0(At(row, 3))
    ensures f.discount == NumberOr0(At(row, 4)) && f.netAmount == NumberOr0(At(row, 5))
    ensures f.tax == NumberOr0(At(row, 6)) && f.totalSales == NumberOr0(At(row, 7))
  {
    Figures(NumberOr0(At(row, 2)), NumberOr0(At(row, 3)), NumberOr0(At(row, 4)),
            NumberOr0(At(row, 5)), NumberOr0(At(row, 6)), NumberOr0(At(row, 7)))
  }

  /** What one row means to the loop: nothing (an empty row, a skipped label, or a row that
      passes no test), a category heading, or an item line with its trimmed name and figures. */
  datatype Line = Blank | Skipped | Category(name: string) | Item(name: string, figures: Figures) | Ignored

  /** The tests of the row loop, in their order: an empty row, then the skip list on the
      trimmed column 0, then the category test, then the item test. */
  function Classify(row: Row): (l: Line)
    ensures |row| == 0 ==> l == Blank
    ensures l == Blank ==> |row| == 0
    ensures l == Skipped <==> |row| > 0 && IsSkipRow(Col0(row))
    ensures l.Category? <==> |row| > 0 && !IsSkipRow(Col0(row)) && IsCategoryRow(row)
    ensures l.Item? <==> |row| > 0 && !IsSkipRow(Col0(row)) && IsItemRow(row)
    ensures l.Category? ==> l.name == Col0(row) && l.name != ""
    ensures l.Item? ==> l.name == Trim(At(row, 1).s) && l.name != "" &&
                        l.figures == FiguresOf(row) && l.figures.quantity > 0.0
  {
    if |row| == 0 then Blank
    else if IsSkipRow(Col0(row)) then Skipped
    else if IsCategoryRow(row) then Category(Col0(row))
    else if IsItemRow(row) then Item(Trim(At(row, 1).s), FiguresOf(row))
    else Ignored
  }

  /** The skip test comes first: a "Total" or "Sub Total" row with an empty column 1 passes
      the category test but is skipped. */
  lemma SkipRowsNeverCategories(row: Row)
    requires IsCategoryRow(row) && Col0(row) in SkipExact
    ensures Classify(row) == Skipped
  {
  }

  /** The lines of `rows`, one per row. */
  function LinesOf(rows: seq<Row>): (ls: seq<Line>)
    ensures |ls| == |rows|
    ensures forall i :: 0 <= i < |rows| ==> ls[i] == Classify(rows[i])
  {
    if rows == [] then [] else LinesOf(rows[..|rows| - 1]) + [Classify(rows[|rows| - 1])]
  }

  /** The loop's state: the items so far, the keys of `categoryMap` in insertion order, its
      buckets, and `currentCategory`. */
  datatype Pass = Pass(items: seq<SaleItem>, order: seq<string>, buckets: map<string, seq<SaleItem>>, current: string)

  const Start: Pass := Pass([], [], map[], "Uncategorized")

  /** `if (!categoryMap.has(k)) categoryMap.set(k, [])`. */
  function Open(p: Pass, k: string): (q: Pass)
    ensures q.items == p.items && q.current == p.current && k in q.buckets
    ensures k in p.buckets ==> q == p
    ensures k !in p.buckets ==> q.order == p.order + [k] && q.buckets == p.buckets[k := []]
  {
    if k in p.buckets then p else p.(order := p.order + [k], buckets := p.buckets[k := []])
  }

  /** A category row: `currentCategory = col0`, and its bucket is opened if new. */
  function EnterCategory(p: Pass, name: string): (q: Pass)
    ensures q.items == p.items && q.current == name && name in q.buckets
  {
    Open(p.(current := name), name)
  }

  /** An item row: the item goes to `items` and to the bucket of the current category,
      which is opened first if new. */
  function AddItem(p: Pass, item: SaleItem): (q: Pass)
    ensures q.items == p.items + [item] && q.current == p.current
    ensures q.order == Open(p, p.current).order
  {
    var o := Open(p, p.current);
    o.(items := o.items + [item], buckets := o.buckets[p.current := o.buckets[p.current] + [item]])
  }

  /** One turn of the row loop: a category heading becomes `currentCategory` and opens its
      bucket, an item line is priced at `cost` of its name and filed under `currentCategory`,
      any other line changes nothing. */
  function Step(p: Pass, l: Line, cost: string -> real): Pass {
    match l
    case Category(name) => EnterCategory(p, name)
    case Item(name, f) => AddItem(p, PriceItem(name, p.current, f, cost(name)))
    case _ => p
  }

  /** The state after the loop has run over `lines`. */
  function Run(lines: seq<Line>, cost: string -> real): Pass {
    if lines == [] then Start else Step(Run(lines[..|lines| - 1], cost), lines[|lines| - 1], cost)
  }

  lemma RunSnoc(lines: seq<Line>, l: Line, cost: string -> real)
    ensures Run(lines + [l], cost) == Step(Run(lines, cost), l, cost)
  {
    assert (lines + [l])[..|lines|] == lines;
  }

  /** One more row makes one more step over its line. */
  lemma RunRowsSnoc(rows: seq<Row>, i: nat, cost: string -> real)
    requires i < |rows|
    ensures Run(LinesOf(rows[..i + 1]), cost) == Step(Run(LinesOf(rows[..i]), cost), Classify(rows[i]), cost)
  {
    assert rows[..i + 1][..i] == rows[..i] && rows[..i + 1][i] == rows[i];
    assert LinesOf(rows[..i + 1]) == LinesOf(rows[..i]) + [Classify(rows[i])];
    RunSnoc(LinesOf(rows[..i]), Classify(rows[i]), cost);
  }

  /** The row loop of the POST handlers and of `parseExcelFile`. */
  method RowPass(rows: seq<Row>, cost: string -> real) returns (items: seq<SaleItem>, order: seq<string>, buckets: map<string, seq<SaleItem>>)
    ensures var p := Run(LinesOf(rows), cost); items == p.items && order == p.order && buckets == p.buckets
  {
    items, order, buckets := [], [], map[];
    var current := "Uncategorized";
    var i := 0;
    assert LinesOf(rows[..0]) == [] by { assert rows[..0] == []; }
    assert Pass(items, order, buckets, current) == Run(LinesOf(rows[..0]), cost);
    while i < |rows|
      invariant 0 <= i <= |rows|
      invariant Pass(items, order, buckets, current) == Run(LinesOf(rows[..i]), cost)
    {
      var line := Classify(rows[i]);
      ghost var before := Pass(items, order, buckets, current);
      ghost var next := Step(before, line, cost);
      RunRowsSnoc(rows, i, cost);
      match line {
        case Category(col0) =>
          current := col0;
          if col0 !in buckets {
            order := order + [col0];
            buckets := buckets[col0 := []];
          }
        case Item(itemName, f) =>
          var item := PriceItem(itemName, current, f, cost(itemName));
          items := items + [item];
          if current !in buckets {
            order := order + [current];
            buckets := buckets[current := []];
          }
          buckets := buckets[current := buckets[current] + [item]];
        case _ =>
      }
      assert Pass(items, order, buckets, current) == next;
      i := i + 1;
      assert Pass(items, order, buckets, current) == Run(LinesOf(rows[..i]), cost);
    }
    assert rows[..i] == rows;
  }

  // ---------------------------------------------------------------- what the pass keeps

  /** `currentCategory` after `lines`: the latest category heading, or "Uncategorized" before
      any. */
  function LatestCategory(lines: seq<Line>): string {
    if lines == [] then "Uncategorized"
    else if lines[|lines| - 1].Category? then lines[|lines| - 1].name
    else LatestCategory(lines[..|lines| - 1])
  }

  /** The items of `lines`, one per item line and in line order, each filed under the
      category current at its line. */
  function ItemsOf(lines: seq<Line>, cost: string -> real): seq<SaleItem> {
    if lines == [] then []
    else
      var init, l := lines[..|lines| - 1], lines[|lines| - 1];
      ItemsOf(init, cost) + (if l.Item? then [PriceItem(l.name, LatestCategory(init), l.figures, cost(l.name))] else [])
  }

  /** The bucket key a line touches: a category heading its own name, an item line the
      current category, any other line none. */
  function Touch(l: Line, current: string): (ks: seq<string>)
    ensures |ks| <= 1
  {
    match l
    case Category(name) => [name]
    case Item(_, _) => [current]
    case _ => []
  }

  /** The bucket keys in the order the lines touch them. */
  function Touched(lines: seq<Line>): seq<string> {
    if lines == [] then []
    else Touched(lines[..|lines| - 1]) + Touch(lines[|lines| - 1], LatestCategory(lines[..|lines| - 1]))
  }

  /** `currentCategory` is the latest category heading, "Uncategorized" before any. */
  lemma {:induction false} RunCurrent(lines: seq<Line>, cost: string -> real)
    ensures Run(lines, cost).current == LatestCategory(lines)
  {
    if lines != [] {
      RunCurrent(lines[..|lines| - 1], cost);
    }
  }

  /** Each item line is appended to `items` once, in line order, under the category current
      at that line. */
  lemma {:induction false} RunItems(lines: seq<Line>, cost: string -> real)
    ensures Run(lines, cost).items == ItemsOf(lines, cost)
  {
    if lines != [] {
      var init, l := lines[..|lines| - 1], lines[|lines| - 1];
      RunItems(init, cost);
      RunCurrent(init, cost);
      if !l.Item? {
        assert ItemsOf(lines, cost) == ItemsOf(init, cost) + [];
      }
    }
  }

  /** The keys of the map are the distinct touched categories, in first-touched order. */
  lemma {:induction false} RunOrder(lines: seq<Line>, cost: string -> real)
    ensures Run(lines, cost).order == Distinct(Touched(lines))
  {
    if lines != [] {
      var init, l := lines[..|lines| - 1], lines[|lines| - 1];
      RunOrder(init, cost);
      RunCurrent(init, cost);
      RunKeys(init, cost);
      StepOrder(Run(init, cost), l, cost, Touched(init));
    }
  }

  lemma StepOrder(p: Pass, l: Line, cost: string -> real, t: seq<string>)
    requires p.order == Distinct(t) && forall k :: k in p.buckets <==> k in p.order
    ensures Step(p, l, cost).order == Distinct(t + Touch(l, p.current))
  {
    match l
    case Category(name) =>
      assert Touch(l, p.current) == [name];
      OpenOrder(p.(current := name), name, t);
    case Item(n, f) =>
      assert Touch(l, p.current) == [p.current];
      OpenOrder(p, p.current, t);
    case _ =>
      assert t + Touch(l, p.current) == t;
  }

  /** Opening the bucket of `k` adds `k` to the distinct keys. */
  lemma OpenOrder(p: Pass, k: string, t: seq<string>)
    requires p.order == Distinct(t) && forall k :: k in p.buckets <==> k in p.order
    ensures Open(p, k).order == Distinct(t + [k])
  {
    DistinctSnoc(t, k);
    assert k in p.buckets <==> k in t;
  }

  /** The map's keys are exactly the recorded key order. */
  lemma {:induction false} RunKeys(lines: seq<Line>, cost: string -> real)
    ensures forall k :: k in Run(lines, cost).buckets <==> k in Run(lines, cost).order
  {
    if lines != [] {
      RunKeys(lines[..|lines| - 1], cost);
    }
  }

  /** Opening a bucket keeps the grouping: a new key has no items yet. */
  lemma OpenGrouped(p: Pass, k: string)
    requires GroupedBy(p.items, p.order, p.buckets)
    ensures var q := Open(p, k); GroupedBy(q.items, q.order, q.buckets)
  {
    if k !in p.buckets {
      var q := Open(p, k);
      forall i | 0 <= i < |p.items| ensures CategoryOf(p.items[i]) != k {
        assert p.items[i].category in p.buckets;
      }
      WhereNone(p.items, CategoryOf, k);
      NoDuplicatesSnoc(p.order, k);
      forall key | key in q.buckets ensures q.buckets[key] == Where(q.items, CategoryOf, key) {
        if key != k {
          assert q.buckets[key] == p.buckets[key];
        }
      }
    }
  }

  lemma AddItemGrouped(p: Pass, item: SaleItem)
    requires GroupedBy(p.items, p.order, p.buckets) && item.category == p.current
    ensures var q := AddItem(p, item); GroupedBy(q.items, q.order, q.buckets)
  {
    var o := Open(p, p.current);
    OpenGrouped(p, p.current);
    var q := AddItem(p, item);
    forall k | k in q.buckets ensures q.buckets[k] == Where(q.items, CategoryOf, k) {
      WhereSnoc(o.items, item, CategoryOf, k);
    }
    forall i | 0 <= i < |q.items| ensures q.items[i].category in q.buckets {
      if i < |o.items| {
        assert q.items[i] == o.items[i];
      }
    }
  }

  /** Every turn of the loop keeps the buckets equal to the groups of `items` by category,
      with no key twice. */
  lemma {:induction false} RunGrouped(lines: seq<Line>, cost: string -> real)
    ensures var p := Run(lines, cost); GroupedBy(p.items, p.order, p.buckets)
  {
    if lines != [] {
      var init, l := lines[..|lines| - 1], lines[|lines| - 1];
      RunGrouped(init, cost);
      var p := Run(init, cost);
      match l
      case Category(name) =>
        OpenGrouped(p.(current := name), name);
      case Item(name, f) =>
        AddItemGrouped(p, PriceItem(name, p.current, f, cost(name)));
      case _ =>
    }
  }

  /** So the category summaries of a pass add up to its report summary. */
  lemma PassCategoriesAddUp(lines: seq<Line>, cost: string -> real)
    ensures var p := Run(lines, cost);
            (forall k :: k in p.order ==> k in p.buckets) &&
            var cs, t := Summaries(p.order, p.buckets), Total(p.items);
            Sum(cs, RevenueOf) == t.totalRevenue && Sum(cs, CategoryCostOf) == t.totalCost &&
            Sum(cs, CategoryTaxOf) == t.totalTax && Sum(cs, ItemCountOf) == t.totalItems as real &&
            Sum(cs, CategoryQuantityOf) == t.totalOrders && Sum(cs, CategoryProfitOf) == t.totalProfit
  {
    var p := Run(lines, cost);
    RunGrouped(lines, cost);
    CategoriesAddUp(p.items, p.order, p.buckets);
  }

  /** A header row that is not on the skip list and has nothing beside its text, such as a
      plain restaurant name, is read as a category heading: on its own it opens a bucket that
      stays empty, whose summary is all zeros. */
  lemma PlainHeaderOpensEmptyBucket(name: string, cost: string -> real)
    requires Trim(name) != "" && !IsSkipRow(Trim(name))
    ensures Classify([Str(name)]) == Category(Trim(name))
    ensures var p := Run(LinesOf([[Str(name)]]), cost);
            p.items == [] && p.order == [Trim(name)] && p.buckets == map[Trim(name) := []] &&
            Summaries(p.order, p.buckets) == [CategorySummary(Trim(name), 0, 0.0, 0.0, 0.0, 0.0, 0.0, 0.0)]
  {
    var n := Trim(name);
    var rows: seq<Row> := [[Str(name)]];
    PlainHeaderLine(name);
    assert rows[..0] == [];
    assert LinesOf(rows) == [Category(n)];
    FirstHeading(n, cost);
    SingleSummary(n);
  }

  /** The row alone is classified as a heading named by its trimmed text. */
  lemma PlainHeaderLine(name: string)
    requires Trim(name) != "" && !IsSkipRow(Trim(name))
    ensures Classify([Str(name)]) == Category(Trim(name))
  {
    assert Trim([]) == [];
    assert TextOr(Str(name), "") == name;
    assert At([Str(name)], 1) == Absent;
  }

  /** The state after a first heading. */
  lemma FirstHeading(n: string, cost: string -> real)
    ensures Run([Category(n)], cost) == Pass([], [n], map[n := []], n)
  {
    assert [Category(n)][..0] == [];
    assert Run([Category(n)], cost) == Step(Start, Category(n), cost);
    assert Start.buckets[n := []] == map[n := []];
  }

  /** The summaries of one empty bucket. */
  lemma SingleSummary(n: string)
    ensures Summaries([n], map[n := []]) == [CategorySummary(n, 0, 0.0, 0.0, 0.0, 0.0, 0.0, 0.0)]
  {
    assert [n][..0] == [];
    EmptyCategory(n);
  }

  /** A repeated category heading merges into the bucket already open: it moves
      `currentCategory` back but opens nothing. */
  lemma RepeatedCategoryMerges(p: Pass, name: string, cost: string -> real)
    requires name in p.buckets
    ensures Step(p, Category(name), cost) == p.(current := name)
  {
  }
}
