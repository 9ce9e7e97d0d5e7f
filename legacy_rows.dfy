/** The row loop of the two older client-side parsers, lib/excel-parser-new.ts and
    lib/excel-parser.ts, which are textually the same apart from how an item row is priced
    and recorded (that is a parameter here). Only Max/Min/Avg/Total rows are skipped; any
    row with a text in column 0 and nothing in column 2 is consumed as a heading, and names a
    category unless it is a subtotal, round-off, hotel or report line; an item row needs
    nothing in column 0, something in column 1 and a number, of any sign, in column 2.
    There are no buckets: items carry the current heading, the empty string before any. */
module LegacyRows {
  import opened Strings
  import opened Cells
  import opened Money
  import Sales
  import ReportRows

  const SummaryLabels: seq<string> := ["Max", "Min", "Avg", "Total"]

  /** `firstCell && ['Max', 'Min', 'Avg', 'Total'].includes(String(firstCell).trim())`. */
  predicate IsSummaryRow(row: Row) {
    Truthy(At(row, 0)) && Trim(Text(At(row, 0))) in SummaryLabels
  }

  /** `firstCell && typeof firstCell === 'string' && !row[2]`. */
  predicate IsHeadingRow(row: Row) {
    At(row, 0).Str? && At(row, 0).s != "" && !Truthy(At(row, 2))
  }

  /** A heading names a category unless it contains one of the four excluded phrases. */
  predicate NamesCategory(name: string) {
    !Contains(name, "Sub Total") && !Contains(name, "Round off") && !Contains(name, "Hotel") && !Contains(name, "Group Report")
  }

  /** `(firstCell === null || firstCell === undefined) && row[1] && typeof row[2] === 'number'`. */
  predicate IsItemRow(row: Row) {
    At(row, 0).Absent? && Truthy(At(row, 1)) && At(row, 2).Num?
  }

  /** What one row means to the loop: nothing (an empty row, a summary row, a consumed
      heading that names no category, or a row no test accepts), a category heading with
      its trimmed name, or an item line with its trimmed name and columns 2 to 7. */
  datatype Line = Blank | Summary | Heading(name: string) | Consumed | Item(name: string, figures: Sales.Figures) | Ignored

  /** The tests of the loop in their order: empty row, summary label, heading, item. */
  function Classify(row: Row): (l: Line)
    ensures l == Blank <==> |row| == 0
    ensures l == Summary <==> |row| > 0 && IsSummaryRow(row)
    ensures l.Heading? <==> |row| > 0 && !IsSummaryRow(row) && IsHeadingRow(row) && NamesCategory(Trim(At(row, 0).s))
    ensures l == Consumed <==> |row| > 0 && !IsSummaryRow(row) && IsHeadingRow(row) && !NamesCategory(Trim(At(row, 0).s))
    ensures l.Item? <==> IsItemRow(row)
    ensures l.Heading? ==> l.name == Trim(At(row, 0).s)
    ensures l.Item? ==> l.name == Trim(Text(At(row, 1))) && l.figures == ReportRows.FiguresOf(row) &&
                        l.figures.quantity == At(row, 2).n
  {
    if |row| == 0 then Blank
    else if IsSummaryRow(row) then Summary
    else if IsHeadingRow(row) then
      if NamesCategory(Trim(At(row, 0).s)) then Heading(Trim(At(row, 0).s)) else Consumed
    else if IsItemRow(row) then Item(Trim(Text(At(row, 1))), ReportRows.FiguresOf(row))
    else Ignored
  }

  function LinesOf(rows: seq<Row>): (ls: seq<Line>)
    ensures |ls| == |rows|
    ensures forall i :: 0 <= i < |rows| ==> ls[i] == Classify(rows[i])
  {
    if rows == [] then [] else LinesOf(rows[..|rows| - 1]) + [Classify(rows[|rows| - 1])]
  }

  /** The loop's state: the items so far, `currentCategory`, and the running `totalRevenue`
      and tax total, over items of type `I`. */
  datatype Pass<I> = Pass(items: seq<I>, current: string, revenue: real, tax: real)

  /** One turn of the loop: a heading becomes `currentCategory`; an item line is recorded
      by `price` (its name, the current category, its figures) and its net amount and tax
      are added to the running totals; anything else changes nothing. */
  function Step<I>(p: Pass<I>, l: Line, price: (string, string, Sales.Figures) -> I): Pass<I> {
    match l
    case Heading(name) => p.(current := name)
    case Item(name, f) =>
      Pass(p.items + [price(name, p.current, f)], p.current, p.revenue + f.netAmount, p.tax + f.tax)
    case _ => p
  }

  function Run<I>(lines: seq<Line>, price: (string, string, Sales.Figures) -> I): Pass<I> {
    if lines == [] then Pass([], "", 0.0, 0.0)
    else Step(Run(lines[..|lines| - 1], price), lines[|lines| - 1], price)
  }

  lemma RunSnoc<I>(lines: seq<Line>, l: Line, price: (string, string, Sales.Figures) -> I)
    ensures Run(lines + [l], price) == Step(Run(lines, price), l, price)
  {
    assert (lines + [l])[..|lines|] == lines;
  }

  /** The body of the `for` loop for one classified row. */
  method StepRow<I>(items: seq<I>, current: string, revenue: real, tax: real, line: Line,
                    price: (string, string, Sales.Figures) -> I)
    returns (items': seq<I>, current': string, revenue': real, tax': real)
    ensures Pass(items', current', revenue', tax') == Step(Pass(items, current, revenue, tax), line, price)
  {
    items', current', revenue', tax' := items, current, revenue, tax;
    match line {
      case Heading(name) =>
        current' := name;
      case Item(itemName, f) =>
        items' := items + [price(itemName, current, f)];
        revenue' := revenue + f.netAmount;
        tax' := tax + f.tax;
      case _ =>
    }
  }

  /** The `for` loop over the rows. */
  method RowLoop<I>(rows: seq<Row>, price: (string, string, Sales.Figures) -> I)
    returns (items: seq<I>, revenue: real, tax: real)
    ensures var p := Run(LinesOf(rows), price); items == p.items && revenue == p.revenue && tax == p.tax
  {
    items, revenue, tax := [], 0.0, 0.0;
    var current := "";
    var i := 0;
    assert LinesOf(rows[..0]) == [] by { assert rows[..0] == []; }
    while i < |rows|
      invariant 0 <= i <= |rows|
      invariant Pass(items, current, revenue, tax) == Run(LinesOf(rows[..i]), price)
    {
      var line := Classify(rows[i]);
      assert LinesOf(rows[..i + 1]) == LinesOf(rows[..i]) + [line] by {
        assert rows[..i + 1][..i] == rows[..i] && rows[..i + 1][i] == rows[i];
      }
      RunSnoc(LinesOf(rows[..i]), line, price);
      items, current, revenue, tax := StepRow(items, current, revenue, tax, line, price);
      i := i + 1;
    }
    assert rows[..i] == rows;
  }

  /** `currentCategory` after `lines`: the latest heading, the empty string before any. */
  function LatestHeading(lines: seq<Line>): string {
    if lines == [] then ""
    else if lines[|lines| - 1].Heading? then lines[|lines| - 1].name
    else LatestHeading(lines[..|lines| - 1])
  }

  /** The items of `lines`: one per item line, in line order, recorded with the heading
      current at that line. */
  function ItemsOf<I>(lines: seq<Line>, price: (string, string, Sales.Figures) -> I): seq<I> {
    if lines == [] then []
    else
      var init, l := lines[..|lines| - 1], lines[|lines| - 1];
      ItemsOf(init, price) + (if l.Item? then [price(l.name, LatestHeading(init), l.figures)] else [])
  }

  lemma {:induction false} RunCurrent<I>(lines: seq<Line>, price: (string, string, Sales.Figures) -> I)
    ensures Run(lines, price).current == LatestHeading(lines)
  {
    if lines != [] {
      RunCurrent(lines[..|lines| - 1], price);
    }
  }

  /** Each item line is recorded once, in line order, with the heading current at its line;
      and when `price` keeps the net amount and the tax of the figures, the running totals
      are the sums of those of the items. */
  lemma {:induction false} RunItems<I>(lines: seq<Line>, price: (string, string, Sales.Figures) -> I, net: I -> real, tax: I -> real)
    requires forall n: string, c: string, f: Sales.Figures :: net(price(n, c, f)) == f.netAmount && tax(price(n, c, f)) == f.tax
    ensures var p := Run(lines, price);
            p.items == ItemsOf(lines, price) && p.revenue == Sum(p.items, net) && p.tax == Sum(p.items, tax)
  {
    if lines != [] {
      var init, l := lines[..|lines| - 1], lines[|lines| - 1];
      RunItems(init, price, net, tax);
      RunCurrent(init, price);
      var p := Run(init, price);
      if l.Item? {
        var item := price(l.name, p.current, l.figures);
        assert (p.items + [item])[..|p.items|] == p.items;
      } else {
        assert ItemsOf(lines, price) == ItemsOf(init, price) + [];
      }
    }
  }

  /** Rows none of which is an item row leave no item. */
  lemma {:induction false} NoItemLines<I>(rows: seq<Row>, price: (string, string, Sales.Figures) -> I)
    requires forall i :: 0 <= i < |rows| ==> !IsItemRow(rows[i])
    ensures ItemsOf(LinesOf(rows), price) == []
  {
    if rows != [] {
      var init := rows[..|rows| - 1];
      NoItemLines(init, price);
      assert LinesOf(rows)[..|rows| - 1] == LinesOf(init);
    }
  }
}
