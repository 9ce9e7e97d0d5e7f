/** The untyped values of a decoded spreadsheet grid, and the JavaScript coercions the
    report code applies to them (`String(x || d)`, `Number(x) || 0`, truthiness). */
module Cells {
  import opened Strings

  /** One grid value. `Absent` stands for both `null` and `undefined`: no branch of the
      report code tells the two apart. */
  datatype Cell = Absent | Str(s: string) | Num(n: real)

  type Row = seq<Cell>

  /** `row[i]`: an index past the end of the row reads as `undefined`. */
  function At(row: Row, i: nat): (c: Cell)
    ensures i >= |row| ==> c == Absent
  {
    if i < |row| then row[i] else Absent
  }

  /** `rows[r]?.[c]`: a missing row reads as `undefined` too. */
  function CellAt(rows: seq<Row>, r: nat, c: nat): Cell {
    if r < |rows| then At(rows[r], c) else Absent
  }

  /** JavaScript truthiness: `null`, `undefined`, `''` and `0` are falsy. */
  predicate Truthy(c: Cell) {
    match c
    case Absent => false
    case Str(s) => s != ""
    case Num(n) => n != 0.0
  }

  /** `String(c)` for a value that is not `null`/`undefined`. */
  function Text(c: Cell): string
    requires !c.Absent?
  {
    match c
    case Str(s) => s
    case Num(n) => NumText(n)
  }

  /** `String(c || fallback)`. */
  function TextOr(c: Cell, fallback: string): (r: string)
    ensures !Truthy(c) ==> r == fallback
    ensures c.Str? && c.s != "" ==> r == c.s
  {
    if Truthy(c) then Text(c) else fallback
  }

  /** `Number(s) || 0` for a string: the value of a decimal literal after trimming, and 0
      for blank or non-numeric text. */
  function StringToNumber(s: string): real {
    var t := Trim(s);
    if t == "" then 0.0 else DecimalValue(t).1
  }

  /** `Number(c) || 0`. */
  function NumberOr0(c: Cell): (r: real)
    ensures c.Num? ==> r == c.n
    ensures c.Absent? ==> r == 0.0
    ensures c.Str? ==> r == StringToNumber(c.s)
  {
    match c
    case Absent => 0.0
    case Num(n) => n
    case Str(s) => StringToNumber(s)
  }
}
