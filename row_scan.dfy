/**
 * An abstract model of reading one result row through `database/sql`'s
 * `Row.Scan`: each column's stored value is converted into the destination the
 * caller passed for it, column by column, and the first conversion that fails
 * ends the scan with an error naming that column.
 */
module RowScan {
  import opened Wrappers

  newtype int64 = x: int | -0x8000_0000_0000_0000 <= x < 0x8000_0000_0000_0000

  /** A stored column value: TEXT, BIGINT, or SQL NULL. */
  datatype Cell = TextCell(text: string) | IntCell(n: int64) | NullCell

  /**
   * What the caller passed to `Scan` for one column: a pointer to a Go
   * `string`, to an `int64`, to a nullable string, or a value that is not a
   * pointer at all.
   */
  datatype Dest = StringDest | Int64Dest | NullableStringDest | NonPointerDest

  /** What a destination holds after a successful conversion. */
  datatype Value = StrVal(s: string) | IntVal(n: int64) | OptVal(o: Option<string>)

  /** Why the conversion of one column failed. */
  datatype Conversion =
    | NotAPointer       // the destination is not a pointer
    | NullToString      // NULL cannot be stored in a plain string
    | Unsupported       // a column type the destination does not take

  /** A failed scan: the index of the first failing column and why it failed. */
  datatype ScanFault = ScanFault(column: nat, cause: Conversion)

  /** Converts one stored value into one destination. */
  function ScanColumn(c: Cell, d: Dest): (r: Result<Value, Conversion>)
    ensures d == NonPointerDest ==> r == Err(NotAPointer)
    ensures d == StringDest && c == NullCell ==> r == Err(NullToString)
    ensures r.Ok? && d == StringDest ==> c.TextCell? && r.value == StrVal(c.text)
    ensures r.Ok? && d == Int64Dest ==> c.IntCell? && r.value == IntVal(c.n)
    ensures d == NullableStringDest ==> (r.Ok? <==> !c.IntCell?)
    ensures r.Ok? && d == NullableStringDest ==> r.value == OptVal(if c.NullCell? then None else Some(c.text))
    ensures r.Ok? && r.value.StrVal? ==> c == TextCell(r.value.s)
    ensures r.Ok? && r.value.IntVal? ==> c == IntCell(r.value.n)
  {
    match d
    case NonPointerDest => Err(NotAPointer)
    case StringDest =>
      (match c
       case TextCell(s) => Ok(StrVal(s))
       case NullCell => Err(NullToString)
       case IntCell(_) => Err(Unsupported))
    case Int64Dest =>
      (match c
       case IntCell(n) => Ok(IntVal(n))
       case _ => Err(Unsupported))
    case NullableStringDest =>
      (match c
       case TextCell(s) => Ok(OptVal(Some(s)))
       case NullCell => Ok(OptVal(None))
       case IntCell(_) => Err(Unsupported))
  }

  /**
   * Scans columns `from..` of a row. On success every column was converted and
   * the values are in column order; on failure the fault names the FIRST
   * column whose conversion fails.
   */
  function ScanFrom(cells: seq<Cell>, dests: seq<Dest>, from: nat): (r: Result<seq<Value>, ScanFault>)
    requires |cells| == |dests| && from <= |cells|
    ensures r.Ok? <==> forall j | from <= j < |cells| :: ScanColumn(cells[j], dests[j]).Ok?
    ensures r.Ok? ==> |r.value| == |cells| - from
    ensures r.Ok? ==> forall j | from <= j < |cells| :: ScanColumn(cells[j], dests[j]) == Ok(r.value[j - from])
    ensures r.Err? ==> from <= r.error.column < |cells|
    ensures r.Err? ==> ScanColumn(cells[r.error.column], dests[r.error.column]) == Err(r.error.cause)
    ensures r.Err? ==> forall j | from <= j < r.error.column :: ScanColumn(cells[j], dests[j]).Ok?
    decreases |cells| - from
  {
    if from == |cells| then Ok([])
    else
      match ScanColumn(cells[from], dests[from])
      case Err(cause) => Err(ScanFault(from, cause))
      case Ok(v) =>
        match ScanFrom(cells, dests, from + 1)
        case Err(f) => Err(f)
        case Ok(vs) => Ok([v] + vs)
  }

  /** `Row.Scan`: all columns of one row into the given destinations. */
  function Scan(cells: seq<Cell>, dests: seq<Dest>): (r: Result<seq<Value>, ScanFault>)
    requires |cells| == |dests|
  {
    ScanFrom(cells, dests, 0)
  }
}
