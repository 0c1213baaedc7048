/**
 * The workbook as the processor sees it through the spreadsheet library,
 * reduced to what it reads: sheet names in workbook order, each sheet's
 * `max_row` and `max_column`, and the already-stringified value of a cell
 * addressed by 1-based row and column.
 */
module Workbook {

  /** One cell read: None, a value, or an access that raised (app.py:62, app.py:72). */
  datatype Cell = Blank | Value(text: string) | Fault(reason: string)

  datatype Grid = Grid(maxRow: nat, maxCol: nat, cell: (nat, nat) -> Cell)

  /**
   * The sheet looked up by name (app.py:43): a worksheet, or a sheet whose
   * dimensions cannot be read (so `_process_sheet` raises before touching any cell).
   */
  datatype SheetHandle = Worksheet(grid: Grid) | Unreadable(reason: string)

  datatype NamedSheet = NamedSheet(name: string, handle: SheetHandle)

  /** The workbook as opened with computed values (app.py:30), or the reason opening raised. */
  datatype WorkbookSource = Loaded(sheets: seq<NamedSheet>) | Unloadable(reason: string)

  function SheetNames(sheets: seq<NamedSheet>): (names: seq<string>)
    ensures |names| == |sheets|
    ensures forall i :: 0 <= i < |sheets| ==> names[i] == sheets[i].name
  {
    seq(|sheets|, i requires 0 <= i < |sheets| => sheets[i].name)
  }
}
