/**
 * `_process_sheet`: turns one sheet into a bounded record. It reads the
 * header row, then at most `max_rows_per_sheet` data rows. Each data row
 * becomes a header-to-text dictionary with long cells cut. Rows with no
 * present cell are dropped. A sheet that raises at any point becomes an
 * error record for that sheet alone.
 */
module SheetExtractor {
  import opened Wrappers
  import opened TextUtil
  import opened OrderedDict
  import opened Workbook
  import opened TypeClassifier

  /** The two limits `ExcelProcessor.__init__` fixes; they never change afterwards. */
  datatype Limits = Limits(maxRowsPerSheet: nat, maxCharsPerCell: nat)

  const DefaultLimits := Limits(100, 500)

  datatype SheetRecord = SheetRecord(
    sheetName: string,
    totalRows: nat,
    totalColumns: nat,
    headers: seq<string>,
    dataTypes: map<string, ColumnType>,
    sampleData: seq<Row>,
    data: seq<Row>)

  datatype SheetOutcome = SheetOk(record: SheetRecord) | SheetError(message: string)

  function SheetErrorMessage(name: string, reason: string): string {
    "Failed to process sheet " + name + ": " + reason
  }

  /** The last row read: the smaller of the sheet's last row and one past the row limit (app.py:56). */
  function WindowEnd(lim: Limits, g: Grid): nat {
    if g.maxRow < lim.maxRowsPerSheet + 1 then g.maxRow else lim.maxRowsPerSheet + 1
  }

  /** The header of 1-based column `col`: the cell's text, or `Column_<col>` when it is None. */
  function HeaderText(c: Cell, col: nat): string {
    if c.Value? then c.text else "Column_" + NatStr(col)
  }

  function Headers(g: Grid): seq<string> {
    seq(g.maxCol, i requires 0 <= i < g.maxCol => HeaderText(g.cell(1, i + 1), i + 1))
  }

  /** What a data cell stores: its text, cut to the limit, or "" when it is None. */
  function CellText(lim: Limits, c: Cell): string {
    if c.Value? then Truncate(c.text, lim.maxCharsPerCell) else ""
  }

  function CellTexts(lim: Limits, g: Grid, r: nat): seq<string> {
    seq(g.maxCol, i requires 0 <= i < g.maxCol => CellText(lim, g.cell(r, i + 1)))
  }

  /** The dictionary built for data row `r`. */
  function RowOf(lim: Limits, g: Grid, r: nat): Row {
    Assemble(Headers(g), CellTexts(lim, g, r))
  }

  /** `has_data` after the first `upTo` columns of row `r`. */
  predicate AnyPresent(g: Grid, r: nat, upTo: nat) {
    exists c :: 1 <= c <= upTo && g.cell(r, c).Value?
  }

  predicate HasData(g: Grid, r: nat) {
    AnyPresent(g, r, g.maxCol)
  }

  /** The kept rows among rows `r..last`, in row order. */
  function KeptFrom(lim: Limits, g: Grid, r: nat, last: nat): seq<Row>
    decreases last + 1 - r
  {
    if r > last then []
    else (if HasData(g, r) then [RowOf(lim, g, r)] else []) + KeptFrom(lim, g, r + 1, last)
  }

  /** The row numbers of the kept rows among rows `r..last`, in order. */
  function KeptIndices(g: Grid, r: nat, last: nat): seq<nat>
    decreases last + 1 - r
  {
    if r > last then []
    else (if HasData(g, r) then [r] else []) + KeptIndices(g, r + 1, last)
  }

  /** The reason of the first faulty cell in row `r` from column `c` on. */
  function RowFaultFrom(g: Grid, r: nat, c: nat): Option<string>
    decreases g.maxCol + 1 - c
  {
    if c > g.maxCol then None
    else if g.cell(r, c).Fault? then Some(g.cell(r, c).reason)
    else RowFaultFrom(g, r, c + 1)
  }

  /** The reason of the first faulty cell in rows `r..last`, row by row. */
  function ScanFrom(g: Grid, r: nat, last: nat): Option<string>
    decreases last + 1 - r
  {
    if r > last then None
    else if RowFaultFrom(g, r, 1).Some? then RowFaultFrom(g, r, 1)
    else ScanFrom(g, r + 1, last)
  }

  function FirstThree(rows: seq<Row>): seq<Row> {
    rows[..if |rows| < 3 then |rows| else 3]
  }

  /** The record `_process_sheet` returns, or the error it reports. */
  function ExtractSheet(lim: Limits, sheet: SheetHandle, name: string): SheetOutcome
  {
    match sheet
    case Unreadable(reason) => SheetError(SheetErrorMessage(name, reason))
    case Worksheet(g) =>
      var last := WindowEnd(lim, g);
      if RowFaultFrom(g, 1, 1).Some? then SheetError(SheetErrorMessage(name, RowFaultFrom(g, 1, 1).value))
      else if ScanFrom(g, 2, last).Some? then SheetError(SheetErrorMessage(name, ScanFrom(g, 2, last).value))
      else
        var headers := Headers(g);
        var data := KeptFrom(lim, g, 2, last);
        SheetOk(SheetRecord(name, |data|, |headers|, headers, DataTypes(data, headers), FirstThree(data), data))
  }

  /** The header loop of `_process_sheet`: row 1, column by column. */
  method ReadHeaders(g: Grid) returns (fault: Option<string>, headers: seq<string>)
    ensures fault == RowFaultFrom(g, 1, 1)
    ensures fault.None? ==> headers == Headers(g)
  {
    headers := [];
    var col := 1;
    while col <= g.maxCol
      invariant 1 <= col <= g.maxCol + 1
      invariant headers == Headers(g)[..col - 1]
      invariant RowFaultFrom(g, 1, 1) == RowFaultFrom(g, 1, col)
    {
      var c := g.cell(1, col);
      if c.Fault? {
        return Some(c.reason), headers;
      }
      headers := headers + [if c.Value? then c.text else "Column_" + NatStr(col)];
      col := col + 1;
    }
    fault := None;
  }

  /** The inner loop of `_process_sheet`: fills `row_data` and `has_data` for one data row. */
  method ReadDataRow(lim: Limits, g: Grid, headers: seq<string>, row: nat)
    returns (fault: Option<string>, rowData: Row, hasData: bool)
    requires headers == Headers(g)
    ensures fault == RowFaultFrom(g, row, 1)
    ensures fault.None? ==> rowData == RowOf(lim, g, row) && hasData == HasData(g, row)
  {
    ghost var texts := CellTexts(lim, g, row);
    rowData := [];
    hasData := false;
    var j := 0;
    while j < |headers|
      invariant 0 <= j <= |headers| == |texts| == g.maxCol
      invariant rowData == Assemble(headers[..j], texts[..j])
      invariant hasData == AnyPresent(g, row, j)
      invariant RowFaultFrom(g, row, 1) == RowFaultFrom(g, row, j + 1)
    {
      var c := g.cell(row, j + 1);
      if c.Fault? {
        return Some(c.reason), rowData, hasData;
      }
      var cellStr := "";
      if c.Value? {
        cellStr := c.text;
        if |cellStr| > lim.maxCharsPerCell {
          cellStr := cellStr[..lim.maxCharsPerCell] + "...";
        }
        hasData := true;
      }
      RowStep(lim, g, row, headers, texts, j, rowData, hasData || c.Value?, cellStr);
      rowData := Put(rowData, headers[j], cellStr);
      j := j + 1;
    }
    assert headers[..j] == headers && texts[..j] == texts;
    fault := None;
  }

  lemma AssembleStep(ks: seq<string>, vs: seq<string>, j: nat)
    requires |ks| == |vs| && j < |ks|
    ensures Assemble(ks[..j + 1], vs[..j + 1]) == Put(Assemble(ks[..j], vs[..j]), ks[j], vs[j])
  {
    assert ks[..j + 1][..j] == ks[..j];
    assert vs[..j + 1][..j] == vs[..j];
  }

  lemma AnyPresentStep(g: Grid, r: nat, j: nat)
    ensures AnyPresent(g, r, j + 1) == (AnyPresent(g, r, j) || g.cell(r, j + 1).Value?)
  {
    if g.cell(r, j + 1).Value? {
      assert 1 <= j + 1 <= j + 1 && g.cell(r, j + 1).Value?;
    }
  }

  /** One step of the cell loop of a data row: cell `j + 1` raises nothing and is stored under header `j`. */
  lemma RowStep(lim: Limits, g: Grid, row: nat, headers: seq<string>, texts: seq<string>, j: nat,
                rowData: Row, hasData: bool, cellStr: string)
    requires headers == Headers(g) && texts == CellTexts(lim, g, row) && j < g.maxCol
    requires rowData == Assemble(headers[..j], texts[..j])
    requires !g.cell(row, j + 1).Fault? && cellStr == CellText(lim, g.cell(row, j + 1))
    requires hasData == (AnyPresent(g, row, j) || g.cell(row, j + 1).Value?)
    ensures Put(rowData, headers[j], cellStr) == Assemble(headers[..j + 1], texts[..j + 1])
    ensures hasData == AnyPresent(g, row, j + 1)
    ensures RowFaultFrom(g, row, j + 1) == RowFaultFrom(g, row, j + 2)
  {
    AssembleStep(headers, texts, j);
    AnyPresentStep(g, row, j);
  }

  /** One step of the data-row loop: row `r` raises nothing, and is appended exactly when it has data. */
  lemma KeptFromStep(lim: Limits, g: Grid, r: nat, last: nat, acc: seq<Row>, rowData: Row, hasData: bool)
    requires r <= last && RowFaultFrom(g, r, 1).None?
    requires rowData == RowOf(lim, g, r) && hasData == HasData(g, r)
    ensures ScanFrom(g, r, last) == ScanFrom(g, r + 1, last)
    ensures acc + KeptFrom(lim, g, r, last) ==
              (if hasData then acc + [rowData] else acc) + KeptFrom(lim, g, r + 1, last)
  {
    var rest := KeptFrom(lim, g, r + 1, last);
    if hasData {
      assert acc + ([rowData] + rest) == (acc + [rowData]) + rest;
    } else {
      assert KeptFrom(lim, g, r, last) == [] + rest;
    }
  }

  /** The outer data-row loop of `_process_sheet`: rows 2..last, keeping those with data. */
  method ReadDataRows(lim: Limits, g: Grid, headers: seq<string>, last: nat)
    returns (fault: Option<string>, dataRows: seq<Row>)
    requires headers == Headers(g)
    ensures fault == ScanFrom(g, 2, last)
    ensures fault.None? ==> dataRows == KeptFrom(lim, g, 2, last)
  {
    dataRows := [];
    var row := 2;
    while row <= last
      invariant 2 <= row && (row <= last + 1 || row == 2)
      invariant ScanFrom(g, 2, last) == ScanFrom(g, row, last)
      invariant KeptFrom(lim, g, 2, last) == dataRows + KeptFrom(lim, g, row, last)
    {
      var rowFault, rowData, hasData := ReadDataRow(lim, g, headers, row);
      if rowFault.Some? {
        return rowFault, dataRows;
      }
      KeptFromStep(lim, g, row, last, dataRows, rowData, hasData);
      if hasData {
        dataRows := dataRows + [rowData];
      }
      row := row + 1;
    }
    fault := None;
  }

  /** `_process_sheet`: the window, the header row, the data rows, then the summary. */
  method ProcessSheet(lim: Limits, sheet: SheetHandle, name: string) returns (outcome: SheetOutcome)
    ensures outcome == ExtractSheet(lim, sheet, name)
  {
    if sheet.Unreadable? {
      return SheetError(SheetErrorMessage(name, sheet.reason));
    }
    var g := sheet.grid;
    var last := if g.maxRow < lim.maxRowsPerSheet + 1 then g.maxRow else lim.maxRowsPerSheet + 1;

    var headerFault, headers := ReadHeaders(g);
    if headerFault.Some? {
      return SheetError(SheetErrorMessage(name, headerFault.value));
    }
    var rowFault, dataRows := ReadDataRows(lim, g, headers, last);
    if rowFault.Some? {
      return SheetError(SheetErrorMessage(name, rowFault.value));
    }

    var dataTypes := AnalyzeDataTypes(dataRows, headers);
    var sampleData := if |dataRows| > 0 then dataRows[..if |dataRows| < 3 then |dataRows| else 3] else [];
    outcome := SheetOk(SheetRecord(name, |dataRows|, |headers|, headers, dataTypes, sampleData, dataRows));
  }

  // ---------------------------------------------------------------------
  // What the extracted record satisfies

  /** A row is faulty from column `c` on exactly when some cell there raises. */
  lemma {:induction false} RowFaultFromMeaning(g: Grid, r: nat, c: nat)
    ensures RowFaultFrom(g, r, c).Some? <==> exists k :: c <= k <= g.maxCol && g.cell(r, k).Fault?
    decreases g.maxCol + 1 - c
  {
    if c <= g.maxCol && !g.cell(r, c).Fault? {
      RowFaultFromMeaning(g, r, c + 1);
      if exists k :: c <= k <= g.maxCol && g.cell(r, k).Fault? {
        var k :| c <= k <= g.maxCol && g.cell(r, k).Fault?;
        assert c + 1 <= k;
      }
    }
  }

  /** The scan of rows `r..last` finds a fault exactly when some cell there raises. */
  lemma {:induction false} ScanFromMeaning(g: Grid, r: nat, last: nat)
    ensures ScanFrom(g, r, last).Some? <==>
              exists x, k :: r <= x <= last && 1 <= k <= g.maxCol && g.cell(x, k).Fault?
    decreases last + 1 - r
  {
    if r <= last {
      RowFaultFromMeaning(g, r, 1);
      ScanFromMeaning(g, r + 1, last);
      if exists x, k :: r <= x <= last && 1 <= k <= g.maxCol && g.cell(x, k).Fault? {
        var x, k :| r <= x <= last && 1 <= k <= g.maxCol && g.cell(x, k).Fault?;
        if x == r {
          assert RowFaultFrom(g, r, 1).Some?;
        } else {
          assert r + 1 <= x <= last;
        }
      }
    }
  }

  /**
   * A sheet becomes an error record exactly when its dimensions cannot be
   * read or some cell in the header row or a window row raises; the
   * message names the sheet.
   */
  lemma SheetErrorIff(lim: Limits, sheet: SheetHandle, name: string)
    ensures ExtractSheet(lim, sheet, name).SheetError? <==>
              sheet.Unreadable? ||
              exists x, k :: (x == 1 || 2 <= x <= WindowEnd(lim, sheet.grid)) && 1 <= k <= sheet.grid.maxCol
                             && sheet.grid.cell(x, k).Fault?
    ensures ExtractSheet(lim, sheet, name).SheetError? ==>
              exists reason :: ExtractSheet(lim, sheet, name).message == SheetErrorMessage(name, reason)
  {
    if sheet.Worksheet? {
      var g := sheet.grid;
      var last := WindowEnd(lim, g);
      RowFaultFromMeaning(g, 1, 1);
      ScanFromMeaning(g, 2, last);
      if exists x, k :: (x == 1 || 2 <= x <= last) && 1 <= k <= g.maxCol && g.cell(x, k).Fault? {
        var x, k :| (x == 1 || 2 <= x <= last) && 1 <= k <= g.maxCol && g.cell(x, k).Fault?;
        if x != 1 {
          assert ScanFrom(g, 2, last).Some?;
        }
      }
      if ScanFrom(g, 2, last).Some? {
        var x, k :| 2 <= x <= last && 1 <= k <= g.maxCol && g.cell(x, k).Fault?;
      }
    }
  }

  lemma {:induction false} KeptIndicesProperties(g: Grid, r: nat, last: nat)
    requires r >= 2
    ensures forall i, j :: 0 <= i < j < |KeptIndices(g, r, last)| ==> KeptIndices(g, r, last)[i] < KeptIndices(g, r, last)[j]
    ensures forall x :: x in KeptIndices(g, r, last) <==> r <= x <= last && HasData(g, x)
    ensures r <= last + 1 ==> |KeptIndices(g, r, last)| <= last + 1 - r
    ensures r <= last + 1 ==>
              (|KeptIndices(g, r, last)| == last + 1 - r <==> forall x :: r <= x <= last ==> HasData(g, x))
    decreases last + 1 - r
  {
    if r <= last {
      KeptIndicesProperties(g, r + 1, last);
      var rest := KeptIndices(g, r + 1, last);
      assert forall j :: 0 <= j < |rest| ==> rest[j] in rest;
      if !HasData(g, r) {
        assert r + 1 <= last + 1;
        assert |rest| <= last - r;
      }
    }
  }

  lemma {:induction false} KeptFromIndices(lim: Limits, g: Grid, r: nat, last: nat)
    ensures |KeptFrom(lim, g, r, last)| == |KeptIndices(g, r, last)|
    ensures forall i :: 0 <= i < |KeptFrom(lim, g, r, last)| ==>
              KeptFrom(lim, g, r, last)[i] == RowOf(lim, g, KeptIndices(g, r, last)[i])
    decreases last + 1 - r
  {
    if r <= last {
      KeptFromIndices(lim, g, r + 1, last);
    }
  }

  /**
   * The kept rows are exactly the window rows 2..end that have a present
   * cell (a cell holding "" counts), in row order: `data[i]` is the row
   * dictionary of the i-th such row. `total_rows` is their number, at most
   * the window's data rows, and equal to it exactly when no window row is
   * wholly absent; `sample_data` is the first three of them.
   */
  lemma KeptRows(lim: Limits, sheet: SheetHandle, name: string)
    requires ExtractSheet(lim, sheet, name).SheetOk?
    ensures var rec := ExtractSheet(lim, sheet, name).record;
            var g := sheet.grid;
            var last := WindowEnd(lim, g);
            var idx := KeptIndices(g, 2, last);
            && rec.totalRows == |rec.data| == |idx|
            && (forall i, j :: 0 <= i < j < |idx| ==> idx[i] < idx[j])
            && (forall x :: x in idx <==> 2 <= x <= last && exists c :: 1 <= c <= g.maxCol && g.cell(x, c).Value?)
            && (forall i :: 0 <= i < |idx| ==> rec.data[i] == RowOf(lim, g, idx[i]))
            && rec.totalRows <= lim.maxRowsPerSheet
            && (g.maxRow >= 1 ==> rec.totalRows <= g.maxRow - 1)
            && (last >= 1 ==> (rec.totalRows == last - 1 <==> forall x :: 2 <= x <= last ==> HasData(g, x)))
            && rec.sampleData == rec.data[..if |rec.data| < 3 then |rec.data| else 3]
  {
    var g := sheet.grid;
    var last := WindowEnd(lim, g);
    KeptIndicesProperties(g, 2, last);
    KeptFromIndices(lim, g, 2, last);
    var idx := KeptIndices(g, 2, last);
    if last < 2 {
      assert |idx| == 0;
    }
  }

  /** With the default limits a sheet never reports more than 100 rows. */
  lemma DefaultRowCap(sheet: SheetHandle, name: string)
    requires ExtractSheet(DefaultLimits, sheet, name).SheetOk?
    ensures ExtractSheet(DefaultLimits, sheet, name).record.totalRows <= 100
  {
    KeptRows(DefaultLimits, sheet, name);
  }

  /**
   * One header per column: column k's header is the text of its row-1
   * cell, or `Column_k` when that cell is None; `data_types` has exactly
   * the headers as keys, each labelled from that column's samples.
   */
  lemma HeaderSynthesis(lim: Limits, sheet: SheetHandle, name: string)
    requires ExtractSheet(lim, sheet, name).SheetOk?
    ensures var rec := ExtractSheet(lim, sheet, name).record;
            var g := sheet.grid;
            && rec.sheetName == name
            && |rec.headers| == rec.totalColumns == g.maxCol
            && (forall k :: 1 <= k <= g.maxCol ==>
                  rec.headers[k - 1] == (if g.cell(1, k).Value? then g.cell(1, k).text else "Column_" + NatStr(k)))
            && (forall h :: h in rec.dataTypes <==> h in rec.headers)
            && (forall h :: h in rec.headers ==> rec.dataTypes[h] == Classify(Samples(rec.data, h)))
  {
  }

  /** Synthesized headers of different columns differ. */
  lemma SynthesizedHeadersDistinct(j: nat, k: nat)
    requires j != k
    ensures HeaderText(Blank, j) != HeaderText(Blank, k)
  {
    if HeaderText(Blank, j) == HeaderText(Blank, k) {
      var p := "Column_";
      assert ("Column_" + NatStr(j))[|p|..] == NatStr(j);
      assert ("Column_" + NatStr(k))[|p|..] == NatStr(k);
      NatStrInjective(j, k);
    }
  }

  /**
   * What one cell stores: "" for None; a present text of at most
   * `max_chars_per_cell` characters unchanged; a longer one as its first
   * `max_chars_per_cell` characters followed by "...".
   */
  /**
   * What a data cell stores. The `Fault` case is vacuous for a stored row:
   * any raising cell makes the whole sheet an error record (app.py:102-104),
   * so it only fixes what `CellText` returns for such a cell.
   */
  lemma CellTextCases(lim: Limits, c: Cell)
    ensures c.Blank? || c.Fault? ==> CellText(lim, c) == ""
    ensures c.Value? && |c.text| <= lim.maxCharsPerCell ==> CellText(lim, c) == c.text
    ensures c.Value? && |c.text| > lim.maxCharsPerCell ==>
              CellText(lim, c) == c.text[..lim.maxCharsPerCell] + "..."
              && |CellText(lim, c)| == lim.maxCharsPerCell + 3
    ensures |CellText(lim, c)| <= lim.maxCharsPerCell + 3
  {
  }

  /**
   * A row dictionary has one key per distinct header, in first-occurrence
   * order (so every header has a key, and with distinct headers the keys
   * are the headers in order). Under each header sits the stored text of
   * the last column bearing it, so a duplicated header keeps its last
   * column's cell.
   */
  lemma RowContents(lim: Limits, g: Grid, r: nat)
    ensures Keys(RowOf(lim, g, r)) == Dedup(Headers(g))
    ensures forall h :: h in Keys(RowOf(lim, g, r)) <==> h in Headers(g)
    ensures Distinct(Headers(g)) ==> Keys(RowOf(lim, g, r)) == Headers(g)
    ensures forall k :: 1 <= k <= g.maxCol && Headers(g)[k - 1] !in Headers(g)[k..] ==>
              Get(RowOf(lim, g, r), Headers(g)[k - 1]) == Some(CellText(lim, g.cell(r, k)))
  {
    var hs := Headers(g);
    var ts := CellTexts(lim, g, r);
    AssembleKeys(hs, ts);
    DedupProperties(hs);
    forall k | 1 <= k <= g.maxCol && hs[k - 1] !in hs[k..]
      ensures Get(RowOf(lim, g, r), hs[k - 1]) == Some(CellText(lim, g.cell(r, k)))
    {
      AssembleGet(hs, ts, k - 1);
    }
  }
}
