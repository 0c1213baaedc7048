/**
 * `read_excel_file`: opens one workbook and processes its sheets in
 * workbook order. A workbook that cannot be opened becomes an error record
 * for that file; a sheet that fails becomes an error record for that sheet
 * and its siblings are processed as usual.
 */
module WorkbookReader {
  import opened OrderedDict
  import opened Workbook
  import opened SheetExtractor

  datatype FileRecord = FileRecord(
    fileName: string,
    sheets: Dict<SheetOutcome>,
    totalSheets: nat,
    sheetNames: seq<string>)

  /** The file's dictionary, or `{'error': message}`, which has no `file_name`. */
  datatype FileOutcome = FileOk(record: FileRecord) | FileError(message: string)

  function FileErrorMessage(fileName: string, reason: string): string {
    "Failed to read " + fileName + ": " + reason
  }

  /** What `_process_sheet` returns for each sheet, in workbook order. */
  function SheetOutcomes(lim: Limits, sheets: seq<NamedSheet>): (outs: seq<SheetOutcome>)
    ensures |outs| == |sheets|
    ensures forall i :: 0 <= i < |sheets| ==> outs[i] == ExtractSheet(lim, sheets[i].handle, sheets[i].name)
  {
    seq(|sheets|, i requires 0 <= i < |sheets| => ExtractSheet(lim, sheets[i].handle, sheets[i].name))
  }

  /** The dictionary `read_excel_file` returns. */
  function ReadFile(lim: Limits, source: WorkbookSource, fileName: string): FileOutcome
  {
    match source
    case Unloadable(reason) => FileError(FileErrorMessage(fileName, reason))
    case Loaded(sheets) =>
      var names := SheetNames(sheets);
      FileOk(FileRecord(fileName, Assemble(names, SheetOutcomes(lim, sheets)), |sheets|, names))
  }

  /** The loop of `read_excel_file` over `workbook.sheetnames`. */
  method ReadExcelFile(lim: Limits, source: WorkbookSource, fileName: string) returns (outcome: FileOutcome)
    ensures outcome == ReadFile(lim, source, fileName)
  {
    if source.Unloadable? {
      return FileError(FileErrorMessage(fileName, source.reason));
    }
    var workbook := source.sheets;
    var names := SheetNames(workbook);
    ghost var outs := SheetOutcomes(lim, workbook);
    var sheets: Dict<SheetOutcome> := [];
    var i := 0;
    while i < |workbook|
      invariant 0 <= i <= |workbook|
      invariant sheets == Assemble(names[..i], outs[..i])
    {
      var sheetData := ProcessSheet(lim, workbook[i].handle, workbook[i].name);
      sheets := Put(sheets, workbook[i].name, sheetData);
      assert names[..i + 1][..i] == names[..i];
      assert outs[..i + 1][..i] == outs[..i];
      i := i + 1;
    }
    assert names[..i] == names && outs[..i] == outs;
    outcome := FileOk(FileRecord(fileName, sheets, |workbook|, names));
  }

  /**
   * A workbook that opens always yields a file record, whatever its sheets
   * do. Its sheet count and name list follow the workbook, and the sheets
   * dictionary has one entry per distinct name, in workbook order. With
   * distinct names (which the workbook format requires), entry i is sheet
   * i's own outcome, which depends on that sheet alone: a failing sheet
   * changes only its own entry.
   */
  lemma FaultIsolation(lim: Limits, sheets: seq<NamedSheet>, fileName: string)
    ensures ReadFile(lim, Loaded(sheets), fileName).FileOk?
    ensures var rec := ReadFile(lim, Loaded(sheets), fileName).record;
            && rec.fileName == fileName
            && rec.totalSheets == |sheets|
            && rec.sheetNames == SheetNames(sheets)
            && Keys(rec.sheets) == Dedup(SheetNames(sheets))
    ensures Distinct(SheetNames(sheets)) ==>
              var rec := ReadFile(lim, Loaded(sheets), fileName).record;
              && |rec.sheets| == |sheets|
              && forall i :: 0 <= i < |sheets| ==>
                   rec.sheets[i] == Entry(sheets[i].name, ExtractSheet(lim, sheets[i].handle, sheets[i].name))
  {
    var names := SheetNames(sheets);
    var outs := SheetOutcomes(lim, sheets);
    AssembleKeys(names, outs);
    if Distinct(names) {
      AssembleDistinct(names, outs);
    }
  }

  /** A workbook that cannot be opened yields one error record naming the file. */
  lemma UnloadableFile(lim: Limits, reason: string, fileName: string)
    ensures ReadFile(lim, Unloadable(reason), fileName) == FileError("Failed to read " + fileName + ": " + reason)
  {
  }
}
