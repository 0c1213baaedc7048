/**
 * `create_llm_optimized_summary`: composes the text digest from the file
 * records, in upload order. The digest is a list of entries (`summary_parts`)
 * joined by newlines; the functions named `...Lines` below give those
 * entries. An entry can span several text lines once joined: some start
 * with a newline, and headers, names and error messages are never escaped.
 * Each failed file or sheet contributes one entry, any other file two plus
 * its sheets' entries, any other sheet three to six, so the number of entries
 * is at most a bound that depends only on the numbers of files and sheets.
 */
module DigestComposer {
  import opened TextUtil
  import opened OrderedDict
  import opened TypeClassifier
  import opened SheetExtractor
  import opened WorkbookReader

  const Banner := "=== EXCEL FILES ANALYSIS SUMMARY ==="
  const HeaderPreviewCount: nat := 10
  const SampleRowsInDigest: nat := 2
  const PreviewChars: nat := 50

  /** The row as previewed in the digest: same keys in order, each value cut to 50 characters and marked (app.py:157). */
  function Preview(row: Row): Row {
    seq(|row|, i requires 0 <= i < |row| => Entry(row[i].key, Truncate(row[i].value, PreviewChars)))
  }

  function Quote(s: string): string {
    "\"" + s + "\""
  }

  /** The JSON object text of a flat string dictionary, with JSON's default separators and no escaping (app.py:158). */
  function RenderJson(d: Dict<string>): string {
    "{" + JoinWith(", ", seq(|d|, i requires 0 <= i < |d| => Quote(d[i].key) + ": " + Quote(d[i].value))) + "}"
  }

  function RowLine(n: nat, row: Row): string {
    "        Row " + NatStr(n) + ": " + RenderJson(Preview(row))
  }

  /** One entry per row, numbered from 1 (app.py:156-158). */
  function RowLines(rows: seq<Row>): seq<string> {
    seq(|rows|, i requires 0 <= i < |rows| => RowLine(i + 1, rows[i]))
  }

  function FirstTwo(rows: seq<Row>): seq<Row> {
    rows[..if |rows| < SampleRowsInDigest then |rows| else SampleRowsInDigest]
  }

  function SampleLines(sample: seq<Row>): seq<string> {
    if |sample| == 0 then [] else ["      Sample data:"] + RowLines(FirstTwo(sample))
  }

  /** The first ten headers joined by ", ", marked with "..." when there are more than ten (app.py:151). */
  function HeaderPreview(headers: seq<string>): string {
    JoinWith(", ", headers[..ShownHeaderCount(headers)]) + (if |headers| > HeaderPreviewCount then "..." else "")
  }

  /** How many headers the preview shows: all of them, but at most ten. */
  function ShownHeaderCount(headers: seq<string>): nat {
    if |headers| < HeaderPreviewCount then |headers| else HeaderPreviewCount
  }

  /** Only the first ten headers, and whether there are more, reach the preview. */
  lemma HeaderPreviewFirstTen(a: seq<string>, b: seq<string>)
    requires a[..ShownHeaderCount(a)] == b[..ShownHeaderCount(b)]
    requires (|a| > HeaderPreviewCount) == (|b| > HeaderPreviewCount)
    ensures HeaderPreview(a) == HeaderPreview(b)
  {
  }

  /** More than ten headers: the preview of the first ten, then "...". At most ten: every header, and nothing appended. */
  lemma HeaderPreviewCap(headers: seq<string>)
    ensures |headers| > HeaderPreviewCount ==>
              HeaderPreview(headers) == HeaderPreview(headers[..HeaderPreviewCount]) + "..."
    ensures |headers| <= HeaderPreviewCount ==> HeaderPreview(headers) == JoinWith(", ", headers)
  {
    assert headers[..|headers|] == headers;
  }

  /** The preview ends in "..." exactly when headers were left out or the last shown header itself ends so. */
  lemma HeaderPreviewMark(headers: seq<string>)
    ensures EndsWithMark(HeaderPreview(headers)) <==>
              |headers| > HeaderPreviewCount || (|headers| > 0 && EndsWithMark(headers[|headers| - 1]))
  {
    if |headers| > HeaderPreviewCount {
      var p := HeaderPreview(headers);
      assert p[|p| - 3..] == "...";
    } else {
      assert headers[..|headers|] == headers;
      JoinEndsWithMark(headers);
    }
  }

  /** The title, dimensions and header-preview entries of a sheet that was read. */
  function SheetHeadLines(name: string, rec: SheetRecord): seq<string> {
    [ "\n   \U{1F4CA} SHEET: " + name,
      "      Dimensions: " + NatStr(rec.totalRows) + " rows \U{D7} " + NatStr(rec.totalColumns) + " columns",
      "      Columns: " + HeaderPreview(rec.headers) ]
  }

  function SheetLines(name: string, outcome: SheetOutcome): seq<string> {
    match outcome
    case SheetError(message) => ["   \U{274C} Sheet '" + name + "': " + message]
    case SheetOk(rec) => SheetHeadLines(name, rec) + SampleLines(rec.sampleData)
  }

  function SheetEntryLines(entry: Entry<SheetOutcome>): seq<string> {
    SheetLines(entry.key, entry.value)
  }

  /** The entries of every sheet of a file, in dictionary order (app.py:143-158). */
  function SheetsLines(sheets: Dict<SheetOutcome>): seq<string> {
    Flatten(sheets, SheetEntryLines)
  }

  /** The name and sheet-list entries of a file that was read. */
  function FileHeadLines(rec: FileRecord): seq<string> {
    [ "\n\U{1F4C1} FILE: " + rec.fileName,
      "   Sheets: " + NatStr(rec.totalSheets) + " (" + JoinWith(", ", rec.sheetNames) + ")" ]
  }

  /** An error dictionary has no `file_name`, so it is always shown as "Unknown". */
  function FileLines(file: FileOutcome): seq<string> {
    match file
    case FileError(message) => ["\n\U{274C} Unknown: " + message]
    case FileOk(rec) => FileHeadLines(rec) + SheetsLines(rec.sheets)
  }

  function FilesLines(files: seq<FileOutcome>): seq<string> {
    Flatten(files, FileLines)
  }

  /** The two entries every digest opens with. */
  function DigestHead(fileCount: nat): seq<string> {
    [Banner, "Total files processed: " + NatStr(fileCount)]
  }

  /** `summary_parts` once every file has been visited. */
  function DigestLines(files: seq<FileOutcome>): seq<string> {
    DigestHead(|files|) + FilesLines(files)
  }

  /** The entries of one sheet, as the innermost loops append them. */
  method AppendSheet(parts: seq<string>, name: string, outcome: SheetOutcome) returns (parts': seq<string>)
    ensures parts' == parts + SheetLines(name, outcome)
  {
    parts' := parts;
    if outcome.SheetError? {
      parts' := parts' + ["   \U{274C} Sheet '" + name + "': " + outcome.message];
      return;
    }
    var summary := outcome.record;
    parts' := parts' + ["\n   \U{1F4CA} SHEET: " + name];
    parts' := parts' + ["      Dimensions: " + NatStr(summary.totalRows) + " rows \U{D7} " + NatStr(summary.totalColumns) + " columns"];
    parts' := parts' + ["      Columns: " + HeaderPreview(summary.headers)];
    assert parts' == parts + SheetHeadLines(name, summary);
    parts' := AppendSamples(parts', summary.sampleData);
    assert parts' == parts + (SheetHeadLines(name, summary) + SampleLines(summary.sampleData));
  }

  /** The caption and the numbered preview rows, when the sheet has sample rows. */
  method AppendSamples(parts: seq<string>, sample: seq<Row>) returns (parts': seq<string>)
    ensures parts' == parts + SampleLines(sample)
  {
    parts' := parts;
    if |sample| > 0 {
      parts' := parts' + ["      Sample data:"];
      var shown := FirstTwo(sample);
      ghost var base := parts';
      var i := 0;
      while i < |shown|
        invariant 0 <= i <= |shown|
        invariant parts' == base + RowLines(shown)[..i]
      {
        parts' := parts' + [RowLine(i + 1, shown[i])];
        assert RowLines(shown)[..i + 1] == RowLines(shown)[..i] + [RowLine(i + 1, shown[i])];
        i := i + 1;
      }
      assert RowLines(shown)[..i] == RowLines(shown);
    }
  }

  /** The entries of one file, with its sheets in dictionary order. */
  method AppendFile(parts: seq<string>, file: FileOutcome) returns (parts': seq<string>)
    ensures parts' == parts + FileLines(file)
  {
    parts' := parts;
    if file.FileError? {
      parts' := parts' + ["\n\U{274C} Unknown: " + file.message];
      return;
    }
    var rec := file.record;
    parts' := parts' + ["\n\U{1F4C1} FILE: " + rec.fileName];
    parts' := parts' + ["   Sheets: " + NatStr(rec.totalSheets) + " (" + JoinWith(", ", rec.sheetNames) + ")"];
    ghost var base := parts';
    assert base == parts + FileHeadLines(rec);
    var k := 0;
    while k < |rec.sheets|
      invariant 0 <= k <= |rec.sheets|
      invariant parts' == base + SheetsLines(rec.sheets[..k])
    {
      var before := parts';
      parts' := AppendSheet(parts', rec.sheets[k].key, rec.sheets[k].value);
      FlattenAccumulate(base, rec.sheets, SheetEntryLines, k, before, SheetEntryLines(rec.sheets[k]));
      k := k + 1;
    }
    assert rec.sheets[..k] == rec.sheets;
  }

  /** `create_llm_optimized_summary`: the banner, the file count, each file in order, joined by newlines. */
  method CreateSummary(files: seq<FileOutcome>) returns (summary: string)
    ensures summary == JoinWith("\n", DigestLines(files))
  {
    var parts: seq<string> := [];
    parts := parts + [Banner];
    parts := parts + ["Total files processed: " + NatStr(|files|)];
    assert parts == DigestHead(|files|) + FilesLines(files[..0]);
    var i := 0;
    while i < |files|
      invariant 0 <= i <= |files|
      invariant parts == DigestHead(|files|) + FilesLines(files[..i])
    {
      var before := parts;
      parts := AppendFile(parts, files[i]);
      FlattenAccumulate(DigestHead(|files|), files, FileLines, i, before, FileLines(files[i]));
      i := i + 1;
    }
    assert files[..i] == files;
    summary := JoinWith("\n", parts);
  }

  // ---------------------------------------------------------------------
  // Properties of the digest

  /**
   * The digest opens with the banner and the file count, then holds each
   * file's block in upload order: file i's entries come after those of
   * files before it and before those of files after it.
   */
  lemma DigestOrder(files: seq<FileOutcome>, i: nat)
    requires i < |files|
    ensures DigestLines(files) ==
              DigestHead(|files|) + FilesLines(files[..i]) + FileLines(files[i]) + FilesLines(files[i + 1..])
  {
    var before, here, after := FilesLines(files[..i]), FileLines(files[i]), FilesLines(files[i + 1..]);
    assert FilesLines(files) == before + here + after by {
      FlattenSplit(files, FileLines, i);
    }
    assert DigestHead(|files|) + (before + here + after) == DigestHead(|files|) + before + here + after;
  }

  /** A failed file or sheet contributes exactly one entry, marked as an error; a failed file is labelled "Unknown". */
  lemma ErrorEntriesAreSingle(fileMessage: string, sheetName: string, sheetMessage: string)
    ensures FileLines(FileError(fileMessage)) == ["\n\U{274C} Unknown: " + fileMessage]
    ensures SheetLines(sheetName, SheetError(sheetMessage)) == ["   \U{274C} Sheet '" + sheetName + "': " + sheetMessage]
  {
  }

  /**
   * A sheet contributes at most six entries to `summary_parts`: a title,
   * its dimensions, its header preview, and, when it has sample rows, a
   * caption and at most two of them. An entry can span several text lines.
   */
  lemma SheetEntriesBound(name: string, outcome: SheetOutcome)
    ensures |SheetLines(name, outcome)| <= 6
    ensures outcome.SheetOk? ==>
              |SheetLines(name, outcome)| ==
                3 + (if |outcome.record.sampleData| == 0 then 0
                     else 1 + (if |outcome.record.sampleData| < 2 then |outcome.record.sampleData| else 2))
  {
  }

  lemma {:induction false} SheetsEntriesBound(sheets: Dict<SheetOutcome>)
    ensures |SheetsLines(sheets)| <= 6 * |sheets|
  {
    if |sheets| > 0 {
      var n := |sheets| - 1;
      SheetsEntriesBound(sheets[..n]);
      FlattenStep(sheets, SheetEntryLines, n);
      assert sheets[..n + 1] == sheets;
      SheetEntriesBound(sheets[n].key, sheets[n].value);
    }
  }

  /** The entry budget of the files: one entry per failed file, two plus six per sheet for the others. */
  function EntryBudget(files: seq<FileOutcome>): nat {
    if |files| == 0 then 0
    else
      EntryBudget(files[..|files| - 1])
      + match files[|files| - 1]
        case FileError(_) => 1
        case FileOk(rec) => 2 + 6 * |rec.sheets|
  }

  /**
   * The number of entries in `summary_parts` is at most a bound that depends
   * only on the numbers of files and sheets; no row count enters it. This
   * bounds entries, not text lines: an entry can span several lines.
   */
  lemma {:induction false} DigestEntryBound(files: seq<FileOutcome>)
    ensures |DigestLines(files)| <= 2 + EntryBudget(files)
  {
    FilesEntryBound(files);
  }

  lemma {:induction false} FilesEntryBound(files: seq<FileOutcome>)
    ensures |FilesLines(files)| <= EntryBudget(files)
  {
    if |files| > 0 {
      var n := |files| - 1;
      FilesEntryBound(files[..n]);
      FlattenStep(files, FileLines, n);
      assert files[..n + 1] == files;
      if files[n].FileOk? {
        SheetsEntriesBound(files[n].record.sheets);
      }
    }
  }

  /**
   * A previewed row keeps the row's keys in order; each value is the
   * stored one when it has at most 50 characters, and otherwise its first
   * 50 characters followed by "...", so never longer than 53.
   */
  lemma PreviewProperties(row: Row)
    ensures Keys(Preview(row)) == Keys(row)
    ensures forall i :: 0 <= i < |row| ==> |Preview(row)[i].value| <= PreviewChars + 3
    ensures forall i :: 0 <= i < |row| && |row[i].value| <= PreviewChars ==> Preview(row)[i].value == row[i].value
    ensures forall i :: 0 <= i < |row| && |row[i].value| > PreviewChars ==>
              Preview(row)[i].value == row[i].value[..PreviewChars] + "..."
  {
  }

  /**
   * A sheet's block depends on its record only through the counts, the
   * headers and the first two sample rows: rows beyond those never reach
   * the digest.
   */
  lemma SheetBlockIgnoresUnshownRows(name: string, a: SheetRecord, b: SheetRecord)
    requires a.totalRows == b.totalRows && a.totalColumns == b.totalColumns && a.headers == b.headers
    requires FirstTwo(a.sampleData) == FirstTwo(b.sampleData)
    ensures SheetLines(name, SheetOk(a)) == SheetLines(name, SheetOk(b))
  {
    assert |a.sampleData| == 0 <==> |FirstTwo(a.sampleData)| == 0;
    assert |b.sampleData| == 0 <==> |FirstTwo(b.sampleData)| == 0;
  }
}
