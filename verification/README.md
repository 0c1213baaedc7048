# ExcelProcessor: workbook extraction and text digest, in Dafny

This project models the `ExcelProcessor` class of the multiple-sheet analyser. The class turns uploaded
spreadsheet workbooks into one text digest for a downstream language model. The digest is built as a
list of entries (`summary_parts`), whose number is at most a bound that depends only on the numbers of
files and sheets. `app.py:20-160`
and `main.py:20-160` hold the same class, character for character, so one model covers both files. The
table below cites either file; the cited lines are identical in the two.

The model has one module per part of the class, plus three helper modules:

- `Workbook` is the input as the spreadsheet library presents it. A workbook either opens or fails with
  a reason. An opened workbook is its sheets in workbook order. A sheet is either a grid or unreadable.
  A grid has `max_row`, `max_column` and a cell function. A cell read gives `None`, the cell's value
  (already converted to text) or a failure.
- `SheetExtractor` models `_process_sheet`. `ExtractSheet` says what the method returns. `ProcessSheet`
  and its loops (`ReadHeaders`, `ReadDataRows`, `ReadDataRow`) are proved equal to it. The lemmas state
  the header, window, row, truncation and fault rules.
- `TypeClassifier` models `_analyze_data_types`. It holds the numeric-string heuristic, the per-column
  samples, the strict 70% threshold and the loop that fills `data_types`.
- `WorkbookReader` models `read_excel_file`. It covers the sheet loop, the per-file error record and the
  isolation of failing sheets.
- `DigestComposer` models `create_llm_optimized_summary`. It holds the digest entries as functions, the
  nested loops that append them, and the lemmas on order, error entries and the entry count.
- `OrderedDict` models the Python dictionaries the class fills (`row_data`, `file_data['sheets']`) as
  insertion-ordered association lists. Assigning to a key that is already present replaces its value in
  place, so a duplicated header keeps its first position and its last column's value.
- `TextUtil` holds decimal rendering of counts, `str.join` and the cut-and-mark truncation. The same
  truncation serves stored cells (500 characters) and digest previews (50 characters).
- `Wrappers` holds `Option`.

Exceptions are data here. A failing cell read or an unreadable sheet becomes
`SheetError("Failed to process sheet <name>: <reason>")`. A workbook that does not open becomes
`FileError("Failed to read <file>: <reason>")`. The limits that `__init__` sets (100 rows, 500
characters) never change afterwards, so they are a value (`SheetExtractor.Limits`,
`SheetExtractor.DefaultLimits`) and not an object.

Behaviours of the code worth stating:

- A header cell that holds an empty string stays `""`. Only a `None` cell becomes `Column_k`
  (`app.py:63`).
- A data row is kept when any cell is not `None`, even when that cell's text is `""` (`app.py:75-85`).
- A cut cell is `max_chars_per_cell + 3` characters long, because `"..."` is appended after the cut
  (`app.py:77-78`).
- The numeric test accepts any string of digits, dots and minus signs that holds at least one digit,
  wherever the dots and signs stand: `"--5"`, `"5-"` and `"1.2.3"` all pass (`app.py:118`).
- Header names that repeat collapse into one dictionary key. A row then has fewer keys than
  `total_columns` (`app.py:71-82`).
- A failed file is always shown as `Unknown` in the digest, because its error dictionary has no
  `file_name` (`app.py:50`, `app.py:136`).

## Model

| member | source | states |
|---|---|---|
| `SheetExtractor.ProcessSheet` | app.py:52-104 | The result is exactly the record `_process_sheet` builds (`ExtractSheet`). An unreadable sheet, or the first raising cell in scan order, gives the sheet's error record instead. |
| `SheetExtractor.ReadHeaders` | app.py:60-63 | Reads row 1 left to right. Reports the first raising header cell. Otherwise returns one header per column, as `Headers` defines them. |
| `SheetExtractor.ReadDataRow` | app.py:68-82 | Reports the first raising cell of the row. Otherwise returns the row dictionary `RowOf`, and `has_data` is true exactly when some cell of the row is not None. |
| `SheetExtractor.ReadDataRows` | app.py:66-85 | Scans rows 2..window end in order. Reports the first raising cell. Otherwise returns exactly the kept rows (`KeptFrom`). |
| `SheetExtractor.SheetErrorIff` | app.py:102-104 | A sheet yields an error record exactly when its dimensions cannot be read, or some cell of row 1 or of a window row raises. The message is "Failed to process sheet <name>: <reason>". |
| `SheetExtractor.KeptRows` | app.py:56-93 | The kept rows are exactly the window rows 2..min(max_row, max_rows_per_sheet+1) that have a non-None cell, in strictly increasing row order. `data[i]` is the dictionary of the i-th such row. `total_rows == len(data)`, which is at most max_rows_per_sheet and at most max_row-1, with equality exactly when no window row is wholly None. `sample_data` is the first min(3, total_rows) kept rows. |
| `SheetExtractor.DefaultRowCap` | app.py:24 | With the default limits a sheet never reports more than 100 rows. |
| `SheetExtractor.HeaderSynthesis` | main.py:56-63 | There are exactly `max_column` headers and `total_columns` equals that number. Header k is the text of row-1 cell k, or `Column_k` when that cell is None. The keys of `data_types` are exactly the headers, and each is labelled from that column's samples. |
| `SheetExtractor.SynthesizedHeadersDistinct` | app.py:63 | Headers synthesized for two different columns differ. |
| `SheetExtractor.CellTextCases` | main.py:75-82 | A None cell is stored as "". A present cell of at most max_chars_per_cell characters is stored unchanged. A longer one is stored as its first max_chars_per_cell characters plus "...", which is max+3 characters long. No stored value is longer than max+3. |
| `SheetExtractor.RowContents` | app.py:68-82 | A row dictionary has one key per distinct header, in first-occurrence order. So every header has a key, and with distinct headers the keys are the headers in order. Under each header is the stored text of the last column with that header. |
| `TextUtil.Truncate` | app.py:77-78 | A text of at most `limit` characters is kept as it is. A longer one becomes its first `limit` characters followed by "...", which is `limit + 3` characters. The result is never longer than `limit + 3`. |
| `TextUtil.ParseNatStr` | app.py:150 | Reading back a count rendered in decimal (as `str()` renders `total_rows` and `total_columns`) gives the same count. |
| `TextUtil.NatStr` | main.py:150 | A count renders as a non-empty string of decimal digits, one digit exactly for counts below 10, and with no leading zero. With `ParseNatStr` this fixes the text to Python's canonical decimal. |
| `OrderedDict.PutKeys` | app.py:79-82 | Assigning to a key that is already present keeps the key order. A new key is appended at the end. |
| `OrderedDict.PutGet` | main.py:79-82 | After `d[k] = v`, `d.get(k)` is `v` and every other key keeps its value. |
| `OrderedDict.AssembleKeys` | main.py:71 | Filling a dictionary column by column leaves each header once, in the order of its first column. |
| `OrderedDict.AssembleGet` | main.py:79 | The value under a header is the one written for its last column. |
| `OrderedDict.AssembleAbsent` | main.py:68 | A key that no column writes is absent from the row. |
| `OrderedDict.AssembleDistinct` | main.py:71-82 | With distinct headers, the row dictionary is exactly the (header, text) pairs in column order. |
| `TypeClassifier.LooksNumericIff` | app.py:118 | After deleting "." and "-", the digit test passes exactly for strings made only of digits, dots and minus signs that hold at least one digit. |
| `TypeClassifier.HeuristicExamples` | main.py:118 | The test accepts "1.2.3", "--5" and "5-". It rejects "", ".", "-" and "1e5". |
| `TypeClassifier.NumericCountAppend` | app.py:118 | The number of passing samples in two runs of samples is the sum of the two counts. |
| `TypeClassifier.NumericCountAll` | main.py:118-121 | When every sample passes, all of them are counted. |
| `TypeClassifier.NumericCountNone` | main.py:118-123 | When no sample passes, the count is 0. |
| `TypeClassifier.ClassifyThreshold` | app.py:113-123 | A column is "empty" exactly when it has no samples. It is "numeric" exactly when numeric_count > 0.7 × samples, in exact arithmetic, and "text" otherwise. |
| `TypeClassifier.ClassifyMixedExample` | main.py:118-123 | ["1","2","3.5","-4","x","y","z"] is "text": 4 of 7 samples pass, which is not more than 70%. |
| `TypeClassifier.ClassifyNumericExample` | app.py:120-121 | ["1","2","3","4","5"] is "numeric": every sample passes. |
| `TypeClassifier.SamplesProperties` | app.py:111 | A column has at most 10 samples and all are non-empty. It has none exactly when each of the first 10 kept rows holds "" for it. |
| `TypeClassifier.AnalyzeDataTypes` | app.py:106-125 | The result's keys are exactly the headers. Each header's label is the classification of its samples. |
| `TypeClassifier.DataTypesMeaning` | main.py:106-125 | A stored label is "empty" exactly when the first 10 kept rows are all empty in that column. It is "numeric" exactly when more than 70% of the column's samples pass the numeric test. |
| `WorkbookReader.ReadExcelFile` | app.py:27-50 | The result is exactly `ReadFile`. A workbook that does not open gives one error record. An opened workbook gives a file record whose sheets dictionary gets each sheet's own outcome, in workbook order. |
| `WorkbookReader.FaultIsolation` | app.py:33-46 | An opened workbook always gives a file record, whatever its sheets do. `total_sheets` and `sheet_names` follow the workbook. The sheets dictionary holds each distinct name once, in workbook order. With distinct names, entry i is sheet i's own extraction, so a failing sheet changes only its own entry. |
| `WorkbookReader.UnloadableFile` | app.py:48-50 | A workbook that does not open gives `{'error': "Failed to read <file>: <reason>"}`. |
| `DigestComposer.CreateSummary` | app.py:127-160 | The digest is the newline-join of the entries `DigestLines`: the banner, the file count, then each file's entries in input order. |
| `DigestComposer.AppendFile` | app.py:134-158 | Appends exactly one file's entries. An error file gets one entry. Any other file gets its name entry, its sheet-count entry, then each sheet's entries in dictionary order. |
| `DigestComposer.AppendSheet` | app.py:143-158 | Appends exactly one sheet's entries. An error sheet gets one entry. Any other sheet gets its title, dimensions and header preview, then, if it has samples, a caption and at most two numbered preview rows. |
| `DigestComposer.AppendSamples` | app.py:154-158 | Appends nothing when there are no sample rows. Otherwise appends the caption, then one numbered entry for each of the first two sample rows. |
| `DigestComposer.FilesEntryBound` | main.py:134-158 | The files' entries in `summary_parts` number at most 1 per failed file plus 2 + 6 × sheets per other file. |
| `DigestComposer.HeaderPreviewFirstTen` | app.py:151 | Two header lists with the same first ten headers, and both or neither longer than ten, give the same Columns preview. Headers past the tenth never reach the digest. |
| `DigestComposer.HeaderPreviewCap` | main.py:151 | With more than ten headers the preview is the preview of the first ten followed by "...". With at most ten it is every header joined by ", ", with nothing appended. |
| `DigestComposer.HeaderPreviewMark` | app.py:151 | The preview ends in "..." exactly when there are more than ten headers or the last shown header itself ends in "...". |
| `TextUtil.JoinEndsWithMark` | main.py:151 | A ", "-join ends in "..." exactly when its last part does. |
| `DigestComposer.DigestOrder` | main.py:131-143 | The digest's entries are the two opening entries, then those of the files before file i, then file i's entries, then those of the files after it. |
| `DigestComposer.ErrorEntriesAreSingle` | app.py:135-146 | A failed file contributes exactly one entry to `summary_parts`, a newline then "❌ Unknown: <error>". A failed sheet contributes exactly one entry, "   ❌ Sheet '<name>': <error>". |
| `DigestComposer.SheetEntriesBound` | main.py:148-158 | A sheet contributes at most 6 entries to `summary_parts`: 3, plus, when it has samples, 1 + min(2, samples). |
| `DigestComposer.DigestEntryBound` | app.py:129-158 | `summary_parts` has at most 2 + Σ (1 per failed file, 2 + 6 × sheets per other file) entries. This bound depends only on the numbers of files and sheets. |
| `DigestComposer.PreviewProperties` | app.py:157 | A previewed row keeps the row's keys in order. Each value is the stored one when it has at most 50 characters, and otherwise its first 50 characters plus "...". No previewed value is longer than 53 characters. |
| `DigestComposer.SheetBlockIgnoresUnshownRows` | app.py:148-158 | A sheet's entries depend only on its counts, its headers and its first two sample rows. Rows beyond those never reach the digest. |

## Left out

- The Flask routes, saving and removing temporary files, the `.xlsx`/`.xls` name filter and request/JSON
  shaping (`app.py:417-485`) are web and file plumbing. The loop over uploads lives there, so the model's
  entry points are one workbook (`ReadExcelFile`) and the ordered list of results (`CreateSummary`).
- `GeminiLLM`, the global `gemini_llm` and the HTML/JS template are left out. They are a network client
  and the user interface.
- The spreadsheet library (`load_workbook`, `max_row`, `max_column`, `cell().value`) is a foreign
  library. The model takes it as the abstract `Workbook` input. The only failures modelled are a
  workbook that does not open, a sheet whose dimensions cannot be read and a cell read that raises. Other
  exceptions, such as `str()` raising or running out of memory, are not modelled.
- Python's `str()` of dates, floats and other cell values is not modelled. A cell's value arrives
  already converted to text.
- `json.dumps` is modelled without escaping. `RenderJson` writes `{"k": "v", ...}` with the separators
  `json.dumps` uses, but it does not escape quotes, backslashes or control characters.
- `isdigit` accepts Unicode digits other than `0`-`9`, such as superscripts. The model accepts ASCII
  digits only.
- `TypeClassifier.Classify` compares `10 * count > 7 * n` in integers, not `count > n * 0.7` in floating
  point. The two agree for every n up to 10, and `TypeClassifier.SamplesProperties` shows that a column
  never has more than 10 samples.
- The insertion order of the `data_types` dictionary is not modelled. It is a `map`, because nothing
  reads that order.
- Sheet names in a workbook are unique, as the file format requires. So the model takes
  `workbook[sheet_name]` to be the sheet at that position of `sheetnames`. The sheets dictionary still
  uses overwrite-in-place semantics, as in the source.
- The character size of the digest is not bounded. `DigestEntryBound` counts the entries of
  `summary_parts`, not text lines. Entries that start with a newline (`app.py:136`, `app.py:140`,
  `app.py:149`) add a blank line once the entries are joined. Headers, file names, sheet names and error
  messages are never cut. Each previewed sample row lists every column's key (`app.py:157`). So the
  text grows with the number of columns and with the lengths of headers and names.
- Logging calls are left out.
- The nested `summary` dictionaries are flattened. Their fields are fields of `SheetRecord` and
  `FileRecord`.
