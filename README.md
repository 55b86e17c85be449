# Schedule K-3 part segmentation, modelled in Dafny

This project models the core of a small Streamlit tool that turns an IRS Schedule K-3 PDF into an Excel
workbook with one worksheet per part of the form. The logic lives in `app.py`:

- `extract_tables_by_part` walks the pages in order and keeps a *current part*, which starts as `"General"`.
  Each text line is checked against the fixed list `"Part I"` … `"Part XIII"`, in list order. The first
  label that occurs in the line, as a case-sensitive substring, becomes the current part. Once all lines
  of a page are read, every table grid of that page with more than one row is split into a header (its
  first row) and a body (the rest). The table is then appended to the current part's list in an
  insertion-ordered dictionary.
- `write_to_excel` makes one sheet per dictionary key, in key order, titled `part[:31]`. It skips empty
  data frames and sets each column's width to `min(longest non-empty cell + 2, 50)`.

Modules, one per component:

- `Markers` (`markers.dfy`): substring matching, the first-listed-label rule, and the part in force after
  a run of lines.
- `Grids` (`grids.dfy`): cells, rows, grids, pages and tables, and which grids are kept.
- `PartTables` (`part_tables.dfy`): the ordered dictionary. `PartMap` is its value and `SetDefaultAppend`
  is `setdefault(part, []).append(t)` on that value. The class `PartTableDict` is the dictionary object
  that the extractor mutates in place.
- `Extraction` (`extraction.dfy`): the specification `Run`/`Extract` as a fold over pages, and the
  imperative `ExtractTablesByPart`. That method has nested loops over pages, lines and grids. It is proved
  equal to `Extract`, and the properties are proved about `Extract`.
- `Excel` (`excel.dfy`): sheet titles, the rows a sheet receives, column widths, and the imperative
  `WriteToExcel`, which is proved equal to the specification `Workbook`.

Behaviour of the code that the model keeps as written:

- Part labels are matched case-sensitively, anywhere in a line, against the fixed list in list order.
  There is no line-start rule and no case folding.
- Because of that list order, `"Part I"` shadows `"Part II"`, `"Part III"`, `"Part IV"` and `"Part IX"`.
  Likewise `"Part V"` shadows `"Part VI"` to `"Part VIII"`, and `"Part X"` shadows `"Part XI"` to
  `"Part XIII"`. So the current part is only ever `"General"`, `"Part I"`, `"Part V"` or `"Part X"`
  (`Markers.MarkerShadowing`, `Extraction.ExtractKeysReachable`). A page that mentions `"Part IV"` files
  its tables under `"Part I"`; no `"Part IV"` sheet is ever made.
- Only table grids are extracted. The code has no key/value line classifier, no two-line join and no
  `"NONE"` values, so none is modelled.

## Model

| member | source | states |
|---|---|---|
| `Markers.OccursTransitive` | app.py:28 | substring containment (`pat in line`) is transitive, which is why a shorter label shadows every label that contains it |
| `Markers.FirstIndex` | app.py:27-30 | the search over the label list stops at the first label that occurs in the line: every earlier label is absent, and the found one occurs; it returns the list length when no label occurs |
| `Markers.NextPart` | app.py:27-30 | after one line, the current part is either unchanged or one of "Part I", "Part V", "Part X", and then that label occurs in the line |
| `Markers.NextPartIsFirstListedLabel` | app.py:26-30 | a line with no label leaves the current part unchanged; otherwise the new part is the first label, in list order, that occurs anywhere in the line |
| `Markers.BaseOccurs` | app.py:20-21 | each of the 13 labels contains "Part I", "Part V" or "Part X", at a list position no later than its own |
| `Markers.MarkerShadowing` | app.py:20-30 | the label chosen for a line is "Part I" if it occurs, else "Part V" if it occurs, else "Part X" if it occurs, else none; no other label can be chosen |
| `Markers.PartIShadowsItsExtensions` | app.py:20-30 | a line containing "Part II", "Part III", "Part IV" or "Part IX" sets the current part to "Part I" |
| `Markers.PartAfterLinesReachable` | app.py:19-30 | starting from "General" or one of the three reachable labels, reading any lines keeps the current part among those four values |
| `Markers.PartAfterLinesConcat` | app.py:24-30 | reading two runs of lines one after the other is the same as reading their concatenation, so the part carries over and is never reset |
| `Markers.NoMarkerKeepsPart` | app.py:26-30 | a run of lines with no label leaves the current part unchanged |
| `Markers.LastMarkerLineDecides` | app.py:26-30 | after a run of lines, the current part is the label of the last line that holds a label |
| `Grids.Kept` | app.py:34 | `table and len(table) > 1` holds exactly when the grid has at least two rows |
| `Grids.ToTable` | app.py:35 | a kept grid splits into header = row 0 and body = the remaining rows; rejoining them gives back the grid, and the body has at least one row |
| `Grids.KeptTablesConcat` | app.py:33-35 | the tables made from a list of grids keep extraction order: those of `a + b` are those of `a` followed by those of `b` |
| `Grids.KeptTablesMembership` | app.py:33-35 | a table comes out of a page if and only if some grid of the page has more than one row and splits into it; there are never more tables than grids |
| `Grids.KeptTablesCount` | app.py:33-35 | the number of tables from a page equals the number of its grids that have more than one row |
| `PartTables.SetDefaultAppend` | app.py:36 | `setdefault(part, []).append(t)`: part's list gains `t` at the end, every other part's list and membership are unchanged, part becomes the last key only if it was absent, and well-formedness (unique keys, keys = listed keys, no empty list) is preserved |
| `PartTables.SetDefaultAppendTotal` | app.py:36 | one append adds exactly one table to the dictionary's total |
| `PartTables.PartTableDict.constructor` | app.py:18 | the dictionary starts empty and well-formed |
| `PartTables.PartTableDict.Append` | app.py:36 | the object's new contents are `SetDefaultAppend` of its old contents, and it stays well-formed |
| `Extraction.FileGrids` | app.py:33-36 | filing a page's grids under a part extends that part's list by exactly the page's kept tables, in order, and leaves every other part's list as it was |
| `Extraction.FileGridsEffect` | app.py:32-36 | filing a page's grids adds or removes no key other than the part; the part becomes a key exactly when it was one or some table was filed, and a new last key only then; well-formedness is kept and the total grows by the number of kept tables |
| `Extraction.ProcessPage` | app.py:25-36 | one page moves the current part to the part after all of the page's lines, and that part's list gains exactly the page's kept tables, in order |
| `Extraction.CurrentIsLastMarkerSoFar` | app.py:19-30 | after any number of pages, the current part is the result of scanning all their lines from "General", so it is never reset between pages, and it is one of the four reachable values |
| `Extraction.ExtractFilesByPart` | app.py:24-37 | each part's list is exactly the tables of the pages whose part, after that page's last line, names it, in page order and extraction order; so a table that comes before a marker line on its page still goes to the part set by the page's last marker; a part is a key if and only if at least one table was filed under it |
| `Extraction.ExtractTotal` | app.py:33-37 | the total number of tables in the result equals the number of tables made from kept grids in the document, and equals the number of (page, grid) positions whose grid has more than one row |
| `Extraction.ExtractKeyOrder` | app.py:33-36 | the keys are the parts tables were filed under, without repeats, in order of first filing |
| `Extraction.ExtractKeysReachable` | app.py:19-36 | every key of the result is "General", "Part I", "Part V" or "Part X" |
| `Extraction.ScanLine` | app.py:27-30 | the loop over the label list with `break` yields the current part after reading the line |
| `Extraction.ExtractTablesByPart` | app.py:17-37 | the nested loops over pages, lines and grids leave the dictionary well-formed and equal to the specification `Extract` of the pages |
| `Excel.Title` | app.py:50 | `part[:31]` is a prefix of the part name of length at most 31: unchanged when the name has 31 characters or fewer, exactly 31 characters otherwise |
| `Excel.Width` | app.py:68 | `min(max_len + 2, 50)` lies in [2, 50], is at most `max_len + 2`, and equals it unless capped at 50 |
| `Excel.IsEmptyFrame` | app.py:52 | a frame with body rows is empty exactly when its header row has no cells |
| `Excel.MaxLen` | app.py:63-67 | `max_len` starts at 0, so a column of no rows gives 0, and a single row gives that row's cell length |
| `Excel.MaxLenIsLongest` | app.py:63-67 | `max_len` is at least the length of every cell of the column, and is 0 or the length of some cell |
| `Excel.ColumnCount` | app.py:62 | a sheet has no columns exactly when no row was written to it |
| `Excel.ColumnCountIsLongestRow` | app.py:62 | a sheet has no columns exactly when it has no rows; every written row fits in the sheet's columns, and the column count is 1 or the length of some row |
| `Excel.WidthsUpToAt` | app.py:62-68 | there is one width per column, and column c's width is `Width` of that column's longest cell |
| `Excel.SheetRowsConcat` | app.py:51-55 | writing two runs of tables writes their rows one after the other |
| `Excel.KeptGridWrittenBack` | app.py:51-55 | a kept grid's table is written back as exactly the grid's rows, header first, unless its header row has no cells, in which case the frame is empty and contributes no rows |
| `Excel.EmptyFramesWriteNothing` | app.py:52-53 | a list of empty tables contributes no rows |
| `Excel.WidthsBounded` | app.py:62-68 | a sheet gets no widths exactly when it has no rows; every width lies in [2, 50]; every cell's length plus 2 is within its column's width unless the width is capped at 50 |
| `Excel.SheetsForAt` | app.py:49-50 | the sheets made for a key list are one per key, in key order |
| `Excel.WorkbookAt` | app.py:49-50 | the workbook has one sheet per dictionary key, in key order; sheet i has title `part[:31]`, the rows of key i's tables, and their widths |
| `Excel.WorkbookTitleAt` | app.py:49-50 | sheet i's title is the truncated name of key i |
| `Excel.ShortKeysKeepTitles` | app.py:49-50 | when every key is a reachable part name, each sheet title equals its key and no two titles coincide |
| `Excel.ExtractedSheetTitles` | app.py:49-50 | for the extractor's result, no title is ever truncated and no two sheets share a title |
| `Excel.ColumnWidth` | app.py:63-68 | the `max_len` loop over a column's cells, which skips empty cells, yields `Width` of the column's longest cell |
| `Excel.WriteTables` | app.py:51-55 | the loop over a part's tables, which skips empty frames, writes exactly `SheetRows` of them |
| `Excel.SetColumnWidths` | app.py:62-68 | the loop over a sheet's columns yields one width per column, as `Widths` specifies |
| `Excel.WriteToExcel` | app.py:49-68 | the loop over the dictionary's items produces the specification `Workbook`: one sheet per key, in key order, with the truncated title, the rows and the widths |

## Left out

- PDF reading (`pdfplumber.open`, `extract_text`, `extract_tables` and the table settings, app.py:15, app.py:23-25, app.py:32) is a foreign library. Each page comes in as its text lines and its grids. A page without text has no lines, and `splitlines` is taken as already applied.
- `pandas.DataFrame` construction (app.py:35) is reduced to the header/body split. Grids are taken to be rectangular, as the extraction library returns them. What pandas does with a body row whose length differs from the header (padding or an exception) is not modelled.
- The openpyxl effects of `write_to_excel` are not modelled. These are removing the default sheet, cell alignment, borders, bold, `BytesIO` serialisation, and where `ws.append` and `ws[r_idx]` physically place rows (app.py:40-47, app.py:54-61, app.py:70-73). The model gives the ordered rows each sheet receives and the width of each column. Any extra row of empty cells that openpyxl might create would change no width, since empty cells contribute nothing.
- `Excel.ColumnCountIsLongestRow`: the columns `iter_cols` visits are taken to be none for a sheet to which no row was appended, and otherwise the longest appended row, at least 1. The library's own code is not part of this model.
- The Streamlit page, upload widget, spinner, banners and download button (app.py:11-13, app.py:75-88) are UI glue. This includes the "no tables found" warning for an empty result.
- Sheet-title collisions and characters that openpyxl refuses in titles are not modelled. The extractor can only produce the four short names "General", "Part I", "Part V" and "Part X" (`Excel.ExtractedSheetTitles`).
