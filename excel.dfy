/**
 * The deterministic rules of `write_to_excel` (app.py:39-73): one sheet per
 * part in key order titled `part[:31]`, empty tables skipped, and each
 * column's width `min(longest non-empty cell + 2, 50)`.
 */
module Excel {
  import opened Markers
  import opened Grids
  import opened PartTables
  import Extraction

  /** Longest sheet title kept by `part[:31]` (app.py:50). */
  const MaxTitle: nat := 31

  /** Widest column width set (app.py:68). */
  const MaxWidth: nat := 50

  /** `part[:31]` (app.py:50). */
  function Title(part: string): (t: string)
    ensures |t| <= MaxTitle && t <= part
    ensures |part| <= MaxTitle ==> t == part
    ensures |part| > MaxTitle ==> |t| == MaxTitle
  {
    part[..if |part| <= MaxTitle then |part| else MaxTitle]
  }

  /** `df.empty`: the frame has no rows or no columns (app.py:52). */
  predicate IsEmptyFrame(t: Table)
    ensures |t.body| > 0 ==> (IsEmptyFrame(t) <==> t.header == [])
  {
    |t.body| == 0 || |t.header| == 0
  }

  /** The rows a sheet receives: each non-empty table's header and body, in list order (app.py:51-55). */
  function SheetRows(tables: seq<Table>): seq<Row>
    decreases |tables|
  {
    if tables == [] then []
    else
      var t := tables[|tables| - 1];
      SheetRows(tables[..|tables| - 1]) + (if IsEmptyFrame(t) then [] else Rows(t))
  }

  /** The cell of `row` in column `c`; a row shorter than the sheet leaves it empty. */
  function CellAt(row: Row, c: nat): Cell {
    if c < |row| then row[c] else Blank
  }

  /** The length a cell contributes to its column's width; an empty cell contributes nothing. */
  function CellLen(cell: Cell): nat {
    match cell
    case Blank => 0
    case Text(s) => |s|
  }

  /** The longest cell length in column `c`, 0 for a column of empty cells. */
  function MaxLen(rows: seq<Row>, c: nat): (m: nat)
    ensures rows == [] ==> m == 0
    ensures |rows| == 1 ==> m == CellLen(CellAt(rows[0], c))
    decreases |rows|
  {
    if rows == [] then 0
    else
      var m0 := MaxLen(rows[..|rows| - 1], c);
      var l := CellLen(CellAt(rows[|rows| - 1], c));
      if l > m0 then l else m0
  }

  /** MaxLen is the length of the longest cell of the column, or 0 when all its cells are empty. */
  lemma {:induction false} MaxLenIsLongest(rows: seq<Row>, c: nat)
    ensures forall r | r in rows :: CellLen(CellAt(r, c)) <= MaxLen(rows, c)
    ensures MaxLen(rows, c) == 0 || exists r | r in rows :: CellLen(CellAt(r, c)) == MaxLen(rows, c)
    decreases |rows|
  {
    if rows != [] {
      MaxLenIsLongest(rows[..|rows| - 1], c);
      assert forall r | r in rows :: r in rows[..|rows| - 1] || r == rows[|rows| - 1];
    }
  }

  /** `min(max_len + 2, 50)` (app.py:68). */
  function Width(maxLen: nat): (w: nat)
    ensures 2 <= w <= MaxWidth
    ensures w <= maxLen + 2
    ensures w == maxLen + 2 || w == MaxWidth
  {
    if maxLen + 2 < MaxWidth then maxLen + 2 else MaxWidth
  }

  /**
   * The number of columns `ws.columns` yields: none for a sheet that received
   * no row, otherwise its longest row, and at least 1.
   */
  function ColumnCount(rows: seq<Row>): (n: nat)
    ensures rows == [] <==> n == 0
    decreases |rows|
  {
    if rows == [] then 0
    else
      var n0 := ColumnCount(rows[..|rows| - 1]);
      var l := |rows[|rows| - 1]|;
      if l > n0 then l else if n0 > 0 then n0 else 1
  }

  /**
   * A sheet without rows has no columns; otherwise every written row fits in
   * the sheet's columns, and the count is 1 or the length of some row.
   */
  lemma {:induction false} ColumnCountIsLongestRow(rows: seq<Row>)
    ensures rows == [] <==> ColumnCount(rows) == 0
    ensures forall r | r in rows :: |r| <= ColumnCount(rows)
    ensures ColumnCount(rows) <= 1 || exists r | r in rows :: |r| == ColumnCount(rows)
    decreases |rows|
  {
    if rows != [] {
      ColumnCountIsLongestRow(rows[..|rows| - 1]);
      assert forall r | r in rows :: r in rows[..|rows| - 1] || r == rows[|rows| - 1];
    }
  }

  /** The widths of the first `n` columns, left to right. */
  function WidthsUpTo(rows: seq<Row>, n: nat): seq<nat>
    decreases n
  {
    if n == 0 then [] else WidthsUpTo(rows, n - 1) + [Width(MaxLen(rows, n - 1))]
  }

  /** One width per column of the sheet. */
  function Widths(rows: seq<Row>): seq<nat> {
    WidthsUpTo(rows, ColumnCount(rows))
  }

  /** Column `c`'s width is the width of its longest cell. */
  lemma {:induction false} WidthsUpToAt(rows: seq<Row>, n: nat, c: nat)
    requires c < n
    ensures |WidthsUpTo(rows, n)| == n
    ensures WidthsUpTo(rows, n)[c] == Width(MaxLen(rows, c))
    decreases n
  {
    if c < n - 1 {
      WidthsUpToAt(rows, n - 1, c);
    } else if n > 1 {
      WidthsUpToAt(rows, n - 1, 0);
    }
  }

  /** What the workbook holds for one part. */
  datatype Sheet = Sheet(title: string, rows: seq<Row>, widths: seq<nat>)

  function SheetOf(part: string, tables: seq<Table>): Sheet {
    var rows := SheetRows(tables);
    Sheet(Title(part), rows, Widths(rows))
  }

  /** The sheets made for `keys`, one per key, in order. */
  function SheetsFor(keys: seq<string>, d: PartMap): seq<Sheet>
    decreases |keys|
  {
    if keys == [] then []
    else
      var part := keys[|keys| - 1];
      SheetsFor(keys[..|keys| - 1], d) + [SheetOf(part, Get(d, part))]
  }

  /** The workbook: one sheet per key, in key order (app.py:49-50). */
  function Workbook(d: PartMap): seq<Sheet> {
    SheetsFor(d.order, d)
  }

  /** Writing two runs of tables one after the other writes their rows one after the other. */
  lemma {:induction false} SheetRowsConcat(a: seq<Table>, b: seq<Table>)
    ensures SheetRows(a + b) == SheetRows(a) + SheetRows(b)
    decreases |b|
  {
    if b == [] {
      assert a + b == a;
    } else {
      assert (a + b)[..|a + b| - 1] == a + b[..|b| - 1];
      SheetRowsConcat(a, b[..|b| - 1]);
    }
  }

  /**
   * A kept grid is written back as exactly its own rows, header first, unless
   * its header row has no cells, in which case the frame is empty and skipped.
   */
  lemma KeptGridWrittenBack(g: Grid)
    requires Kept(g)
    ensures SheetRows([ToTable(g)]) == if g[0] == [] then [] else g
  {
  }

  /** A table list holding only empty frames writes no rows at all. */
  lemma {:induction false} EmptyFramesWriteNothing(tables: seq<Table>)
    requires forall i | 0 <= i < |tables| :: IsEmptyFrame(tables[i])
    ensures SheetRows(tables) == []
    decreases |tables|
  {
    if tables != [] {
      EmptyFramesWriteNothing(tables[..|tables| - 1]);
    }
  }

  /**
   * A sheet gets widths exactly when it received a row; every width lies in
   * [2, 50]; and no cell is longer than its width minus 2 unless the width is
   * capped.
   */
  lemma WidthsBounded(rows: seq<Row>)
    ensures rows == [] <==> Widths(rows) == []
    ensures forall r | r in rows :: |r| <= |Widths(rows)|
    ensures forall c | 0 <= c < |Widths(rows)| :: 2 <= Widths(rows)[c] <= MaxWidth
    ensures forall c, r | 0 <= c < |Widths(rows)| && r in rows ::
              CellLen(CellAt(r, c)) + 2 <= Widths(rows)[c] || Widths(rows)[c] == MaxWidth
  {
    var n := ColumnCount(rows);
    ColumnCountIsLongestRow(rows);
    if n > 0 {
      WidthsUpToAt(rows, n, 0);
    }
    forall c | 0 <= c < n
      ensures Widths(rows)[c] == Width(MaxLen(rows, c))
      ensures forall r | r in rows :: CellLen(CellAt(r, c)) <= MaxLen(rows, c)
    {
      WidthsUpToAt(rows, n, c);
      MaxLenIsLongest(rows, c);
    }
  }

  /** The sheets of a workbook are the dictionary's keys, one each, in key order. */
  lemma {:induction false} SheetsForAt(keys: seq<string>, d: PartMap, i: nat)
    requires i < |keys|
    ensures |SheetsFor(keys, d)| == |keys|
    ensures SheetsFor(keys, d)[i] == SheetOf(keys[i], Get(d, keys[i]))
    decreases |keys|
  {
    var n := |keys| - 1;
    var prev := SheetsFor(keys[..n], d);
    var last := SheetOf(keys[n], Get(d, keys[n]));
    assert SheetsFor(keys, d) == prev + [last];
    if n == 0 {
      assert prev == [];
    } else {
      SheetsForAt(keys[..n], d, if i < n then i else 0);
      if i < n {
        assert keys[..n][i] == keys[i];
        assert (prev + [last])[i] == prev[i];
      }
    }
  }

  lemma WorkbookAt(d: PartMap, i: nat)
    requires i < |d.order|
    ensures |Workbook(d)| == |d.order|
    ensures Workbook(d)[i] == SheetOf(d.order[i], Get(d, d.order[i]))
  {
    SheetsForAt(d.order, d, i);
  }

  /**
   * When every key is one of the reachable part names, every sheet title is its
   * key untruncated, so no two sheets share a title.
   */
  lemma ShortKeysKeepTitles(d: PartMap)
    requires Wf(d)
    requires forall q | q in d.tables :: q in Reachable
    ensures |Workbook(d)| == |d.order|
    ensures forall i | 0 <= i < |d.order| :: Workbook(d)[i].title == d.order[i]
    ensures forall i, j | 0 <= i < j < |d.order| :: Workbook(d)[i].title != Workbook(d)[j].title
  {
    if d.order != [] {
      WorkbookAt(d, 0);
    }
    forall i | 0 <= i < |d.order| ensures Workbook(d)[i].title == d.order[i] {
      WorkbookTitleAt(d, i);
      assert d.order[i] in Reachable;
    }
  }

  /** The title of sheet `i` is `Title` of key `i`. */
  lemma WorkbookTitleAt(d: PartMap, i: nat)
    requires i < |d.order|
    ensures |Workbook(d)| == |d.order|
    ensures Workbook(d)[i].title == Title(d.order[i])
  {
    WorkbookAt(d, i);
  }

  /**
   * For the dictionary the extractor returns, every sheet title is its part
   * name untruncated (the only possible names are short), so no two sheets
   * share a title.
   */
  lemma ExtractedSheetTitles(pages: seq<Page>)
    ensures var d := Extraction.Extract(pages);
            && |Workbook(d)| == |d.order|
            && (forall i | 0 <= i < |d.order| :: Workbook(d)[i].title == d.order[i])
            && (forall i, j | 0 <= i < j < |d.order| :: Workbook(d)[i].title != Workbook(d)[j].title)
  {
    Extraction.ExtractFilesByPart(pages);
    Extraction.ExtractKeysReachable(pages);
    ShortKeysKeepTitles(Extraction.Extract(pages));
  }

  /** The max_len loop over one column's cells (app.py:63-68). */
  method ColumnWidth(rows: seq<Row>, c: nat) returns (width: nat)
    ensures width == Width(MaxLen(rows, c))
  {
    var maxLen := 0;
    for i := 0 to |rows|
      invariant maxLen == MaxLen(rows[..i], c)
    {
      assert rows[..i + 1][..i] == rows[..i];
      var cell := CellAt(rows[i], c);
      if cell.Text? && cell.s != "" {
        maxLen := if maxLen < |cell.s| then |cell.s| else maxLen;
      }
    }
    assert rows[..|rows|] == rows;
    width := if maxLen + 2 < MaxWidth then maxLen + 2 else MaxWidth;
  }

  /** The rows one sheet receives: the loop over its tables skipping empty frames (app.py:51-55). */
  method WriteTables(tables: seq<Table>) returns (rows: seq<Row>)
    ensures rows == SheetRows(tables)
  {
    rows := [];
    for j := 0 to |tables|
      invariant rows == SheetRows(tables[..j])
    {
      assert tables[..j + 1][..j] == tables[..j];
      var df := tables[j];
      if !(|df.body| == 0 || |df.header| == 0) {
        rows := rows + ([df.header] + df.body);
      }
    }
    assert tables[..|tables|] == tables;
  }

  /** The loop over a sheet's columns setting each width (app.py:62-68). */
  method SetColumnWidths(rows: seq<Row>) returns (widths: seq<nat>)
    ensures widths == Widths(rows)
  {
    widths := [];
    for c := 0 to ColumnCount(rows)
      invariant widths == WidthsUpTo(rows, c)
    {
      var w := ColumnWidth(rows, c);
      widths := widths + [w];
    }
  }

  /** `write_to_excel` up to the point where the workbook would be styled and serialised (app.py:39-68). */
  method WriteToExcel(partTables: PartTableDict) returns (book: seq<Sheet>)
    requires partTables.Valid()
    ensures book == Workbook(partTables.Value())
  {
    var d := partTables.Value();
    book := [];
    for i := 0 to |d.order|
      invariant book == SheetsFor(d.order[..i], d)
    {
      assert d.order[..i + 1][..i] == d.order[..i];
      var part := d.order[i];
      var rows := WriteTables(d.tables[part]);
      var widths := SetColumnWidths(rows);
      book := book + [Sheet(part[..if |part| <= MaxTitle then |part| else MaxTitle], rows, widths)];
    }
    assert d.order[..|d.order|] == d.order;
  }
}
