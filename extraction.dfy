/**
 * `extract_tables_by_part` (app.py:17-37): walk the pages in order, let every
 * marker line move the current part, then file each kept table of the page
 * under the part in force once all of the page's lines have been read.
 */
module Extraction {
  import opened Markers
  import opened Grids
  import opened PartTables

  /** The extractor's state between pages: the current part and the dictionary so far. */
  datatype State = State(current: string, filed: PartMap)

  /** `current_part = "General"` and an empty dictionary (app.py:18-19). */
  const Initial: State := State(General, Empty)

  /** Files every kept grid of `grids`, in order, under `part` (app.py:33-36). */
  function FileGrids(d: PartMap, part: string, grids: seq<Grid>): (r: PartMap)
    ensures Get(r, part) == Get(d, part) + KeptTables(grids)
    ensures forall q | q != part :: Get(r, q) == Get(d, q)
    decreases |grids|
  {
    if grids == [] then d
    else
      var e := FileGrids(d, part, grids[..|grids| - 1]);
      var g := grids[|grids| - 1];
      if Kept(g) then SetDefaultAppend(e, part, ToTable(g)) else e
  }

  /**
   * One page: read all its lines first, then file its tables (app.py:25-36).
   * Every kept table of the page goes, in order, to the part in force after
   * the page's last line (`FileGrids` leaves every other part unchanged).
   */
  function ProcessPage(s: State, p: Page): (r: State)
    ensures r.current == PartAfterLines(s.current, p.lines)
    ensures Get(r.filed, r.current) == Get(s.filed, r.current) + KeptTables(p.grids)
  {
    var part := PartAfterLines(s.current, p.lines);
    State(part, FileGrids(s.filed, part, p.grids))
  }

  /** The state after the given pages, in order, from the initial state. */
  function Run(pages: seq<Page>): State
    decreases |pages|
  {
    if pages == [] then Initial
    else ProcessPage(Run(pages[..|pages| - 1]), pages[|pages| - 1])
  }

  /** The dictionary `extract_tables_by_part` returns. */
  function Extract(pages: seq<Page>): PartMap {
    Run(pages).filed
  }

  /** All text lines of the document, page after page. */
  function Lines(pages: seq<Page>): seq<string>
    decreases |pages|
  {
    if pages == [] then [] else Lines(pages[..|pages| - 1]) + pages[|pages| - 1].lines
  }

  /** All tables the document's kept grids yield, page after page. */
  function AllKept(pages: seq<Page>): seq<Table>
    decreases |pages|
  {
    if pages == [] then [] else AllKept(pages[..|pages| - 1]) + KeptTables(pages[|pages| - 1].grids)
  }

  /**
   * Reference definition of what ends up under `q`: the tables of every page
   * whose last marker so far, counted over the whole document up to and
   * including that page, names `q`; in page order.
   */
  function FiledUnder(pages: seq<Page>, q: string): seq<Table>
    decreases |pages|
  {
    if pages == [] then []
    else
      FiledUnder(pages[..|pages| - 1], q)
      + (if PartAfterLines(General, Lines(pages)) == q then KeptTables(pages[|pages| - 1].grids) else [])
  }

  /** The part each page's tables went to, for the pages that filed at least one table. */
  function FilingParts(pages: seq<Page>): seq<string>
    decreases |pages|
  {
    if pages == [] then []
    else
      FilingParts(pages[..|pages| - 1])
      + (if KeptTables(pages[|pages| - 1].grids) != [] then [PartAfterLines(General, Lines(pages))] else [])
  }

  /** `s` without repetitions, each element kept at its first occurrence. */
  function Dedup(s: seq<string>): seq<string>
    decreases |s|
  {
    if s == [] then []
    else
      var d := Dedup(s[..|s| - 1]);
      if s[|s| - 1] in d then d else d + [s[|s| - 1]]
  }

  /**
   * Filing a page's grids under `part`: no other key appears or disappears,
   * `part` becomes a new last key only if it was absent and something was
   * filed, and the total grows by the number of kept tables.
   */
  lemma {:induction false} FileGridsEffect(d: PartMap, part: string, grids: seq<Grid>)
    ensures var r := FileGrids(d, part, grids);
            && (forall q | q != part :: q in r.tables <==> q in d.tables)
            && (part in r.tables <==> part in d.tables || KeptTables(grids) != [])
            && r.order == (if part in d.tables || KeptTables(grids) == [] then d.order else d.order + [part])
            && (Wf(d) ==> Wf(r) && Total(r) == Total(d) + |KeptTables(grids)|)
    decreases |grids|
  {
    if grids != [] {
      var n := |grids| - 1;
      FileGridsEffect(d, part, grids[..n]);
      var e := FileGrids(d, part, grids[..n]);
      if Kept(grids[n]) && Wf(d) {
        SetDefaultAppendTotal(e, part, ToTable(grids[n]));
      }
    }
  }

  /** The current part is never reset between pages: it is the last marker of the whole text so far. */
  lemma {:induction false} CurrentIsLastMarkerSoFar(pages: seq<Page>)
    ensures Run(pages).current == PartAfterLines(General, Lines(pages))
    ensures Run(pages).current in Reachable
    decreases |pages|
  {
    if pages != [] {
      var n := |pages| - 1;
      CurrentIsLastMarkerSoFar(pages[..n]);
      PartAfterLinesConcat(General, Lines(pages[..n]), pages[n].lines);
      PartAfterLinesReachable(Run(pages[..n]).current, pages[n].lines);
    }
  }

  /** The last page's kept tables are filed under the last marker of the whole text. */
  lemma ExtractLastPage(pages: seq<Page>)
    requires pages != []
    ensures Extract(pages)
         == FileGrids(Extract(pages[..|pages| - 1]), PartAfterLines(General, Lines(pages)), pages[|pages| - 1].grids)
  {
    CurrentIsLastMarkerSoFar(pages);
  }

  /**
   * Every table lands under the part in force after its page's last marker
   * line, in page order and extraction order; a part is a key exactly when
   * something was filed under it.
   */
  lemma {:induction false} ExtractFilesByPart(pages: seq<Page>)
    ensures Wf(Extract(pages))
    ensures forall q :: Get(Extract(pages), q) == FiledUnder(pages, q)
    ensures forall q :: q in Extract(pages).tables <==> FiledUnder(pages, q) != []
    decreases |pages|
  {
    if pages != [] {
      var n := |pages| - 1;
      ExtractFilesByPart(pages[..n]);
      ExtractLastPage(pages);
      FileGridsEffect(Extract(pages[..n]), PartAfterLines(General, Lines(pages)), pages[n].grids);
      forall q ensures Get(Extract(pages), q) == FiledUnder(pages, q) { }
      forall q ensures q in Extract(pages).tables <==> FiledUnder(pages, q) != [] {
        assert Get(Extract(pages), q) == FiledUnder(pages, q);
      }
    }
  }

  /** The (page, grid) index pairs of the grids with more than one row. */
  function KeptGridIndices(pages: seq<Page>): set<(int, int)> {
    set i, j | 0 <= i < |pages| && 0 <= j < |pages[i].grids| && Kept(pages[i].grids[j]) :: (i, j)
  }

  /** Pairing a set of positions below `m` with one page number keeps its size. */
  lemma {:induction false} PairsCount(n: int, positions: set<int>, m: nat)
    requires forall j | j in positions :: 0 <= j < m
    ensures |set j | j in positions :: (n, j)| == |positions|
    decreases m
  {
    if m == 0 {
      assert forall j :: j !in positions;
      assert positions == {};
      assert (set j | j in positions :: (n, j)) == {};
    } else {
      var rest := positions - {m - 1};
      PairsCount(n, rest, m - 1);
      if m - 1 in positions {
        assert positions == rest + {m - 1};
        assert (n, m - 1) !in (set j | j in rest :: (n, j));
        assert (set j | j in positions :: (n, j)) == (set j | j in rest :: (n, j)) + {(n, m - 1)};
      } else {
        assert positions == rest;
        assert (set j | j in positions :: (n, j)) == (set j | j in rest :: (n, j));
      }
    }
  }

  /** The kept grids of the whole document are those of all but the last page plus those of the last. */
  lemma {:induction false} KeptGridIndicesCount(pages: seq<Page>)
    ensures |KeptGridIndices(pages)| == |AllKept(pages)|
    decreases |pages|
  {
    if pages != [] {
      var n := |pages| - 1;
      var init := pages[..n];
      var grids := pages[n].grids;
      KeptGridIndicesCount(init);
      var positions := set j | 0 <= j < |grids| && Kept(grids[j]);
      var last := set j | j in positions :: (n, j);
      assert KeptGridIndices(pages) == KeptGridIndices(init) + last;
      assert KeptGridIndices(init) !! last;
      PairsCount(n, positions, |grids|);
      KeptTablesCount(grids);
    }
  }

  /** The number of tables in the result is the number of kept tables in the whole document. */
  lemma {:induction false} ExtractCountsKeptTables(pages: seq<Page>)
    ensures Total(Extract(pages)) == |AllKept(pages)|
    decreases |pages|
  {
    if pages != [] {
      var n := |pages| - 1;
      ExtractCountsKeptTables(pages[..n]);
      ExtractFilesByPart(pages[..n]);
      var s := Run(pages[..n]);
      FileGridsEffect(s.filed, PartAfterLines(s.current, pages[n].lines), pages[n].grids);
    }
  }

  /**
   * The number of tables in the result is the number of grids with more than
   * one row in the whole document, counted both as tables and by (page, grid)
   * position.
   */
  lemma ExtractTotal(pages: seq<Page>)
    ensures Total(Extract(pages)) == |AllKept(pages)|
    ensures Total(Extract(pages)) == |KeptGridIndices(pages)|
  {
    ExtractCountsKeptTables(pages);
    KeptGridIndicesCount(pages);
  }

  /** Keys appear in the order in which their parts first received a table. */
  lemma {:induction false} ExtractKeyOrder(pages: seq<Page>)
    ensures Extract(pages).order == Dedup(FilingParts(pages))
    decreases |pages|
  {
    if pages != [] {
      var n := |pages| - 1;
      var init := pages[..n];
      ExtractKeyOrder(init);
      ExtractFilesByPart(init);
      CurrentIsLastMarkerSoFar(pages);
      var s := Run(init);
      var part := PartAfterLines(s.current, pages[n].lines);
      FileGridsEffect(s.filed, part, pages[n].grids);
      assert part == PartAfterLines(General, Lines(pages));
      if KeptTables(pages[n].grids) != [] {
        assert FilingParts(pages) == FilingParts(init) + [part];
        assert part in Dedup(FilingParts(init)) <==> part in s.filed.tables;
      } else {
        assert FilingParts(pages) == FilingParts(init);
      }
    }
  }

  /** Only "General", "Part I", "Part V" and "Part X" can ever be keys of the result. */
  lemma {:induction false} ExtractKeysReachable(pages: seq<Page>)
    ensures forall q | q in Extract(pages).tables :: q in Reachable
    decreases |pages|
  {
    if pages != [] {
      var n := |pages| - 1;
      ExtractKeysReachable(pages[..n]);
      CurrentIsLastMarkerSoFar(pages);
      var s := Run(pages[..n]);
      FileGridsEffect(s.filed, PartAfterLines(s.current, pages[n].lines), pages[n].grids);
    }
  }

  /** One line of the marker scan: the first listed label in the line wins (app.py:27-30). */
  method ScanLine(current: string, line: string) returns (next: string)
    ensures next == NextPart(current, line)
  {
    ghost var first := FirstIndex(PartPattern, line);
    next := current;
    for k := 0 to |PartPattern|
      invariant k <= first
      invariant next == current
    {
      if Occurs(PartPattern[k], line) {
        assert first == k;
        next := PartPattern[k];
        break;
      }
    }
  }

  /** One more page of the run. */
  lemma RunStep(pages: seq<Page>, i: nat)
    requires i < |pages|
    ensures Run(pages[..i + 1]) == ProcessPage(Run(pages[..i]), pages[i])
  {
    assert pages[..i + 1][..i] == pages[..i];
  }

  /** One more line of the marker scan. */
  lemma PartAfterLinesStep(current: string, lines: seq<string>, j: nat)
    requires j < |lines|
    ensures PartAfterLines(current, lines[..j + 1]) == NextPart(PartAfterLines(current, lines[..j]), lines[j])
  {
    assert lines[..j + 1][..j] == lines[..j];
  }

  /** One more grid filed. */
  lemma FileGridsStep(d: PartMap, part: string, grids: seq<Grid>, j: nat)
    requires j < |grids|
    ensures var e := FileGrids(d, part, grids[..j]);
            FileGrids(d, part, grids[..j + 1]) == if Kept(grids[j]) then SetDefaultAppend(e, part, ToTable(grids[j])) else e
  {
    assert grids[..j + 1][..j] == grids[..j];
  }

  /** `extract_tables_by_part` over pages whose text and grids are already extracted (app.py:17-37). */
  method ExtractTablesByPart(pages: seq<Page>) returns (partTables: PartTableDict)
    ensures partTables.Valid()
    ensures partTables.Value() == Extract(pages)
  {
    partTables := new PartTableDict();
    var current := General;
    for i := 0 to |pages|
      invariant partTables.Valid()
      invariant State(current, partTables.Value()) == Run(pages[..i])
    {
      RunStep(pages, i);
      var page := pages[i];
      ghost var before := Run(pages[..i]);
      for j := 0 to |page.lines|
        invariant current == PartAfterLines(before.current, page.lines[..j])
        invariant partTables.Valid() && partTables.Value() == before.filed
      {
        PartAfterLinesStep(before.current, page.lines, j);
        current := ScanLine(current, page.lines[j]);
      }
      assert page.lines[..|page.lines|] == page.lines;
      for j := 0 to |page.grids|
        invariant partTables.Valid()
        invariant partTables.Value() == FileGrids(before.filed, current, page.grids[..j])
      {
        FileGridsStep(before.filed, current, page.grids, j);
        var table := page.grids[j];
        if table != [] && |table| > 1 {
          partTables.Append(current, Table(table[0], table[1..]));
        }
      }
      assert page.grids[..|page.grids|] == page.grids;
      assert State(current, partTables.Value()) == ProcessPage(before, page);
    }
    assert pages[..|pages|] == pages;
  }
}
