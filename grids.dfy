/**
 * What a page of the PDF gives the extractor once text and table extraction
 * are done, and how a table grid becomes a table (app.py:25, app.py:32-35).
 */
module Grids {

  /** One cell of an extracted grid; the extraction library reports a cell with no text as None. */
  datatype Cell = Blank | Text(s: string)

  type Row = seq<Cell>

  /** A table as extracted: a list of rows, each a list of cells. */
  type Grid = seq<Row>

  /** A page: its text split into lines (no lines when it has no text) and its table grids. */
  datatype Page = Page(lines: seq<string>, grids: seq<Grid>)

  /** A kept table: the first row becomes the column header, the rest the body. */
  datatype Table = Table(header: Row, body: seq<Row>)

  /** The table's rows as they are written out: header first, then the body (header=True). */
  function Rows(t: Table): seq<Row> {
    [t.header] + t.body
  }

  /** `table and len(table) > 1`: only grids with at least two rows are kept (app.py:34). */
  predicate Kept(g: Grid)
    ensures Kept(g) <==> |g| >= 2
  {
    g != [] && |g| > 1
  }

  /** `DataFrame(table[1:], columns=table[0])` (app.py:35). */
  function ToTable(g: Grid): (t: Table)
    requires Kept(g)
    ensures Rows(t) == g
    ensures |t.body| == |g| - 1 >= 1
  {
    Table(g[0], g[1..])
  }

  /** The tables a page's grids yield, in extraction order. */
  function KeptTables(grids: seq<Grid>): seq<Table>
    decreases |grids|
  {
    if grids == [] then []
    else
      var g := grids[|grids| - 1];
      KeptTables(grids[..|grids| - 1]) + (if Kept(g) then [ToTable(g)] else [])
  }

  /** Keeping distributes over concatenation: order is preserved and nothing is mixed. */
  lemma {:induction false} KeptTablesConcat(a: seq<Grid>, b: seq<Grid>)
    ensures KeptTables(a + b) == KeptTables(a) + KeptTables(b)
    decreases |b|
  {
    if b == [] {
      assert a + b == a;
    } else {
      assert (a + b)[..|a + b| - 1] == a + b[..|b| - 1];
      KeptTablesConcat(a, b[..|b| - 1]);
    }
  }

  /**
   * A table comes out of a page exactly when some grid of the page is kept and
   * splits into it; at most one table per grid.
   */
  lemma {:induction false} KeptTablesMembership(grids: seq<Grid>)
    ensures |KeptTables(grids)| <= |grids|
    ensures forall t :: t in KeptTables(grids) <==>
              exists i | 0 <= i < |grids| :: Kept(grids[i]) && ToTable(grids[i]) == t
    decreases |grids|
  {
    if grids != [] {
      var n := |grids| - 1;
      var init := grids[..n];
      KeptTablesMembership(init);
      forall t ensures t in KeptTables(grids) <==>
                       exists i | 0 <= i < |grids| :: Kept(grids[i]) && ToTable(grids[i]) == t
      {
        if t in KeptTables(grids) && t !in KeptTables(init) {
          assert Kept(grids[n]) && ToTable(grids[n]) == t;
        }
        if exists i | 0 <= i < |grids| :: Kept(grids[i]) && ToTable(grids[i]) == t {
          var i :| 0 <= i < |grids| && Kept(grids[i]) && ToTable(grids[i]) == t;
          if i < n {
            assert init[i] == grids[i];
          }
        }
      }
    }
  }

  /** Every kept grid yields one table, so a page's table count is its kept-grid count. */
  lemma {:induction false} KeptTablesCount(grids: seq<Grid>)
    ensures |KeptTables(grids)| == |set i | 0 <= i < |grids| && Kept(grids[i])|
    decreases |grids|
  {
    if grids != [] {
      var n := |grids| - 1;
      KeptTablesCount(grids[..n]);
      var before := set i | 0 <= i < n && Kept(grids[..n][i]);
      var now := set i | 0 <= i < |grids| && Kept(grids[i]);
      assert before == set i | 0 <= i < n && Kept(grids[i]);
      if Kept(grids[n]) {
        assert now == before + {n};
      } else {
        assert now == before;
      }
    }
  }
}
