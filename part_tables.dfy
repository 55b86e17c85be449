/**
 * The `part_tables` dictionary of `extract_tables_by_part` (app.py:18, 36): an
 * insertion-ordered map from part name to the list of tables filed under it,
 * grown only by `setdefault(part, []).append(table)`.
 */
module PartTables {
  import opened Grids

  /** The dictionary's value: its keys in insertion order and its entries. */
  datatype PartMap = PartMap(order: seq<string>, tables: map<string, seq<Table>>)

  const Empty: PartMap := PartMap([], map[])

  /** The list filed under `part`, or the empty list when the key is absent. */
  function Get(d: PartMap, part: string): seq<Table> {
    if part in d.tables then d.tables[part] else []
  }

  /**
   * Keys are listed once each, in `order` exactly when they are entries, and
   * every entry holds at least one table (a key is only created by an append).
   */
  ghost predicate Wf(d: PartMap) {
    && (forall i, j | 0 <= i < j < |d.order| :: d.order[i] != d.order[j])
    && (forall k :: k in d.tables <==> k in d.order)
    && (forall k | k in d.tables :: d.tables[k] != [])
  }

  /** `d.setdefault(part, []).append(t)` on the dictionary's value. */
  function SetDefaultAppend(d: PartMap, part: string, t: Table): (r: PartMap)
    ensures Get(r, part) == Get(d, part) + [t]
    ensures forall q | q != part :: Get(r, q) == Get(d, q)
    ensures part in r.tables
    ensures forall q | q != part :: q in r.tables <==> q in d.tables
    ensures r.order == if part in d.tables then d.order else d.order + [part]
    ensures Wf(d) ==> Wf(r)
  {
    PartMap(if part in d.tables then d.order else d.order + [part], d.tables[part := Get(d, part) + [t]])
  }

  /** The number of tables listed under `keys`. */
  function Count(keys: seq<string>, tables: map<string, seq<Table>>): nat
    decreases |keys|
  {
    if keys == [] then 0
    else (if keys[0] in tables then |tables[keys[0]]| else 0) + Count(keys[1..], tables)
  }

  /** The number of tables in the dictionary, over all parts. */
  function Total(d: PartMap): nat {
    Count(d.order, d.tables)
  }

  /** Replacing the entry of a key listed once in `keys` changes the count by the length difference. */
  lemma {:induction false} CountUpdate(keys: seq<string>, tables: map<string, seq<Table>>, part: string, x: seq<Table>)
    requires forall i, j | 0 <= i < j < |keys| :: keys[i] != keys[j]
    ensures part !in keys ==> Count(keys, tables[part := x]) == Count(keys, tables)
    ensures part in keys ==>
              Count(keys, tables[part := x]) + (if part in tables then |tables[part]| else 0) == Count(keys, tables) + |x|
    decreases |keys|
  {
    if keys != [] {
      assert forall i, j | 0 <= i < j < |keys[1..]| :: keys[1..][i] != keys[1..][j] by {
        forall i, j | 0 <= i < j < |keys[1..]| ensures keys[1..][i] != keys[1..][j] {
          assert keys[1..][i] == keys[i + 1] && keys[1..][j] == keys[j + 1];
        }
      }
      CountUpdate(keys[1..], tables, part, x);
      if keys[0] == part {
        assert part !in keys[1..] by {
          forall i | 0 <= i < |keys[1..]| ensures keys[1..][i] != part {
            assert keys[1..][i] == keys[i + 1];
          }
        }
      } else {
        assert part in keys ==> part in keys[1..];
      }
    }
  }

  /** Appending files exactly one more table. */
  lemma SetDefaultAppendTotal(d: PartMap, part: string, t: Table)
    requires Wf(d)
    ensures Total(SetDefaultAppend(d, part, t)) == Total(d) + 1
  {
    var r := SetDefaultAppend(d, part, t);
    CountUpdate(d.order, d.tables, part, Get(d, part) + [t]);
    if part !in d.tables {
      CountAppendKey(d.order, r.tables, part);
    }
  }

  /** Listing one more key adds that key's entry to the count. */
  lemma {:induction false} CountAppendKey(keys: seq<string>, tables: map<string, seq<Table>>, part: string)
    ensures Count(keys + [part], tables) == Count(keys, tables) + (if part in tables then |tables[part]| else 0)
    decreases |keys|
  {
    if keys == [] {
      assert keys + [part] == [part];
    } else {
      assert (keys + [part])[1..] == keys[1..] + [part];
      CountAppendKey(keys[1..], tables, part);
    }
  }

  /**
   * The dictionary object: `order` and `tables` are updated in place, and
   * `Append` is the only way to add to them.
   */
  class PartTableDict {
    var order: seq<string>
    var tables: map<string, seq<Table>>

    function Value(): PartMap
      reads this
    {
      PartMap(order, tables)
    }

    ghost predicate Valid()
      reads this
    {
      Wf(Value())
    }

    /** `part_tables = {}` (app.py:18). */
    constructor ()
      ensures Valid() && Value() == Empty
    {
      order := [];
      tables := map[];
    }

    /** `part_tables.setdefault(part, []).append(t)` (app.py:36). */
    method Append(part: string, t: Table)
      requires Valid()
      modifies this
      ensures Valid()
      ensures Value() == SetDefaultAppend(old(Value()), part, t)
    {
      if part !in tables {
        order := order + [part];
        tables := tables[part := []];
      }
      tables := tables[part := tables[part] + [t]];
    }
  }
}
