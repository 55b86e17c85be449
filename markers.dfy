/**
 * Part markers: how `extract_tables_by_part` decides, line by line, which
 * part of a Schedule K-3 the following tables belong to (app.py:19-30).
 */
module Markers {

  /** The part in force before any marker line has been read (app.py:19). */
  const General: string := "General"

  /** The marker labels, tried in this order for every line (app.py:20-21). */
  const PartPattern: seq<string> :=
    ["Part I", "Part II", "Part III", "Part IV", "Part V", "Part VI", "Part VII",
     "Part VIII", "Part IX", "Part X", "Part XI", "Part XII", "Part XIII"]

  /** The only values the current part can ever take. */
  const Reachable: set<string> := {General, "Part I", "Part V", "Part X"}

  /** `pat` appears in `line` starting at position `i`. */
  predicate OccursAt(pat: string, line: string, i: nat) {
    i + |pat| <= |line| && line[i..i + |pat|] == pat
  }

  /** Python's `pat in line` on two strings: a case-sensitive substring test. */
  predicate Occurs(pat: string, line: string) {
    exists i: nat | i <= |line| :: OccursAt(pat, line, i)
  }

  lemma OccursTransitive(a: string, b: string, c: string)
    requires Occurs(a, b) && Occurs(b, c)
    ensures Occurs(a, c)
  {
    var i: nat :| i <= |b| && OccursAt(a, b, i);
    var j: nat :| j <= |c| && OccursAt(b, c, j);
    forall k | 0 <= k < |a|
      ensures c[j + i + k] == a[k]
    {
      assert c[j + i + k] == c[j..j + |b|][i + k] == b[i + k] == b[i..i + |a|][k];
    }
    assert c[j + i..j + i + |a|] == a;
    assert OccursAt(a, c, j + i);
  }

  /**
   * Index of the first label of `pats` that occurs in `line`, or `|pats|`
   * when none does: the `for part in part_pattern ... break` search.
   */
  function FirstIndex(pats: seq<string>, line: string): (k: nat)
    ensures k <= |pats|
    ensures forall j | 0 <= j < k :: !Occurs(pats[j], line)
    ensures k < |pats| ==> Occurs(pats[k], line)
  {
    if pats == [] then 0
    else if Occurs(pats[0], line) then 0
    else 1 + FirstIndex(pats[1..], line)
  }

  /** Whether a line contains any marker label at all. */
  predicate HasMarker(line: string) {
    FirstIndex(PartPattern, line) < |PartPattern|
  }

  /** The label a marker line switches to. */
  function MarkerOf(line: string): string
    requires HasMarker(line)
  {
    PartPattern[FirstIndex(PartPattern, line)]
  }

  /**
   * The current part after reading one more line (app.py:27-30): unchanged, or
   * one of the three unshadowed labels, and then one that occurs in the line.
   */
  function NextPart(current: string, line: string): (r: string)
    ensures r == current || (r in {"Part I", "Part V", "Part X"} && Occurs(r, line))
  {
    MarkerShadowing(line);
    if HasMarker(line) then MarkerOf(line) else current
  }

  /** The current part after reading `lines` in order, starting from `current`. */
  function PartAfterLines(current: string, lines: seq<string>): string
    decreases |lines|
  {
    if lines == [] then current
    else NextPart(PartAfterLines(current, lines[..|lines| - 1]), lines[|lines| - 1])
  }

  /**
   * The rule as the source states it: the new part is the first label, in list
   * order, that occurs in the line; a line with no label keeps the current part.
   */
  lemma NextPartIsFirstListedLabel(current: string, line: string)
    ensures (forall k | 0 <= k < |PartPattern| :: !Occurs(PartPattern[k], line)) ==>
              NextPart(current, line) == current
    ensures forall k | 0 <= k < |PartPattern| ::
              Occurs(PartPattern[k], line) && (forall j | 0 <= j < k :: !Occurs(PartPattern[j], line)) ==>
                NextPart(current, line) == PartPattern[k]
  {
    var f := FirstIndex(PartPattern, line);
    forall k | 0 <= k < |PartPattern| && Occurs(PartPattern[k], line) && (forall j | 0 <= j < k :: !Occurs(PartPattern[j], line))
      ensures NextPart(current, line) == PartPattern[k]
    {
      assert f == k;
    }
  }

  /** The shortest label that is a prefix of label `k`. */
  function Base(k: nat): nat {
    if k < 4 || k == 8 then 0 else if k < 8 then 4 else 9
  }

  lemma BaseOccurs(k: nat)
    requires k < |PartPattern|
    ensures Base(k) <= k && Occurs(PartPattern[Base(k)], PartPattern[k])
  {
    assert OccursAt(PartPattern[Base(k)], PartPattern[k], 0);
  }

  /**
   * Shorter labels shadow longer ones: "Part I" occurs inside "Part II",
   * "Part III", "Part IV" and "Part IX"; "Part V" inside "Part VI", "Part VII"
   * and "Part VIII"; "Part X" inside "Part XI", "Part XII" and "Part XIII".
   * So a line is only ever assigned "Part I", "Part V" or "Part X".
   */
  lemma MarkerShadowing(line: string)
    ensures FirstIndex(PartPattern, line) ==
              if Occurs("Part I", line) then 0
              else if Occurs("Part V", line) then 4
              else if Occurs("Part X", line) then 9
              else |PartPattern|
  {
    var f := FirstIndex(PartPattern, line);
    if f < |PartPattern| {
      BaseOccurs(f);
      OccursTransitive(PartPattern[Base(f)], PartPattern[f], line);
      assert Base(f) == f;
    }
    assert f == 0 || f == 4 || f == 9 || f == |PartPattern|;
    if f > 0 { assert !Occurs(PartPattern[0], line); }
    if f > 4 { assert !Occurs(PartPattern[4], line); }
    if f > 9 { assert !Occurs(PartPattern[9], line); }
  }

  /** A line holding "Part II", "Part III", "Part IV" or "Part IX" sets "Part I". */
  lemma PartIShadowsItsExtensions(current: string, line: string, k: nat)
    requires k in {1, 2, 3, 8} && Occurs(PartPattern[k], line)
    ensures NextPart(current, line) == "Part I"
  {
    BaseOccurs(k);
    OccursTransitive("Part I", PartPattern[k], line);
    MarkerShadowing(line);
  }

  /** Starting from a reachable part, reading any lines stays among the four reachable values. */
  lemma {:induction false} PartAfterLinesReachable(current: string, lines: seq<string>)
    requires current in Reachable
    ensures PartAfterLines(current, lines) in Reachable
    decreases |lines|
  {
    if lines != [] {
      PartAfterLinesReachable(current, lines[..|lines| - 1]);
      MarkerShadowing(lines[|lines| - 1]);
    }
  }

  /** Reading `a` then `b` is reading `a + b`: the part carries over, never reset. */
  lemma {:induction false} PartAfterLinesConcat(current: string, a: seq<string>, b: seq<string>)
    ensures PartAfterLines(current, a + b) == PartAfterLines(PartAfterLines(current, a), b)
    decreases |b|
  {
    if b == [] {
      assert a + b == a;
    } else {
      assert (a + b)[..|a + b| - 1] == a + b[..|b| - 1];
      PartAfterLinesConcat(current, a, b[..|b| - 1]);
    }
  }

  /** No line of `lines` after position `i` holds a marker. */
  predicate NoMarkerAfter(lines: seq<string>, i: int) {
    forall j | 0 <= j < |lines| && i < j :: !HasMarker(lines[j])
  }

  /** A run of lines without a marker leaves the current part unchanged. */
  lemma {:induction false} NoMarkerKeepsPart(current: string, lines: seq<string>)
    requires NoMarkerAfter(lines, -1)
    ensures PartAfterLines(current, lines) == current
    decreases |lines|
  {
    if lines != [] {
      var n := |lines| - 1;
      assert !HasMarker(lines[n]);
      assert NoMarkerAfter(lines[..n], -1);
      NoMarkerKeepsPart(current, lines[..n]);
    }
  }

  /**
   * The part in force after a run of lines is the label of its last marker
   * line: the lines after it hold no marker and change nothing.
   */
  lemma {:induction false} LastMarkerLineDecides(current: string, lines: seq<string>, i: nat)
    requires i < |lines| && HasMarker(lines[i]) && NoMarkerAfter(lines, i)
    ensures PartAfterLines(current, lines) == MarkerOf(lines[i])
  {
    var prefix := lines[..i + 1];
    var rest := lines[i + 1..];
    assert lines == prefix + rest;
    PartAfterLinesConcat(current, prefix, rest);
    assert NoMarkerAfter(rest, -1) by {
      forall j | 0 <= j < |rest| ensures !HasMarker(rest[j]) {
        assert rest[j] == lines[i + 1 + j];
      }
    }
    NoMarkerKeepsPart(PartAfterLines(current, prefix), rest);
    assert prefix[..i] + [lines[i]] == prefix;
  }
}
