/** What an overlay painted on a row can have harmed, and why painting the cells it covered again from what
    was there mends all of it, wide glyphs it split included. */
module Damage {
  import opened Bytes
  import opened Terminal
  import opened Looks

  /** Whether the glyph of `was` at `x`, or on its other half, is at one of `cols`. */
  predicate Reach(was: seq<Cell>, cols: set<nat>, x: nat)
    requires x < |was|
  {
    || x in cols
    || (was[x].covered && x > 0 && x - 1 in cols)
    || (Wide(was[x]) && x + 1 in cols)
  }

  /** Every cell that is not as it was is of a glyph painted over, and every wide glyph that was not there is
      painted over whole. */
  predicate Harmed(now: seq<Cell>, was: seq<Cell>, cols: set<nat>) {
    |now| == |was| && forall x :: 0 <= x < |now| ==> HarmedAt(now, was, cols, x)
  }

  predicate HarmedAt(now: seq<Cell>, was: seq<Cell>, cols: set<nat>, x: nat)
    requires x < |now| == |was|
  {
    && (!Alike(now[x], was[x]) ==> Reach(was, cols, x))
    && (Wide(now[x]) ==> x + 1 < |now| && ((Alike(now[x], was[x]) && Alike(now[x + 1], was[x + 1])) || {x, x + 1} <= cols))
  }

  lemma Unharmed(now: seq<Cell>, was: seq<Cell>)
    requires Harmed(now, was, {})
    ensures CellsAlike(now, was)
  {
    forall x | 0 <= x < |now| ensures Alike(now[x], was[x]) { assert HarmedAt(now, was, {}, x); }
  }

  lemma NotYet(was: seq<Cell>, cols: nat)
    requires GoodRow(Row(was, false), cols)
    ensures Harmed(was, was, {})
  {
    forall x | 0 <= x < |was| ensures HarmedAt(was, was, {}, x) { assert GoodAt(was, x); }
  }

  lemma AlikeHarmed(now: seq<Cell>, look: seq<Cell>, was: seq<Cell>, cols: set<nat>)
    requires CellsAlike(now, look) && Harmed(look, was, cols)
    ensures Harmed(now, was, cols)
  {
    forall x | 0 <= x < |now| ensures HarmedAt(now, was, cols, x) {
      assert HarmedAt(look, was, cols, x) && Alike(now[x], look[x]);
      if x + 1 < |now| { assert Alike(now[x + 1], look[x + 1]); }
    }
  }

  /** The cells a glyph printed at `i` takes. */
  function Taken(glyph: Glyph, i: nat): set<nat> {
    if glyph.wide then {i, i + 1} else {i}
  }

  /** What printing leaves of a cell it does not print on: itself, or nothing where its other half went. */
  lemma PutAt(cells: seq<Cell>, n: nat, i: nat, glyph: Glyph, attributes: Attributes, x: nat)
    requires GoodRow(Row(cells, false), n) && i < n && (glyph.wide ==> i + 1 < n) && x < n
    ensures var r := Put(cells, i, glyph, attributes);
            && (x == i ==> r[x] == Cell(Some(glyph), attributes, false))
            && (glyph.wide && x == i + 1 ==> r[x] == Cell(None, attributes, true))
            && (x !in Taken(glyph, i) ==>
                  || r[x] == cells[x]
                  || (r[x] == Emptied(cells[x]) && cells[x].covered && x - 1 in Taken(glyph, i))
                  || (r[x] == Emptied(cells[x]) && Wide(cells[x]) && x + 1 in Taken(glyph, i)))
            && (x !in Taken(glyph, i) && cells[x].covered && x - 1 in Taken(glyph, i) ==> !r[x].covered)
            && (x !in Taken(glyph, i) && Wide(cells[x]) && x + 1 in Taken(glyph, i) ==> !Wide(r[x]))
  {
    assert GoodAt(cells, i) && GoodAt(cells, x);
    if i + 1 < n { assert GoodAt(cells, i + 1); }
    if i > 0 { assert GoodAt(cells, i - 1); }
    if i + 2 < n { assert GoodAt(cells, i + 2); }
  }

  /** A glyph of the overlay printed. */
  lemma PaintHarms(now: seq<Cell>, was: seq<Cell>, n: nat, cols: set<nat>, i: nat, glyph: Glyph, attributes: Attributes)
    requires GoodRow(Row(now, false), n) && GoodRow(Row(was, false), n) && Harmed(now, was, cols)
    requires i < n && (glyph.wide ==> i + 1 < n)
    ensures Harmed(Put(now, i, glyph, attributes), was, cols + Taken(glyph, i))
  {
    forall x | 0 <= x < n ensures HarmedAt(Put(now, i, glyph, attributes), was, cols + Taken(glyph, i), x) {
      PaintHarmsAt(now, was, n, cols, i, glyph, attributes, x);
    }
  }

  lemma PaintHarmsAt(now: seq<Cell>, was: seq<Cell>, n: nat, cols: set<nat>, i: nat, glyph: Glyph, attributes: Attributes, x: nat)
    requires GoodRow(Row(now, false), n) && GoodRow(Row(was, false), n) && Harmed(now, was, cols)
    requires i < n && (glyph.wide ==> i + 1 < n) && x < n
    ensures HarmedAt(Put(now, i, glyph, attributes), was, cols + Taken(glyph, i), x)
  {
    hide Put, Seen;
    PutAt(now, n, i, glyph, attributes, x);
    assert HarmedAt(now, was, cols, x) && GoodAt(now, x) && GoodAt(was, x);
    if x > 0 { assert HarmedAt(now, was, cols, x - 1) && GoodAt(now, x - 1) && GoodAt(was, x - 1); }
    if x + 1 < n {
      assert HarmedAt(now, was, cols, x + 1) && GoodAt(now, x + 1) && GoodAt(was, x + 1);
      PutAt(now, n, i, glyph, attributes, x + 1);
    }
    AlikeWide(now, was, n, x);
  }

  lemma AlikeWide(now: seq<Cell>, was: seq<Cell>, n: nat, x: nat)
    requires x < n == |now| == |was|
    ensures forall y :: 0 <= y < n && Alike(now[y], was[y]) ==> Wide(now[y]) == Wide(was[y]) && now[y].covered == was[y].covered
  {
  }

  /** Where the glyph that was at `i` begins. */
  function Begins(was: seq<Cell>, i: nat): nat
    requires i < |was|
  {
    if was[i].covered && i > 0 then i - 1 else i
  }

  /** The glyph that was there printed again: one cell less to mend. */
  lemma RepairMends(now: seq<Cell>, was: seq<Cell>, n: nat, cols: set<nat>, i: nat)
    requires GoodRow(Row(now, false), n) && GoodRow(Row(was, false), n) && Harmed(now, was, cols) && i < n
    ensures var u := Begins(was, i);
            && (GlyphOf(was[u]).wide ==> u + 1 < n)
            && Harmed(Put(now, u, GlyphOf(was[u]), was[u].attributes), was, cols - {i})
  {
    var u := Begins(was, i);
    assert GoodAt(was, u) && GoodAt(was, i);
    forall x | 0 <= x < n ensures HarmedAt(Put(now, u, GlyphOf(was[u]), was[u].attributes), was, cols - {i}, x) {
      RepairMendsAt(now, was, n, cols, i, x);
    }
  }

  lemma RepairMendsAt(now: seq<Cell>, was: seq<Cell>, n: nat, cols: set<nat>, i: nat, x: nat)
    requires GoodRow(Row(now, false), n) && GoodRow(Row(was, false), n) && Harmed(now, was, cols) && i < n && x < n
    requires var u := Begins(was, i); GlyphOf(was[u]).wide ==> u + 1 < n
    ensures var u := Begins(was, i);
            HarmedAt(Put(now, u, GlyphOf(was[u]), was[u].attributes), was, cols - {i}, x)
  {
    hide Put;
    var u := Begins(was, i);
    var glyph := GlyphOf(was[u]);
    PutAt(now, n, u, glyph, was[u].attributes, x);
    assert GoodAt(was, i) && GoodAt(was, u);
    if u + 1 < n { assert GoodAt(was, u + 1); }
    assert HarmedAt(now, was, cols, x) && GoodAt(now, x) && GoodAt(was, x);
    if x > 0 { assert HarmedAt(now, was, cols, x - 1) && GoodAt(now, x - 1) && GoodAt(was, x - 1); }
    if x + 1 < n {
      assert HarmedAt(now, was, cols, x + 1) && GoodAt(now, x + 1) && GoodAt(was, x + 1);
      PutAt(now, n, u, glyph, was[u].attributes, x + 1);
    }
    AlikeWide(now, was, n, x);
  }
}
