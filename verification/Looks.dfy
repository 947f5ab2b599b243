/** Terminals that look the same go on looking the same: what is written does the same to both. */
module Looks {
  import opened Bytes
  import opened Terminal

  predicate CellsAlike(a: seq<Cell>, b: seq<Cell>) {
    |a| == |b| && forall i :: 0 <= i < |a| ==> Alike(a[i], b[i])
  }

  /** The same cells, whatever they say of going on in the next row. */
  predicate LooksRows(a: seq<Row>, b: seq<Row>) {
    |a| == |b| && forall i :: 0 <= i < |a| ==> CellsAlike(a[i].cells, b[i].cells)
  }

  predicate LooksGrid(a: Grid, b: Grid) {
    LooksRows(a.lines, b.lines) && a.row == b.row && a.col == b.col && a.pending == b.pending
  }

  predicate LooksMain(a: Option<Grid>, b: Option<Grid>) {
    a.Some? == b.Some? && (a.Some? ==> LooksGrid(a.value, b.value))
  }

  /** Two terminals nobody can tell apart. */
  predicate SameLook(a: Term, b: Term) {
    && LooksGrid(a.grid, b.grid) && LooksMain(a.main, b.main)
    && a == b.(grid := a.grid, main := a.main)
  }

  lemma LookSelf(t: Term)
    ensures SameLook(t, t)
  {
  }

  lemma FreedAlike(a: seq<Cell>, b: seq<Cell>, i: nat)
    requires CellsAlike(a, b) && i < |a|
    ensures CellsAlike(Freed(a, i), Freed(b, i))
  {
    assert Alike(a[i], b[i]);
    if i > 0 { assert Alike(a[i - 1], b[i - 1]); }
    if i + 1 < |a| { assert Alike(a[i + 1], b[i + 1]); }
    var x, y := Freed(a, i), Freed(b, i);
    forall k | 0 <= k < |x| ensures Alike(x[k], y[k]) { assert Alike(a[k], b[k]); }
  }

  lemma PutAlike(a: seq<Cell>, b: seq<Cell>, i: nat, glyph: Glyph, attributes: Attributes)
    requires CellsAlike(a, b) && i < |a| && (glyph.wide ==> i + 1 < |a|)
    ensures CellsAlike(Put(a, i, glyph, attributes), Put(b, i, glyph, attributes))
  {
    hide Freed;
    FreedAlike(a, b, i);
    if glyph.wide { FreedAlike(Freed(a, i), Freed(b, i), i + 1); }
  }

  lemma RowsMore(a: seq<Row>, b: seq<Row>, x: seq<Row>, y: seq<Row>)
    requires LooksRows(a, b) && LooksRows(x, y)
    ensures LooksRows(a + x, b + y)
  {
    hide CellsAlike;
  }

  lemma RowsCut(a: seq<Row>, b: seq<Row>, from: nat, end: nat)
    requires LooksRows(a, b) && from <= end <= |a|
    ensures LooksRows(a[from..end], b[from..end])
  {
    hide CellsAlike;
  }

  lemma OneAlike(row: Row)
    ensures CellsAlike(row.cells, row.cells) && LooksRows([row], [row])
  {
  }

  lemma OnLineLooks(a: Term, b: Term, x: Row, y: Row)
    requires Good(a) && Good(b) && SameLook(a, b) && CellsAlike(x.cells, y.cells)
    ensures LineOf(a) == LineOf(b) && SameLook(OnLine(a, x), OnLine(b, y))
  {
    hide CellsAlike, GoodRows;
  }

  lemma ShiftedLooks(g: seq<Row>, h: seq<Row>, top: nat, bottom: nat, row: Row)
    requires LooksRows(g, h) && top <= bottom < |g|
    ensures LooksRows(Shifted(g, top, bottom, row), Shifted(h, top, bottom, row))
  {
    hide CellsAlike;
    OneAlike(row);
    RowsCut(g, h, 0, top);
    RowsCut(g, h, top + 1, bottom + 1);
    RowsCut(g, h, bottom + 1, |g|);
    RowsMore(g[..top], h[..top], g[top + 1..bottom + 1], h[top + 1..bottom + 1]);
    RowsMore(g[..top] + g[top + 1..bottom + 1], h[..top] + h[top + 1..bottom + 1], [row], [row]);
    RowsMore(g[..top] + g[top + 1..bottom + 1] + [row], h[..top] + h[top + 1..bottom + 1] + [row],
             g[bottom + 1..], h[bottom + 1..]);
  }

  lemma DownLooks(a: Term, b: Term)
    requires Good(a) && Good(b) && SameLook(a, b)
    ensures SameLook(Down(a), Down(b))
  {
    hide CellsAlike, GoodRows, Shifted;
    OneAlike(BlankRow(a.cols));
    RowsMore(a.grid.lines, b.grid.lines, [BlankRow(a.cols)], [BlankRow(a.cols)]);
    var kept := |a.grid.lines| - a.rows;
    ShiftedLooks(a.grid.lines, b.grid.lines, kept + a.top, kept + a.bottom, BlankRow(a.cols));
  }

  lemma WrappedLooks(a: Term, b: Term)
    requires Good(a) && Good(b) && SameLook(a, b)
    ensures SameLook(Wrapped(a), Wrapped(b))
  {
    hide CellsAlike, GoodAt, OnLine, Down;
    var x, y := a.grid.lines[LineOf(a)], b.grid.lines[LineOf(b)];
    RowKeeps(a, x);
    RowKeeps(b, y);
    OnLineGood(a, x.(wrapped := true));
    OnLineGood(b, y.(wrapped := true));
    assert CellsAlike(x.cells, y.cells);
    OnLineLooks(a, b, x.(wrapped := true), y.(wrapped := true));
    DownLooks(OnLine(a, x.(wrapped := true)), OnLine(b, y.(wrapped := true)));
  }

  lemma RowKeeps(t: Term, row: Row)
    requires Good(t) && t.grid.lines[LineOf(t)] == row
    ensures GoodRow(row.(wrapped := true), t.cols)
  {
    assert GoodRow(row, t.cols);
    forall i | 0 <= i < t.cols ensures GoodAt(row.(wrapped := true).cells, i) { assert GoodAt(row.cells, i); }
  }

  lemma PlacedLooks(a: Term, b: Term, glyph: Glyph)
    requires Good(a) && Good(b) && SameLook(a, b)
    ensures SameLook(Placed(a, glyph), Placed(b, glyph))
  {
    hide CellsAlike, GoodRows, Wrapped;
    WrappedLooks(a, b);
  }

  lemma PrintedLooks(a: Term, b: Term, glyph: Glyph)
    requires Good(a) && Good(b) && SameLook(a, b)
    ensures SameLook(Printed(a, glyph), Printed(b, glyph))
  {
    hide CellsAlike, GoodAt, Placed, Put;
    PlacedLooks(a, b, glyph);
    var p, q := Placed(a, glyph), Placed(b, glyph);
    var x, y := p.grid.lines[LineOf(p)], q.grid.lines[LineOf(q)];
    assert CellsAlike(x.cells, y.cells);
    PutAlike(x.cells, y.cells, p.grid.col, glyph, p.pen);
    OnLineLooks(p, q, x.(cells := Put(x.cells, p.grid.col, glyph, p.pen)), y.(cells := Put(y.cells, q.grid.col, glyph, q.pen)));
  }

  lemma BlanksAlike(n: nat, cols: nat)
    ensures LooksRows(BlankRows(n, cols), BlankRows(n, cols))
  {
  }

  lemma StepLooks(a: Term, b: Term, op: Op)
    requires Good(a) && Good(b) && SameLook(a, b)
    ensures SameLook(Do(a, op), Do(b, op))
  {
    hide CellsAlike, GoodRows, Printed, Down;
    match op
    case Print(glyph) => PrintedLooks(a, b, glyph);
    case CrLf => DownLooks(a, b);
    case EraseAll =>
      var kept := |a.grid.lines| - a.rows;
      RowsCut(a.grid.lines, b.grid.lines, 0, kept);
      BlanksAlike(a.rows, a.cols);
      RowsMore(a.grid.lines[..kept], b.grid.lines[..kept], BlankRows(a.rows, a.cols), BlankRows(a.rows, a.cols));
    case EraseLine =>
      OneAlike(BlankRow(a.cols));
      OnLineLooks(a, b, BlankRow(a.cols), BlankRow(a.cols));
    case EnterAlternate => BlanksAlike(a.rows, a.cols);
    case _ =>
  }

  /** Whatever is written, two terminals that look the same look the same after it. */
  lemma {:induction false} RanLooks(a: Term, b: Term, ops: seq<Op>)
    requires Good(a) && Good(b) && SameLook(a, b)
    ensures SameLook(Ran(a, ops), Ran(b, ops))
    decreases |ops|
  {
    hide Good, SameLook, Do;
    if ops != [] {
      RanLooks(a, b, ops[..|ops| - 1]);
      StepLooks(Ran(a, ops[..|ops| - 1]), Ran(b, ops[..|ops| - 1]), ops[|ops| - 1]);
    }
  }

  lemma RowsThrough(a: seq<Row>, b: seq<Row>, c: seq<Row>)
    requires LooksRows(a, b) && LooksRows(b, c)
    ensures LooksRows(a, c)
  {
    forall i | 0 <= i < |a| ensures CellsAlike(a[i].cells, c[i].cells) {
      assert CellsAlike(a[i].cells, b[i].cells) && CellsAlike(b[i].cells, c[i].cells);
      forall k | 0 <= k < |a[i].cells| ensures Alike(a[i].cells[k], c[i].cells[k]) {
        assert Alike(a[i].cells[k], b[i].cells[k]) && Alike(b[i].cells[k], c[i].cells[k]);
      }
    }
  }
}
