/** A redraw as it is written: bytes added one after another, the terminal's pen kept in mind. */
module Painting {
  import opened Bytes
  import opened Terminal
  import opened Redraw
  import opened RedrawLines
  import opened RedrawWhole

  class Painter {
    var out: seq<Op>
    /** The pen the terminal has. */
    var pen: Attributes

    constructor ()
      ensures out == [] && pen == PLAIN
    {
      out, pen := [], PLAIN;
    }

    method Write(ops: seq<Op>)
      modifies this`out
      ensures out == old(out) + ops
    {
      out := out + ops;
    }

    method Attribute(attributes: Attributes)
      modifies this
      ensures out == old(out) + PenTo(old(pen), attributes) && pen == attributes
    {
      if attributes != pen {
        out := out + [Op.Pen(attributes)];
        pen := attributes;
      }
    }

    /** Paint `row`, `width` columns, from where the cursor is. Whether it ended with the cursor waiting to
        wrap at the last column. */
    method PaintRow(row: Row, width: nat, at: Option<nat>) returns (filled: bool)
      modifies this
      ensures var p := RowPart(row.cells, Last(row), at, old(pen));
              out == old(out) + p.ops && pen == p.pen && filled == Filled(row, width)
    {
      var last := Last(row);
      var moved := false;
      var col: nat := 0;
      ghost var from, first := out, pen;
      var n: nat := 0;
      while n < last
        invariant n <= last && col == ColumnAfter(row.cells, n)
        invariant var p := RowPart(row.cells, n, at, first); out == from + p.ops && pen == p.pen && moved == p.moved
      {
        var cell := row.cells[n];
        if !cell.covered {
          ghost var p := RowPart(row.cells, n, at, first);
          if moved && at.Some? { Write([Cup(at.value, n)]); }
          Attribute(cell.attributes);
          Write([Print(GlyphOf(cell))]);
          assert out == from + (p.ops + CupTo(p.moved, at, n) + PenTo(p.pen, cell.attributes) + [Print(GlyphOf(cell))]);
          moved := cell.glyph.Some? && !cell.glyph.value.certain;
          col := n + if Wide(cell) then 2 else 1;
        }
        n := n + 1;
      }
      return col >= width;
    }

    /** The primary screen and the history kept above it, as lines that scroll. */
    method PaintLines(lines: seq<Row>, rows: nat, cols: nat)
      modifies this
      ensures var p := LinesPart(lines, |lines|, rows, cols, old(pen)); out == old(out) + p.ops && pen == p.pen
    {
      hide RowPart, Filled, PenTo, Last;
      ghost var from, first := out, pen;
      var n: nat := 0;
      while n < |lines|
        invariant n <= |lines|
        invariant var p := LinesPart(lines, n, rows, cols, first); out == from + p.ops && pen == p.pen
      {
        ghost var p := LinesPart(lines, n, rows, cols, first);
        ghost var part := RowPart(lines[n].cells, Last(lines[n]), PlaceAt(n, |lines|, rows), p.pen);
        var filled := PaintRow(lines[n], cols, PlaceAt(n, |lines|, rows));
        assert out == from + (p.ops + part.ops);
        if n + 1 < |lines| && !(lines[n].wrapped && filled) {
          Attribute(PLAIN);
          Write([CrLf]);
          assert out == from + (p.ops + part.ops + PenTo(part.pen, PLAIN) + [CrLf]);
        }
        n := n + 1;
      }
    }

    /** The alternate screen's rows, each at its place but one that the row before wraps to. */
    method PaintAlternate(rows: seq<Row>, cols: nat)
      modifies this
      ensures var p := AltPart(rows, |rows|, cols, old(pen)); out == old(out) + p.ops && pen == p.pen
    {
      hide RowPart, Filled, PenTo, Last;
      ghost var from, first := out, pen;
      var wraps := false;
      var n: nat := 0;
      while n < |rows|
        invariant n <= |rows| && wraps == (n > 0 && rows[n - 1].wrapped && Filled(rows[n - 1], cols))
        invariant var p := AltPart(rows, n, cols, first); out == from + p.ops && pen == p.pen
      {
        ghost var p := AltPart(rows, n, cols, first);
        if !wraps { Write([Cup(n, 0)]); }
        var filled := PaintRow(rows[n], cols, Some(n));
        assert out == from + (p.ops + AltCup(rows, n, cols) + RowPart(rows[n].cells, Last(rows[n]), Some(n), p.pen).ops);
        wraps := filled && rows[n].wrapped;
        n := n + 1;
      }
    }

    /** Both screens, from a cleared terminal. */
    method PaintScreens(s: Screen, history: nat)
      requires Formed(s) && out == [] && pen == PLAIN
      modifies this
      ensures out == ScreenPart(s, history).ops && pen == ScreenPart(s, history).pen
    {
      hide LinesPart, AltPart, GoodRows, Lines;
      var lines := Lines(s, history);
      ghost var main := LinesPart(lines, |lines|, s.rows, s.cols, PLAIN);
      Write(CLEARED);
      PaintLines(lines, s.rows, s.cols);
      assert out == CLEARED + main.ops;
      if s.alternate.None? {
        if s.running.Some? { Write([Cup(s.running.value.0, s.running.value.1)]); }
      } else {
        Attribute(PLAIN);
        Write([Cup(s.saved.0, s.saved.1), EnterAlternate, Cup(0, 0), EraseAll]);
        PaintAlternate(s.alternate.value, s.cols);
        assert CLEARED + main.ops + RunningOps(s) == CLEARED + main.ops;
      }
    }
  }

  /** What `s` shows, written for a terminal of its size. */
  method RedrawScreen(s: Screen, history: nat) returns (ops: seq<Op>)
    requires Formed(s)
    ensures ops == Redrawn(s, history)
    ensures BringsBack(s, history, ops)
  {
    hide ScreenPart, ModeOps, GoodRows, Shown, BringsBack;
    var p := new Painter();
    p.PaintScreens(s, history);
    ghost var screens, pen := p.out, p.pen;
    p.Write(ModeOps(s));
    p.Write([Cup(s.row - (if s.modes.origin then s.top else 0), s.col)]);
    var last := Waiting(s);
    if last.Some? {
      p.Attribute(last.value.attributes);
      p.Write([Print(last.value.glyph.value)]);
    }
    p.Attribute(s.pen);
    assert p.out == screens + ModeOps(s) + CursorOps(s, pen);
    if s.modes.hidden { p.Write([HideCursor]); }
    ops := p.out;
    assert ops == Redrawn(s, history);
    ItBringsBack(s, history);
  }

  /** On every terminal of its size, `ops` bring back the screen if and only if it is one that can. */
  ghost predicate BringsBack(s: Screen, history: nat, ops: seq<Op>)
    requires Formed(s)
  {
    forall start :: Good(start) && start.rows == s.rows && start.cols == s.cols ==>
      (Rebuilt(s, history, start, Ran(start, ops)) <==> Restorable(s, history))
  }

  lemma ItBringsBack(s: Screen, history: nat)
    requires Formed(s)
    ensures BringsBack(s, history, Redrawn(s, history))
  {
    hide Rebuilt, Restorable, Good, Ran, Redrawn, Formed;
    forall start | Good(start) && start.rows == s.rows && start.cols == s.cols
      ensures Rebuilt(s, history, start, Ran(start, Redrawn(s, history))) <==> Restorable(s, history)
    {
      RebuildsExactly(s, history, start);
    }
  }

  /** With no history asked for, no row strays. */
  lemma NoHistoryStays(s: Screen)
    requires Formed(s)
    ensures Steady(Lines(s, 0), s.rows)
  {
  }
}
