/** The user's terminal as the client writes to it: the program's output, and over it an overlay, painted and
    taken back without a trace. */
module Displays {
  import opened Bytes
  import opened Terminal
  import opened Looks
  import opened Damage

  /** A cell of the overlay; `covered` if the glyph on its left covers it. */
  datatype OverlayCell = OverlayCell(row: nat, col: nat, covered: bool, glyph: Glyph, attributes: Attributes)

  /** What the predictor would show, and where it puts the cursor. */
  datatype Overlay = Overlay(cells: seq<OverlayCell>, cursor: Option<(nat, nat)>)

  /** The overlay as painted: the cells it covers, the status line's row if it was painted, and the bytes that
      painted it. */
  datatype Painted = Painted(cells: seq<(nat, nat)>, status: Option<nat>, ops: seq<Op>)

  const REVERSED: Attributes := 1

  // ---- the screen a cell at a time ---------------------------------------------------------------------------

  function RowAt(t: Term, row: nat): seq<Cell>
    requires Good(t) && row < t.rows
  {
    t.grid.lines[|t.grid.lines| - t.rows + row].cells
  }

  function ColsIn(spots: set<(nat, nat)>, row: nat): set<nat> {
    set s | s in spots && s.0 == row :: s.1
  }

  /** Like the mirror but for the cells on the screen, where the cursor is, the pen and whether a frame is held
      back. */
  predicate Framed(t: Term, m: Term) {
    && Good(t) && Good(m) && t.rows == m.rows && t.cols == m.cols && |t.grid.lines| == |m.grid.lines|
    && LooksMain(t.main, m.main) && t.top == m.top && t.bottom == m.bottom
    && t.modes.(synchronized := m.modes.synchronized) == m.modes && t.shape == m.shape && t.title == m.title
    && (forall i :: 0 <= i < |t.grid.lines| - t.rows ==> CellsAlike(t.grid.lines[i].cells, m.grid.lines[i].cells))
  }

  /** The cells that are not the mirror's are all of what was painted at `spots`. */
  predicate Covered(t: Term, m: Term, spots: set<(nat, nat)>) {
    && Framed(t, m)
    && forall row: nat :: row < t.rows ==> Harmed(RowAt(t, row), RowAt(m, row), ColsIn(spots, row))
  }

  /** Where the overlay can be painted. */
  predicate Paintable(m: Term) {
    m.main.None? && !m.modes.origin && !m.modes.synchronized && !m.grid.pending
  }

  lemma RowGood(t: Term, row: nat)
    requires Good(t) && row < t.rows
    ensures GoodRow(Row(RowAt(t, row), false), t.cols)
  {
    var line := t.grid.lines[|t.grid.lines| - t.rows + row];
    assert GoodRow(line, t.cols);
    forall i | 0 <= i < t.cols ensures GoodAt(RowAt(t, row), i) { assert GoodAt(line.cells, i); }
  }

  lemma NoSpots(row: nat)
    ensures ColsIn({}, row) == {}
  {
  }

  lemma SpotsMore(spots: set<(nat, nat)>, row: nat, glyph: Glyph, col: nat, other: nat)
    ensures ColsIn(spots + SpotsOf(row, glyph, col), other) ==
            if other == row then ColsIn(spots, row) + Taken(glyph, col) else ColsIn(spots, other)
  {
    var more := spots + SpotsOf(row, glyph, col);
    forall c ensures c in ColsIn(more, other) <==> c in ColsIn(spots, other) || (other == row && c in Taken(glyph, col)) {
      assert (other, c) in more <==> c in ColsIn(more, other);
      assert (other, c) in spots <==> c in ColsIn(spots, other);
    }
  }

  /** The cells a glyph takes. */
  function SpotsOf(row: nat, glyph: Glyph, col: nat): set<(nat, nat)> {
    if glyph.wide then {(row, col), (row, col + 1)} else {(row, col)}
  }

  lemma SpotsLess(spots: set<(nat, nat)>, row: nat, col: nat, other: nat)
    ensures ColsIn(spots - {(row, col)}, other) == if other == row then ColsIn(spots, row) - {col} else ColsIn(spots, other)
  {
    var less := spots - {(row, col)};
    forall c ensures c in ColsIn(less, other) <==> c in ColsIn(spots, other) && !(other == row && c == col) {
      assert (other, c) in less <==> c in ColsIn(less, other);
      assert (other, c) in spots <==> c in ColsIn(spots, other);
    }
  }

  /** Nothing painted, nothing harmed. */
  lemma NoneCovered(t: Term, m: Term)
    requires Good(t) && Good(m) && SameLook(t, m)
    ensures Covered(t, m, {})
  {
    forall row: nat | row < t.rows ensures Harmed(RowAt(t, row), RowAt(m, row), ColsIn({}, row)) {
      NoSpots(row);
      RowGood(m, row);
      NotYet(RowAt(m, row), m.cols);
      AlikeHarmed(RowAt(t, row), RowAt(m, row), RowAt(m, row), {});
    }
  }

  /** Nothing left to mend: the terminal is the mirror again, once the cursor and the pen are. */
  lemma AllMended(t: Term, m: Term)
    requires Covered(t, m, {})
    requires t.grid.row == m.grid.row && t.grid.col == m.grid.col && t.grid.pending == m.grid.pending
    requires t.pen == m.pen && t.modes == m.modes
    ensures SameLook(t, m)
  {
    forall i | 0 <= i < |t.grid.lines| ensures CellsAlike(t.grid.lines[i].cells, m.grid.lines[i].cells) {
      if i >= |t.grid.lines| - t.rows {
        var row := i - (|t.grid.lines| - t.rows);
        NoSpots(row);
        Unharmed(RowAt(t, row), RowAt(m, row));
      }
    }
  }

  // ---- a glyph printed over it -------------------------------------------------------------------------------

  /** What is written to print `glyph` at a place, the pen set unless it is known to be. */
  function PutOps(row: nat, col: nat, pen: Option<Attributes>, attributes: Attributes, glyph: Glyph): seq<Op> {
    [Cup(row, col)] + (if pen == Some(attributes) then [] else [Op.Pen(attributes)]) + [Print(glyph)]
  }

  function PutThere(t: Term, row: nat, col: nat, attributes: Attributes, glyph: Glyph): Term
    requires Good(t) && row < t.rows && col < t.cols && (glyph.wide ==> col + 1 < t.cols)
  {
    var at := t.(grid := t.grid.(row := row, col := col, pending := false), pen := attributes);
    Printed(at, glyph)
  }

  lemma PutRuns(t: Term, row: nat, col: nat, pen: Option<Attributes>, attributes: Attributes, glyph: Glyph)
    requires Good(t) && !t.modes.origin && row < t.rows && col < t.cols && (glyph.wide ==> col + 1 < t.cols)
    requires pen.Some? ==> pen.value == t.pen
    ensures Ran(t, PutOps(row, col, pen, attributes, glyph)) == PutThere(t, row, col, attributes, glyph)
  {
    hide GoodGrid, Printed;
    var cup := [Cup(row, col)];
    assert cup == [] + cup;
    RanOne(t, [], Cup(row, col));
    var penned := if pen == Some(attributes) then [] else [Op.Pen(attributes)];
    RanMore(t, cup, penned);
    if pen != Some(attributes) {
      assert penned == [] + penned;
      RanOne(Ran(t, cup), [], Op.Pen(attributes));
    }
    RanOne(t, cup + penned, Print(glyph));
  }

  lemma PutThereIs(t: Term, row: nat, col: nat, attributes: Attributes, glyph: Glyph)
    requires Good(t) && row < t.rows && col < t.cols && (glyph.wide ==> col + 1 < t.cols)
    ensures var r := PutThere(t, row, col, attributes, glyph);
            var i := |t.grid.lines| - t.rows + row;
            && Good(r) && r.pen == attributes
            && (glyph.wide ==> col + 1 < |t.grid.lines[i].cells|) && col < |t.grid.lines[i].cells|
            && r.grid.lines == t.grid.lines[i := t.grid.lines[i].(cells := Put(t.grid.lines[i].cells, col, glyph, attributes))]
            && r == t.(grid := r.grid, pen := attributes)
  {
    hide Put, GoodAt;
    var at := t.(grid := t.grid.(row := row, col := col, pending := false), pen := attributes);
    assert Placed(at, glyph) == at;
    PrintedGood(at, glyph);
  }

  /** One row changed, the rest as it was. */
  lemma RowChanged(t: Term, m: Term, r: Term, row: nat, before: set<(nat, nat)>, after: set<(nat, nat)>)
    requires Covered(t, m, before) && Good(r) && row < t.rows
    requires r == t.(grid := r.grid, pen := r.pen) && |r.grid.lines| == |t.grid.lines|
    requires forall i :: 0 <= i < |t.grid.lines| && i != |t.grid.lines| - t.rows + row ==> r.grid.lines[i] == t.grid.lines[i]
    requires Harmed(RowAt(r, row), RowAt(m, row), ColsIn(after, row))
    requires forall other: nat :: other != row ==> ColsIn(after, other) == ColsIn(before, other)
    ensures Covered(r, m, after)
  {
    hide GoodRows, Harmed, ColsIn, CellsAlike, LooksMain;
    forall other: nat | other < r.rows ensures Harmed(RowAt(r, other), RowAt(m, other), ColsIn(after, other)) {
      if other != row { assert RowAt(r, other) == RowAt(t, other); }
    }
  }

  /** A glyph of the overlay painted covers its cells. */
  lemma PaintCovers(t: Term, m: Term, spots: set<(nat, nat)>, row: nat, col: nat, attributes: Attributes, glyph: Glyph)
    requires Covered(t, m, spots) && row < t.rows && col < t.cols && (glyph.wide ==> col + 1 < t.cols)
    ensures Covered(PutThere(t, row, col, attributes, glyph), m, spots + SpotsOf(row, glyph, col))
  {
    hide GoodAt, Harmed, ColsIn, Put, PutThere;
    PutThereIs(t, row, col, attributes, glyph);
    RowGood(t, row);
    RowGood(m, row);
    PaintHarms(RowAt(t, row), RowAt(m, row), t.cols, ColsIn(spots, row), col, glyph, attributes);
    forall other: nat ensures ColsIn(spots + SpotsOf(row, glyph, col), other) ==
        if other == row then ColsIn(spots, row) + Taken(glyph, col) else ColsIn(spots, other)
    {
      SpotsMore(spots, row, glyph, col, other);
    }
    RowChanged(t, m, PutThere(t, row, col, attributes, glyph), row, spots, spots + SpotsOf(row, glyph, col));
  }

  /** What the mirror has at a covered cell painted again mends it. */
  lemma RepairUncovers(t: Term, m: Term, spots: set<(nat, nat)>, row: nat, col: nat)
    requires Covered(t, m, spots) && row < t.rows && col < t.cols
    ensures var u := Begins(RowAt(m, row), col);
            var cell := RowAt(m, row)[u];
            && (GlyphOf(cell).wide ==> u + 1 < t.cols)
            && Covered(PutThere(t, row, u, cell.attributes, GlyphOf(cell)), m, spots - {(row, col)})
  {
    hide GoodAt, Harmed, ColsIn, Put, PutThere;
    var u := Begins(RowAt(m, row), col);
    var cell := RowAt(m, row)[u];
    RowGood(t, row);
    RowGood(m, row);
    RepairMends(RowAt(t, row), RowAt(m, row), t.cols, ColsIn(spots, row), col);
    PutThereIs(t, row, u, cell.attributes, GlyphOf(cell));
    forall other: nat ensures ColsIn(spots - {(row, col)}, other) ==
        if other == row then ColsIn(spots, row) - {col} else ColsIn(spots, other)
    {
      SpotsLess(spots, row, col, other);
    }
    RowChanged(t, m, PutThere(t, row, u, cell.attributes, GlyphOf(cell)), row, spots, spots - {(row, col)});
  }

  /** A row wholly covered may be anything. */
  lemma WholeRowCovered(now: seq<Cell>, was: seq<Cell>, n: nat, cols: set<nat>)
    requires GoodRow(Row(now, false), n) && |was| == n && forall c: nat :: c < n ==> c in cols
    ensures Harmed(now, was, cols)
  {
    forall x | 0 <= x < n ensures HarmedAt(now, was, cols, x) { assert GoodAt(now, x); }
  }

  // ---- the status line ---------------------------------------------------------------------------------------

  function Width(glyph: Glyph): nat {
    if glyph.wide then 2 else 1
  }

  function WidthOf(line: seq<Glyph>): nat {
    if line == [] then 0 else WidthOf(line[..|line| - 1]) + Width(line[|line| - 1])
  }

  lemma {:induction false} WidthAtLeast(line: seq<Glyph>)
    ensures WidthOf(line) >= |line|
    decreases |line|
  {
    if line != [] {
      WidthAtLeast(line[..|line| - 1]);
    }
  }

  function Prints(line: seq<Glyph>): seq<Op> {
    if line == [] then [] else Prints(line[..|line| - 1]) + [Print(line[|line| - 1])]
  }

  /** The row of cells `spots` holds whole. */
  function RowSpots(row: nat, cols: nat): (spots: set<(nat, nat)>)
    ensures forall c: nat :: c < cols ==> (row, c) in spots
    ensures forall s :: s in spots ==> s.0 == row && s.1 < cols
  {
    set c: nat | c < cols :: (row, c)
  }

  lemma RowWhole(spots: set<(nat, nat)>, row: nat, cols: nat, other: nat)
    ensures forall c: nat :: c < cols ==> c in ColsIn(spots + RowSpots(row, cols), row)
    ensures other != row ==> ColsIn(spots + RowSpots(row, cols), other) == ColsIn(spots, other)
  {
    var more := spots + RowSpots(row, cols);
    forall c: nat | c < cols ensures c in ColsIn(more, row) { assert (row, c) in more; }
    if other != row {
      forall c ensures c in ColsIn(more, other) <==> c in ColsIn(spots, other) {
        assert (other, c) in more <==> c in ColsIn(more, other);
        assert (other, c) in spots <==> c in ColsIn(spots, other);
      }
    }
  }

  /** On row `row`, `col` columns in: where a line short enough leaves the cursor. */
  predicate AlongRow(t: Term, r: Term, row: nat, col: nat) {
    && Good(t) && Good(r) && row < t.rows && r == t.(grid := r.grid) && |r.grid.lines| == |t.grid.lines| && r.grid.row == row
    && (forall i :: 0 <= i < |t.grid.lines| && i != |t.grid.lines| - t.rows + row ==> r.grid.lines[i] == t.grid.lines[i])
    && (if col < t.cols then r.grid.col == col && !r.grid.pending else r.grid.col == t.cols - 1)
  }

  lemma {:induction false} LineRuns(t: Term, row: nat, line: seq<Glyph>)
    requires Good(t) && row < t.rows && t.grid.row == row && t.grid.col == 0 && !t.grid.pending && WidthOf(line) <= t.cols
    ensures AlongRow(t, Ran(t, Prints(line)), row, WidthOf(line))
    decreases |line|
  {
    hide GoodGrid, Printed;
    if line != [] {
      var front, last := line[..|line| - 1], line[|line| - 1];
      LineRuns(t, row, front);
      var before := Ran(t, Prints(front));
      RanOne(t, Prints(front), Print(last));
      assert Prints(line) == Prints(front) + [Print(last)];
      GlyphRuns(t, before, row, WidthOf(front), last);
    }
  }

  lemma GlyphRuns(t: Term, r: Term, row: nat, col: nat, glyph: Glyph)
    requires AlongRow(t, r, row, col) && col + Width(glyph) <= t.cols
    ensures AlongRow(t, Printed(r, glyph), row, col + Width(glyph))
  {
    hide Put, GoodAt;
    PrintedGood(r, glyph);
    assert Placed(r, glyph) == r;
  }

  /** What shows `line` on the last row, reversed, over all that is there. */
  function StatusOps(row: nat, line: seq<Glyph>): seq<Op> {
    [Cup(row, 0), Op.Pen(REVERSED), EraseLine] + Prints(line)
  }

  lemma StatusCovers(t: Term, m: Term, spots: set<(nat, nat)>, line: seq<Glyph>)
    requires Covered(t, m, spots) && !t.modes.origin && WidthOf(line) <= t.cols
    ensures Covered(Ran(t, StatusOps(t.rows - 1, line)), m, spots + RowSpots(t.rows - 1, t.cols))
    ensures Ran(t, StatusOps(t.rows - 1, line)).modes == t.modes
  {
    hide GoodAt, Harmed, ColsIn, Put, Printed, GoodGrid, LooksMain, GoodRow;
    var row := t.rows - 1;
    var ops := [Cup(row, 0), Op.Pen(REVERSED), EraseLine];
    assert [Cup(row, 0)] == [] + [Cup(row, 0)] && [Cup(row, 0), Op.Pen(REVERSED)] == [Cup(row, 0)] + [Op.Pen(REVERSED)];
    assert ops == [Cup(row, 0), Op.Pen(REVERSED)] + [EraseLine];
    RanOne(t, [], Cup(row, 0));
    RanOne(t, [Cup(row, 0)], Op.Pen(REVERSED));
    RanOne(t, [Cup(row, 0), Op.Pen(REVERSED)], EraseLine);
    var erased := Ran(t, ops);
    RanMore(t, ops, Prints(line));
    LineRuns(erased, row, line);
    var r := Ran(t, StatusOps(row, line));
    RowGood(r, row);
    forall other: nat ensures other != row ==> ColsIn(spots + RowSpots(row, t.cols), other) == ColsIn(spots, other) {
      RowWhole(spots, row, t.cols, other);
    }
    RowWhole(spots, row, t.cols, row);
    RowGood(m, row);
    WholeRowCovered(RowAt(r, row), RowAt(m, row), t.cols, ColsIn(spots + RowSpots(row, t.cols), row));
    RowChanged(t, m, r, row, spots, spots + RowSpots(row, t.cols));
  }

  // ---- what changes no cell ----------------------------------------------------------------------------------

  lemma MovedCovered(t: Term, m: Term, r: Term, spots: set<(nat, nat)>)
    requires Covered(t, m, spots) && Good(r) && r.grid.lines == t.grid.lines
    requires r == t.(grid := r.grid, pen := r.pen, modes := r.modes) && r.modes == t.modes.(synchronized := r.modes.synchronized)
    ensures Covered(r, m, spots)
  {
    hide GoodGrid, Harmed, ColsIn, CellsAlike, LooksMain;
    forall row: nat | row < r.rows ensures Harmed(RowAt(r, row), RowAt(m, row), ColsIn(spots, row)) {
      assert RowAt(r, row) == RowAt(t, row);
    }
  }

  lemma LooksCovered(t: Term, r: Term, m: Term, spots: set<(nat, nat)>)
    requires Covered(r, m, spots) && Good(t) && SameLook(t, r)
    ensures Covered(t, m, spots)
  {
    hide GoodRows, Harmed, ColsIn;
    if t.main.Some? { RowsThrough(t.main.value.lines, r.main.value.lines, m.main.value.lines); }
    forall i | 0 <= i < |t.grid.lines| - t.rows ensures CellsAlike(t.grid.lines[i].cells, m.grid.lines[i].cells) {
      CellsThrough(t.grid.lines[i].cells, r.grid.lines[i].cells, m.grid.lines[i].cells);
    }
    forall row: nat | row < t.rows ensures Harmed(RowAt(t, row), RowAt(m, row), ColsIn(spots, row)) {
      AlikeHarmed(RowAt(t, row), RowAt(r, row), RowAt(m, row), ColsIn(spots, row));
    }
  }

  lemma CellsThrough(a: seq<Cell>, b: seq<Cell>, c: seq<Cell>)
    requires CellsAlike(a, b) && CellsAlike(b, c)
    ensures CellsAlike(a, c)
  {
    forall i | 0 <= i < |a| ensures Alike(a[i], c[i]) { assert Alike(a[i], b[i]) && Alike(b[i], c[i]); }
  }

  // ---- the display -------------------------------------------------------------------------------------------

  /** The overlay's glyphs on the screen are ones there is room for: no wide one is in the last column. */
  predicate Fits(overlay: Overlay, cols: nat) {
    forall i :: 0 <= i < |overlay.cells| ==>
      !overlay.cells[i].covered && overlay.cells[i].glyph.wide ==> overlay.cells[i].col + 1 != cols
  }

  /** Every place the overlay painted covers. */
  function SpotsFrom(cells: seq<(nat, nat)>): (spots: set<(nat, nat)>)
    ensures forall s :: s in spots <==> s in cells
  {
    set s | s in cells
  }

  function AllSpots(p: Painted, cols: nat): set<(nat, nat)> {
    SpotsFrom(p.cells) + if p.status.Some? then RowSpots(p.status.value, cols) else {}
  }

  predicate OnScreen(spots: set<(nat, nat)>, m: Term) {
    forall s :: s in spots ==> s.0 < m.rows && s.1 < m.cols
  }

  /** The overlay cell is one that is painted. */
  predicate Paints(cell: OverlayCell, m: Term) {
    !cell.covered && cell.row < m.rows && cell.col < m.cols
  }

  /** No cell painted after cell `k`, before the `n`th, takes any of its places. */
  predicate LaterFree(cells: seq<OverlayCell>, k: nat, n: nat, m: Term)
    requires k < |cells| && n <= |cells|
  {
    forall j :: k < j < n && Paints(cells[j], m) ==> Apart(cells[k], cells[j])
  }

  predicate Apart(a: OverlayCell, b: OverlayCell) {
    SpotsOf(a.row, a.glyph, a.col) !! SpotsOf(b.row, b.glyph, b.col)
  }

  /** The terminal shows the cell's glyph in its style at its place. */
  predicate ShownAt(t: Term, cell: OverlayCell) {
    Good(t) && cell.row < t.rows && ShownIn(RowAt(t, cell.row), cell)
  }

  predicate ShownIn(cells: seq<Cell>, cell: OverlayCell) {
    cell.col < |cells| && cells[cell.col] == Cell(Some(cell.glyph), cell.attributes, false)
  }

  /** The terminal shows the first `n` of the overlay's cells, but those painted over. */
  predicate ShowsTo(t: Term, cells: seq<OverlayCell>, n: nat, m: Term)
    requires n <= |cells|
  {
    forall k: nat :: k < n && Paints(cells[k], m) && LaterFree(cells, k, n, m) ==> ShownAt(t, cells[k])
  }

  /** The terminal shows the overlay: each of its cells but those painted over, by another or by the status line on
      the last row, and the cursor where the overlay has it, or where the program's is. */
  predicate ShowsOverlay(t: Term, overlay: Overlay, status: bool, m: Term) {
    && (forall k: nat ::
          (k < |overlay.cells| && Paints(overlay.cells[k], m) && LaterFree(overlay.cells, k, |overlay.cells|, m)
           && !(status && overlay.cells[k].row + 1 == m.rows)) ==> ShownAt(t, overlay.cells[k]))
    && (var place := if overlay.cursor.Some? then overlay.cursor.value else (m.grid.row, m.grid.col);
        && t.grid.row == (if place.0 < m.rows then place.0 else m.rows - 1)
        && t.grid.col == (if place.1 < m.cols then place.1 else m.cols - 1))
  }

  /** A glyph printed shows, and what it does not touch still does. */
  lemma PutShows(t: Term, row: nat, col: nat, attributes: Attributes, glyph: Glyph, other: OverlayCell)
    requires Good(t) && row < t.rows && col < t.cols && (glyph.wide ==> col + 1 < t.cols)
    ensures var cell := OverlayCell(row, col, false, glyph, attributes);
            var r := PutThere(t, row, col, attributes, glyph);
            && Good(r) && ShownAt(r, cell)
            && (ShownAt(t, other) && Apart(other, cell) ==> ShownAt(r, other))
  {
    hide PutThere, Put, GoodAt;
    PutThereIs(t, row, col, attributes, glyph);
    RowGood(t, row);
    PutAt(RowAt(t, row), t.cols, col, glyph, attributes, col);
    if ShownAt(t, other) && other.row == row {
      PutAt(RowAt(t, row), t.cols, col, glyph, attributes, other.col);
      assert (row, other.col) in SpotsOf(other.row, other.glyph, other.col);
      assert other.glyph.wide ==> (row, other.col + 1) in SpotsOf(other.row, other.glyph, other.col);
    }
  }

  lemma NoneShown(t: Term, cells: seq<OverlayCell>, m: Term)
    ensures ShowsTo(t, cells, 0, m)
  {
  }

  lemma PutShowsTo(t: Term, m: Term, cells: seq<OverlayCell>, n: nat)
    requires Good(t) && Good(m) && t.rows == m.rows && t.cols == m.cols && n < |cells| && ShowsTo(t, cells, n, m)
    requires Paints(cells[n], m) && (cells[n].glyph.wide ==> cells[n].col + 1 < t.cols)
    ensures ShowsTo(PutThere(t, cells[n].row, cells[n].col, cells[n].attributes, cells[n].glyph), cells, n + 1, m)
  {
    hide PutThere, ShownAt, Apart;
    var now := cells[n];
    var r := PutThere(t, now.row, now.col, now.attributes, now.glyph);
    forall k: nat | k < n + 1 && Paints(cells[k], m) && LaterFree(cells, k, n + 1, m)
      ensures ShownAt(r, cells[k])
    {
      PutShows(t, now.row, now.col, now.attributes, now.glyph, cells[k]);
      if k < n {
        assert LaterFree(cells, k, n, m);
        assert Apart(cells[k], cells[n]);
        SameApart(cells[k], cells[n]);
      } else {
        assert cells[n] == OverlayCell(now.row, now.col, false, now.glyph, now.attributes);
      }
    }
  }

  lemma SameApart(a: OverlayCell, b: OverlayCell)
    ensures Apart(a, b) <==> Apart(a, OverlayCell(b.row, b.col, false, b.glyph, b.attributes))
  {
  }

  lemma SkipShowsTo(t: Term, m: Term, cells: seq<OverlayCell>, n: nat)
    requires n < |cells| && ShowsTo(t, cells, n, m) && !Paints(cells[n], m)
    ensures ShowsTo(t, cells, n + 1, m)
  {
    forall k: nat | k < n + 1 && Paints(cells[k], m) && LaterFree(cells, k, n + 1, m)
      ensures ShownAt(t, cells[k])
    {
      assert LaterFree(cells, k, n, m);
    }
  }

  /** The status line changes its own row only. */
  lemma StatusShows(m: Term, out: seq<Op>, line: seq<Glyph>, cell: OverlayCell)
    requires Good(m) && !Ran(m, out).modes.origin && WidthOf(line) <= m.cols
    requires ShownAt(Ran(m, out), cell) && cell.row + 1 != m.rows
    ensures ShownAt(Ran(m, out + StatusOps(m.rows - 1, line)), cell)
  {
    hide GoodRows, Ran, StatusOps;
    RanMore(m, out, StatusOps(m.rows - 1, line));
    StatusRow(Ran(m, out), line);
    var t, r := Ran(m, out), Ran(m, out + StatusOps(m.rows - 1, line));
    assert RowAt(r, cell.row) == RowAt(t, cell.row);
  }

  lemma StatusRow(t: Term, line: seq<Glyph>)
    requires Good(t) && !t.modes.origin && WidthOf(line) <= t.cols
    ensures var r := Ran(t, StatusOps(t.rows - 1, line));
            && |r.grid.lines| == |t.grid.lines|
            && forall i :: 0 <= i < |t.grid.lines| - 1 ==> r.grid.lines[i] == t.grid.lines[i]
  {
    hide GoodAt, Put, Printed, GoodGrid, GoodRow;
    var row := t.rows - 1;
    var cup, pen := Cup(row, 0), Op.Pen(REVERSED);
    assert [cup] == [] + [cup] && [cup, pen] == [cup] + [pen] && [cup, pen, EraseLine] == [cup, pen] + [EraseLine];
    RanOne(t, [], cup);
    RanOne(t, [cup], pen);
    RanOne(t, [cup, pen], EraseLine);
    RanMore(t, [cup, pen, EraseLine], Prints(line));
    LineRuns(Ran(t, [cup, pen, EraseLine]), row, line);
  }

  predicate GlyphAt(cells: seq<Cell>, line: seq<Glyph>, k: nat)
    requires k < |line|
  {
    WidthOf(line[..k]) < |cells| && cells[WidthOf(line[..k])] == Cell(Some(line[k]), REVERSED, false)
  }

  /** The row shows `line` from its start, reversed, and nothing else. */
  predicate LineIn(cells: seq<Cell>, line: seq<Glyph>) {
    && (forall k: nat :: k < |line| ==> GlyphAt(cells, line, k))
    && forall c: nat :: WidthOf(line) <= c < |cells| ==> cells[c] == BLANK
  }

  lemma {:induction false} WidthTo(line: seq<Glyph>, k: nat)
    requires k < |line|
    ensures WidthOf(line[..k]) + Width(line[k]) <= WidthOf(line)
    decreases |line|
  {
    var front := line[..|line| - 1];
    if k < |front| {
      assert front[..k] == line[..k];
      WidthTo(front, k);
    }
  }

  /** One glyph more of the line printed. */
  lemma GlyphShows(t: Term, r: Term, row: nat, front: seq<Glyph>, last: Glyph)
    requires AlongRow(t, r, row, WidthOf(front)) && WidthOf(front) + Width(last) <= t.cols && t.pen == REVERSED
    requires LineIn(RowAt(r, row), front)
    ensures Good(Printed(r, last)) && Printed(r, last).rows == r.rows && LineIn(RowAt(Printed(r, last), row), front + [last])
  {
    hide Put, GoodAt;
    PrintedGood(r, last);
    assert Placed(r, last) == r;
    RowGood(r, row);
    var was, now, col, line := RowAt(r, row), RowAt(Printed(r, last), row), WidthOf(front), front + [last];
    assert now == Put(was, col, last, REVERSED);
    assert line[..|line| - 1] == front;
    forall k: nat | k < |line|
      ensures GlyphAt(now, line, k)
    {
      assert line[..k] == front[..k];
      if k < |front| {
        WidthTo(front, k);
        assert GlyphAt(was, front, k);
        PutAt(was, t.cols, col, last, REVERSED, WidthOf(front[..k]));
      } else {
        assert front[..k] == front;
        PutAt(was, t.cols, col, last, REVERSED, col);
      }
    }
    forall c: nat | WidthOf(line) <= c < |now|
      ensures now[c] == BLANK
    {
      assert was[c] == BLANK;
      PutAt(was, t.cols, col, last, REVERSED, c);
    }
  }

  lemma {:induction false} LineShows(t: Term, row: nat, line: seq<Glyph>)
    requires Good(t) && row < t.rows && t.grid.row == row && t.grid.col == 0 && !t.grid.pending && WidthOf(line) <= t.cols
    requires t.pen == REVERSED && RowAt(t, row) == Blanks(t.cols)
    ensures LineIn(RowAt(Ran(t, Prints(line)), row), line)
    decreases |line|
  {
    hide GoodGrid, Printed, LineIn;
    if line == [] {
      NoLine(t.cols);
    } else {
      var front, last := line[..|line| - 1], line[|line| - 1];
      LineShows(t, row, front);
      LineRuns(t, row, front);
      RanOne(t, Prints(front), Print(last));
      assert Prints(line) == Prints(front) + [Print(last)];
      assert line == front + [last];
      GlyphShows(t, Ran(t, Prints(front)), row, front, last);
    }
  }

  lemma NoLine(cols: nat)
    ensures LineIn(Blanks(cols), [])
  {
  }

  /** The status line as it is cut: as much of it as there are columns for. */
  predicate Clipped(status: seq<Glyph>, line: seq<Glyph>, cols: nat) {
    line <= status && WidthOf(line) <= cols && (line != status ==> WidthOf(status[..|line| + 1]) > cols)
  }

  ghost predicate ShowsStatus(t: Term, status: seq<Glyph>) {
    Good(t) && exists line :: Clipped(status, line, t.cols) && LineIn(RowAt(t, t.rows - 1), line)
  }

  /** The last row erased, the cursor at its start, the pen reversed. */
  lemma Erased(t: Term)
    requires Good(t) && !t.modes.origin
    ensures var r := Ran(t, [Cup(t.rows - 1, 0), Op.Pen(REVERSED), EraseLine]);
            && r.grid.row == t.rows - 1 && r.grid.col == 0 && !r.grid.pending && r.pen == REVERSED
            && RowAt(r, t.rows - 1) == Blanks(t.cols)
  {
    hide GoodRows, Printed, Down, Ran, Put, Blanks;
    NoneRan(t);
    var cup, pen := Cup(t.rows - 1, 0), Op.Pen(REVERSED);
    assert [cup] == [] + [cup] && [cup, pen] == [cup] + [pen] && [cup, pen, EraseLine] == [cup, pen] + [EraseLine];
    RanOne(t, [], cup);
    RanOne(t, [cup], pen);
    RanOne(t, [cup, pen], EraseLine);
  }

  /** The status line painted shows, on the last row. */
  lemma StatusIn(t: Term, line: seq<Glyph>)
    requires Good(t) && !t.modes.origin && WidthOf(line) <= t.cols
    ensures LineIn(RowAt(Ran(t, StatusOps(t.rows - 1, line)), t.rows - 1), line)
  {
    hide Good, Ran, Printed, LineIn, Prints, Blanks;
    LastIsRow(t);
    var erase := [Cup(t.rows - 1, 0), Op.Pen(REVERSED), EraseLine];
    Erased(t);
    RanMore(t, erase, Prints(line));
    LineShows(Ran(t, erase), t.rows - 1, line);
  }

  lemma LastIsRow(t: Term)
    requires Good(t)
    ensures t.rows >= 1
  {
  }

  /** The cursor put at its place, and the frame shown. */
  lemma EndShows(m: Term, out: seq<Op>, row: nat, col: nat)
    requires Good(m) && !Ran(m, out).modes.origin
    ensures var r := Ran(m, out + [Cup(row, col), Synchronize(false)]);
            && r.grid.lines == Ran(m, out).grid.lines
            && r.grid.row == (if row < m.rows then row else m.rows - 1) && r.grid.col == (if col < m.cols then col else m.cols - 1)
  {
    hide GoodGrid, Ran;
    assert out + [Cup(row, col), Synchronize(false)] == out + [Cup(row, col)] + [Synchronize(false)];
    RanOne(m, out, Cup(row, col));
    RanOne(m, out + [Cup(row, col)], Synchronize(false));
  }

  lemma SameLinesShow(t: Term, r: Term, cell: OverlayCell)
    requires Good(r) && t.rows == r.rows && t.grid.lines == r.grid.lines && ShownAt(t, cell)
    ensures ShownAt(r, cell)
  {
  }

  function StatusPart(m: Term, line: Option<seq<Glyph>>): seq<Op>
    requires Good(m)
  {
    if line.Some? then StatusOps(m.rows - 1, line.value) else []
  }

  /** The overlay's cells, the status line over them if there is one, and the cursor: the overlay shows. */
  lemma ShowsWhole(m: Term, out: seq<Op>, overlay: Overlay, line: Option<seq<Glyph>>, place: (nat, nat))
    requires Good(m) && !Ran(m, out).modes.origin && ShowsTo(Ran(m, out), overlay.cells, |overlay.cells|, m)
    requires line.Some? ==> WidthOf(line.value) <= m.cols && !Ran(m, out + StatusPart(m, line)).modes.origin
    requires place == if overlay.cursor.Some? then overlay.cursor.value else (m.grid.row, m.grid.col)
    ensures var r := Ran(m, out + StatusPart(m, line) + [Cup(place.0, place.1), Synchronize(false)]);
            ShowsOverlay(r, overlay, line.Some?, m) && (line.Some? ==> LineIn(RowAt(r, m.rows - 1), line.value))
  {
    hide GoodGrid, Ran, StatusOps, ShownAt, LaterFree, LineIn;
    var lined := out + StatusPart(m, line);
    assert line.None? ==> lined == out;
    EndShows(m, lined, place.0, place.1);
    var r := Ran(m, lined + [Cup(place.0, place.1), Synchronize(false)]);
    if line.Some? {
      RanMore(m, out, StatusOps(m.rows - 1, line.value));
      StatusIn(Ran(m, out), line.value);
      assert RowAt(r, m.rows - 1) == RowAt(Ran(m, lined), m.rows - 1);
    }
    forall k: nat | k < |overlay.cells| && Paints(overlay.cells[k], m) && LaterFree(overlay.cells, k, |overlay.cells|, m)
                    && !(line.Some? && overlay.cells[k].row + 1 == m.rows)
      ensures ShownAt(r, overlay.cells[k])
    {
      if line.Some? {
        StatusShows(m, out, line.value, overlay.cells[k]);
      }
      SameLinesShow(Ran(m, lined), r, overlay.cells[k]);
    }
  }

  class Display {
    var mirror: Term
    var painted: Option<Painted>
    var status: Option<seq<Glyph>>
    /** What the user's terminal shows: what all that was written to it left. */
    ghost var term: Term

    ghost predicate Valid()
      reads this
    {
      && Good(mirror) && Good(term)
      && match painted
         case None => SameLook(term, mirror)
         case Some(p) =>
           && Paintable(mirror) && OnScreen(AllSpots(p, mirror.cols), mirror)
           && SameLook(term, Ran(mirror, p.ops)) && Covered(term, mirror, AllSpots(p, mirror.cols))
    }

    /** A display of a terminal the mirror is the same as. */
    constructor (screen: Term)
      requires Good(screen)
      ensures Valid() && painted.None? && mirror == screen
    {
      mirror, painted, status, term := screen, None, None, screen;
      new;
      LookSelf(screen);
    }

    /** Bytes to the user's terminal. */
    method Write(ops: seq<Op>)
      requires Good(term)
      modifies this`term
      ensures Good(term) && term == Ran(old(term), ops)
    {
      term := Ran(term, ops);
    }

    /** Write the program's output, as the filter passes it. */
    method Output(ops: seq<Op>)
      requires Valid()
      modifies this
      ensures Valid() && mirror == Ran(old(mirror), ops) && status == old(status)
      ensures ops != [] ==> painted.None?
    {
      hide Ran, Good, SameLook, Covered;
      if ops == [] {
        NoneRan(mirror);
        return;
      }
      Unpaint();
      RanLooks(term, mirror, ops);
      Write(ops);
      mirror := Ran(mirror, ops);
    }

    /** A mark is written where the program's output left the cursor: it shows nothing. */
    method Mark()
      requires Valid()
      modifies this
      ensures Valid() && painted.None? && mirror == old(mirror) && status == old(status)
    {
      Unpaint();
    }

    method SetStatus(line: Option<seq<Glyph>>)
      requires Valid()
      modifies this`status
      ensures Valid() && status == line
    {
      status := line;
    }

    /** As much of `line` as there are columns for: with one glyph more it would not fit. */
    method Clip(line: seq<Glyph>, cols: nat) returns (clipped: seq<Glyph>)
      ensures Clipped(line, clipped, cols)
    {
      clipped := if |line| > cols then line[..cols] else line;
      if |line| > cols {
        WidthAtLeast(line[..cols + 1]);
      }
      while WidthOf(clipped) > cols
        invariant clipped <= line
        invariant clipped != line ==> WidthOf(line[..|clipped| + 1]) > cols
        decreases |clipped|
      {
        assert line[..|clipped|] == clipped;
        clipped := clipped[..|clipped| - 1];
      }
    }

    /** The overlay's glyphs, each at its place, and the cells they cover. */
    method PaintCells(overlay: Overlay, out: seq<Op>) returns (all: seq<Op>, cells: seq<(nat, nat)>)
      requires Good(mirror) && Paintable(mirror) && Fits(overlay, mirror.cols)
      requires Covered(Ran(mirror, out), mirror, {}) && Ran(mirror, out).modes.origin == false
      ensures OnScreen(SpotsFrom(cells), mirror)
      ensures Covered(Ran(mirror, all), mirror, SpotsFrom(cells)) && !Ran(mirror, all).modes.origin
      ensures ShowsTo(Ran(mirror, all), overlay.cells, |overlay.cells|, mirror)
    {
      hide Good, Covered, Ran, PutOps, PutThere, ShowsTo;
      NoneShown(Ran(mirror, out), overlay.cells, mirror);
      all, cells := out, [];
      var pen: Option<Attributes> := None;
      assert SpotsFrom(cells) == {};
      var i: nat := 0;
      while i < |overlay.cells|
        invariant i <= |overlay.cells| && OnScreen(SpotsFrom(cells), mirror)
        invariant Covered(Ran(mirror, all), mirror, SpotsFrom(cells)) && !Ran(mirror, all).modes.origin
        invariant pen.Some? ==> Ran(mirror, all).pen == pen.value
        invariant ShowsTo(Ran(mirror, all), overlay.cells, i, mirror)
      {
        var cell := overlay.cells[i];
        if cell.covered || cell.row >= mirror.rows || cell.col >= mirror.cols {
          SkipShowsTo(Ran(mirror, all), mirror, overlay.cells, i);
        } else {
          PutShowsTo(Ran(mirror, all), mirror, overlay.cells, i);
          PaintsOne(mirror, all, SpotsFrom(cells), cell, pen);
          all := all + PutOps(cell.row, cell.col, pen, cell.attributes, cell.glyph);
          pen := Some(cell.attributes);
          ghost var before := SpotsFrom(cells);
          cells := cells + [(cell.row, cell.col)];
          if cell.glyph.wide { cells := cells + [(cell.row, cell.col + 1)]; }
          assert SpotsFrom(cells) == before + SpotsOf(cell.row, cell.glyph, cell.col);
        }
        i := i + 1;
      }
    }

    /** Paint the overlay, if there is one to paint and it can be: the predictions, the status line, and the
        cursor where the predictions put it. An overlay painted as it is stays. */
    method Paint(overlay: Overlay)
      requires Valid() && Fits(overlay, mirror.cols)
      modifies this
      ensures Valid() && mirror == old(mirror) && status == old(status)
      ensures painted.Some? <==>
              (overlay.cells != [] || overlay.cursor.Some? || status.Some?) && Paintable(mirror)
      ensures painted.Some? ==>
                && ShowsOverlay(Ran(mirror, painted.value.ops), overlay, status.Some?, mirror)
                && (status.Some? ==> ShowsStatus(Ran(mirror, painted.value.ops), status.value))
    {
      hide Good, Covered, Ran, SameLook, RowSpots, ShowsTo, ShowsOverlay, StatusOps, LineIn;
      if (overlay.cells == [] && overlay.cursor.None? && status.None?) || !Paintable(mirror) {
        Unpaint();
        return;
      }
      var out := [Synchronize(true)];
      FrameOpens(mirror);
      var cells;
      out, cells := PaintCells(overlay, out);
      var statusRow: Option<nat> := None;
      ghost var spots := SpotsFrom(cells);
      ghost var shown := out;
      ghost var statusLine: Option<seq<Glyph>> := None;
      if status.Some? {
        var row := LastRow(mirror);
        var line := Clip(status.value, mirror.cols);
        StatusPaints(mirror, out, spots, line);
        out := out + StatusOps(row, line);
        statusRow := Some(row);
        statusLine := Some(line);
        spots := spots + RowSpots(row, mirror.cols);
      }
      var place := if overlay.cursor.Some? then overlay.cursor.value else (mirror.grid.row, mirror.grid.col);
      EndPaints(mirror, out, spots, place.0, place.1);
      assert shown + StatusPart(mirror, statusLine) == out;
      out := out + [Cup(place.0, place.1), Synchronize(false)];
      ShowsWhole(mirror, shown, overlay, statusLine, place);
      if statusLine.Some? {
        assert Clipped(status.value, statusLine.value, mirror.cols);
      }
      var p := Painted(cells, statusRow, out);
      assert AllSpots(p, mirror.cols) == spots;
      if painted.Some? && painted.value.ops == out { return; }
      Unpaint();
      RanLooks(term, mirror, out);
      Write(out);
      LooksCovered(term, Ran(mirror, out), mirror, spots);
      painted := Some(p);
    }

    /** Take the overlay back: what it covered painted again from the mirror, the cursor and the pen put
        back. */
    method Unpaint()
      requires Valid()
      modifies this`painted, this`term
      ensures Valid() && painted.None?
    {
      hide Good, Covered, Ran, SameLook, PutOps;
      if painted.None? { return; }
      var p := painted.value;
      painted := None;
      var rest := AllSpots(p, mirror.cols);
      var out := [Synchronize(true)];
      var pen: Option<Attributes> := None;
      FrameHeld(term, mirror, rest);
      while rest != {}
        invariant painted.None? && Good(term) && Good(mirror) && Paintable(mirror)
        invariant OnScreen(rest, mirror) && Covered(Ran(term, out), mirror, rest)
        invariant pen.Some? ==> Ran(term, out).pen == pen.value
        decreases |rest|
      {
        var spot :| spot in rest;
        var row := Cells(spot.0);
        // A wide glyph is painted from its first half.
        var u := Begins(row, spot.1);
        RepairsOne(term, mirror, out, rest, spot.0, spot.1, pen);
        out := out + PutOps(spot.0, u, pen, row[u].attributes, GlyphOf(row[u]));
        pen := Some(row[u].attributes);
        rest := rest - {spot};
      }
      EndMends(term, mirror, out);
      Write(out + [Cup(mirror.grid.row, mirror.grid.col), Op.Pen(mirror.pen), Synchronize(false)]);
    }

    /** A row of the mirror's screen. */
    function Cells(row: nat): (cells: seq<Cell>)
      requires Good(mirror) && row < mirror.rows
      reads this
      ensures cells == RowAt(mirror, row) && |cells| == mirror.cols
    {
      RowGood(mirror, row);
      RowAt(mirror, row)
    }
  }

  function LastRow(t: Term): nat
    requires Good(t)
  {
    t.rows - 1
  }

  lemma NoneRan(t: Term)
    requires Good(t)
    ensures Ran(t, []) == t
  {
  }

  lemma FrameOpens(m: Term)
    requires Good(m) && Paintable(m)
    ensures var r := Ran(m, [Synchronize(true)]);
            Covered(r, m, {}) && !r.modes.origin
  {
    hide GoodGrid;
    LookSelf(m);
    NoneCovered(m, m);
    FrameHeld(m, m, {});
  }

  lemma FrameHeld(t: Term, m: Term, spots: set<(nat, nat)>)
    requires Covered(t, m, spots)
    ensures Covered(Ran(t, [Synchronize(true)]), m, spots)
    ensures Ran(t, [Synchronize(true)]).modes.origin == t.modes.origin
  {
    hide GoodGrid, Harmed, ColsIn, LooksMain;
    assert [Synchronize(true)] == [] + [Synchronize(true)];
    RanOne(t, [], Synchronize(true));
    MovedCovered(t, m, Ran(t, [Synchronize(true)]), spots);
  }

  lemma PaintsOne(m: Term, out: seq<Op>, spots: set<(nat, nat)>, cell: OverlayCell, pen: Option<Attributes>)
    requires Good(m) && Covered(Ran(m, out), m, spots) && !Ran(m, out).modes.origin
    requires cell.row < m.rows && cell.col < m.cols && (cell.glyph.wide ==> cell.col + 1 < m.cols)
    requires pen.Some? ==> Ran(m, out).pen == pen.value
    ensures var r := Ran(m, out + PutOps(cell.row, cell.col, pen, cell.attributes, cell.glyph));
            && Covered(r, m, spots + SpotsOf(cell.row, cell.glyph, cell.col)) && !r.modes.origin && r.pen == cell.attributes
            && r == PutThere(Ran(m, out), cell.row, cell.col, cell.attributes, cell.glyph)
  {
    hide GoodGrid, Covered, Ran, PutOps, PutThere;
    var before := Ran(m, out);
    RanMore(m, out, PutOps(cell.row, cell.col, pen, cell.attributes, cell.glyph));
    PutRuns(before, cell.row, cell.col, pen, cell.attributes, cell.glyph);
    PutThereIs(before, cell.row, cell.col, cell.attributes, cell.glyph);
    PaintCovers(before, m, spots, cell.row, cell.col, cell.attributes, cell.glyph);
  }

  lemma StatusPaints(m: Term, out: seq<Op>, spots: set<(nat, nat)>, line: seq<Glyph>)
    requires Good(m) && Covered(Ran(m, out), m, spots) && !Ran(m, out).modes.origin && WidthOf(line) <= m.cols
    ensures var r := Ran(m, out + StatusOps(m.rows - 1, line));
            Covered(r, m, spots + RowSpots(m.rows - 1, m.cols)) && !r.modes.origin
  {
    hide GoodGrid, Covered, Ran, StatusOps;
    RanMore(m, out, StatusOps(m.rows - 1, line));
    StatusCovers(Ran(m, out), m, spots, line);
  }

  lemma EndPaints(m: Term, out: seq<Op>, spots: set<(nat, nat)>, row: nat, col: nat)
    requires Good(m) && Covered(Ran(m, out), m, spots) && !Ran(m, out).modes.origin
    ensures Covered(Ran(m, out + [Cup(row, col), Synchronize(false)]), m, spots)
  {
    hide GoodGrid, Harmed, ColsIn, LooksMain, Ran;
    var end := [Cup(row, col), Synchronize(false)];
    var before := Ran(m, out);
    assert out + end == out + [Cup(row, col)] + [Synchronize(false)];
    RanOne(m, out, Cup(row, col));
    RanOne(m, out + [Cup(row, col)], Synchronize(false));
    MovedCovered(before, m, Ran(m, out + end), spots);
  }

  lemma RepairsOne(t: Term, m: Term, out: seq<Op>, spots: set<(nat, nat)>, row: nat, col: nat, pen: Option<Attributes>)
    requires Good(t) && Covered(Ran(t, out), m, spots) && Paintable(m) && row < m.rows && col < m.cols
    requires pen.Some? ==> Ran(t, out).pen == pen.value
    ensures |RowAt(m, row)| == m.cols
    ensures var u := Begins(RowAt(m, row), col);
            var cell := RowAt(m, row)[u];
            var r := Ran(t, out + PutOps(row, u, pen, cell.attributes, GlyphOf(cell)));
            Covered(r, m, spots - {(row, col)}) && r.pen == cell.attributes
  {
    hide GoodGrid, Harmed, ColsIn, LooksMain, Ran, PutOps, PutThere;
    RowGood(m, row);
    var u := Begins(RowAt(m, row), col);
    var cell := RowAt(m, row)[u];
    var before := Ran(t, out);
    RepairUncovers(before, m, spots, row, col);
    RanMore(t, out, PutOps(row, u, pen, cell.attributes, GlyphOf(cell)));
    PutRuns(before, row, u, pen, cell.attributes, GlyphOf(cell));
    PutThereIs(before, row, u, cell.attributes, GlyphOf(cell));
  }

  lemma EndMends(t: Term, m: Term, out: seq<Op>)
    requires Good(t) && Covered(Ran(t, out), m, {}) && Paintable(m)
    ensures SameLook(Ran(t, out + [Cup(m.grid.row, m.grid.col), Op.Pen(m.pen), Synchronize(false)]), m)
  {
    hide GoodRows, Harmed, ColsIn, LooksMain, Ran;
    var cup, pen, end := Cup(m.grid.row, m.grid.col), Op.Pen(m.pen), Synchronize(false);
    assert out + [cup, pen, end] == out + [cup] + [pen] + [end];
    RanOne(t, out, cup);
    RanOne(t, out + [cup], pen);
    RanOne(t, out + [cup] + [pen], end);
    var before, r := Ran(t, out), Ran(t, out + [cup, pen, end]);
    MovedCovered(before, m, r, {});
    AllMended(r, m);
  }
}
