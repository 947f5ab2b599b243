/** The prediction engine as the client keeps it: fields changed in place by keys, acks and frames. Each method does
    to them what its function in `Predict` says. */
module Predictor {
  import opened Bytes
  import opened Predict

  /** The order cells are kept in: by row, then column. */
  predicate Before(a: Spot, b: Spot) {
    a.0 < b.0 || (a.0 == b.0 && a.1 < b.1)
  }

  /** A confirmed cell's style, to recolour what is typed right of it. */
  datatype Style = Style(row: nat, from: nat, attributes: nat)

  predicate Covers(style: Style, at: Spot) {
    style.row == at.0 && style.from <= at.1
  }

  function Coloured(cell: Guess, attributes: nat): Guess {
    if cell.typed && cell.guess.Some? then cell.(guess := Some(cell.guess.value.(attributes := attributes))) else cell
  }

  /** The cell with each style that covers it given in turn: the last wins. */
  function Styled(styles: seq<Style>, at: Spot, cell: Guess): Guess {
    if styles == [] then cell
    else
      var last := styles[|styles| - 1];
      var before := Styled(styles[..|styles| - 1], at, cell);
      if Covers(last, at) then Coloured(before, last.attributes) else before
  }

  predicate Ascending(styles: seq<Style>) {
    forall i, j :: 0 <= i < j < |styles| ==> Before((styles[i].row, styles[i].from), (styles[j].row, styles[j].from))
  }

  /** The styles are those the screen gives the cells of `confirmed`. */
  ghost predicate StylesOf(styles: seq<Style>, confirmed: set<Spot>, screen: Screen) {
    && Ascending(styles)
    && (forall i :: 0 <= i < |styles| ==> IsStyleOf(styles[i], confirmed, screen))
    && (forall at :: at in confirmed ==> exists i :: 0 <= i < |styles| && (styles[i].row, styles[i].from) == at)
  }

  predicate IsStyleOf(style: Style, confirmed: set<Spot>, screen: Screen) {
    var at: Spot := (style.row, style.from);
    at in confirmed && CellAt(screen, at).Some? && CellAt(screen, at).value.attributes == style.attributes
  }

  // ---- the last style that covers a cell is its nearest confirmed neighbour's --------------------------------------

  lemma {:induction false} NearestIs(confirmed: set<Spot>, row: nat, col: nat)
    ensures var near := NearestLeft(confirmed, row, col);
            && (near.Some? ==> near.value <= col && (row, near.value) in confirmed)
            && (forall c: nat :: c <= col && (row, c) in confirmed ==> near.Some? && c <= near.value)
    decreases col
  {
    if (row, col) !in confirmed && col > 0 {
      NearestIs(confirmed, row, col - 1);
    }
  }

  /** The style at `i` is the last to cover the cell. */
  ghost predicate LastOver(styles: seq<Style>, i: nat, at: Spot)
    requires i < |styles|
  {
    Covers(styles[i], at) && forall j :: i < j < |styles| ==> !Covers(styles[j], at)
  }

  lemma {:induction false} StyledByNone(styles: seq<Style>, at: Spot, cell: Guess)
    requires forall i :: 0 <= i < |styles| ==> !Covers(styles[i], at)
    ensures Styled(styles, at, cell) == cell
    decreases |styles|
  {
    if styles != [] {
      StyledByNone(styles[..|styles| - 1], at, cell);
    }
  }

  lemma {:induction false} StyledSame(styles: seq<Style>, at: Spot, cell: Guess, attributes: nat)
    ensures Coloured(Styled(styles, at, cell), attributes) == Coloured(cell, attributes)
    decreases |styles|
  {
    if styles != [] {
      var last := styles[|styles| - 1];
      var before := Styled(styles[..|styles| - 1], at, cell);
      StyledSame(styles[..|styles| - 1], at, cell, attributes);
      assert Coloured(Coloured(before, last.attributes), attributes) == Coloured(before, attributes);
    }
  }

  lemma {:induction false} StyledByLast(styles: seq<Style>, i: nat, at: Spot, cell: Guess)
    requires i < |styles| && LastOver(styles, i, at)
    ensures Styled(styles, at, cell) == Coloured(cell, styles[i].attributes)
    decreases |styles|
  {
    var rest := styles[..|styles| - 1];
    if i == |styles| - 1 {
      StyledSame(rest, at, cell, styles[i].attributes);
    } else {
      assert forall j :: i <= j < |rest| ==> rest[j] == styles[j];
      StyledByLast(rest, i, at, cell);
    }
  }

  lemma StyledIsRestyled(styles: seq<Style>, confirmed: set<Spot>, screen: Screen, at: Spot, cell: Guess)
    requires StylesOf(styles, confirmed, screen)
    ensures Styled(styles, at, cell) == Restyled(screen, confirmed, at, cell)
  {
    NearestIs(confirmed, at.0, at.1);
    var near := NearestLeft(confirmed, at.0, at.1);
    if near.Some? {
      var i :| 0 <= i < |styles| && (styles[i].row, styles[i].from) == (at.0, near.value);
      forall j | i < j < |styles|
        ensures !Covers(styles[j], at)
      {
        assert Before((styles[i].row, styles[i].from), (styles[j].row, styles[j].from));
        assert IsStyleOf(styles[j], confirmed, screen);
      }
      assert IsStyleOf(styles[i], confirmed, screen);
      StyledByLast(styles, i, at, cell);
    } else {
      forall j | 0 <= j < |styles|
        ensures !Covers(styles[j], at)
      {
        assert IsStyleOf(styles[j], confirmed, screen);
      }
      StyledByNone(styles, at, cell);
    }
  }

  // ---- reading the cells in order ----------------------------------------------------------------------------------

  predicate First(at: Spot, spots: set<Spot>) {
    at in spots && forall b :: b in spots ==> b == at || Before(at, b)
  }

  lemma {:induction false} SomeFirst(spots: set<Spot>)
    requires spots != {}
    ensures exists at :: First(at, spots)
    decreases |spots|
  {
    var at :| at in spots;
    if spots == {at} {
      assert First(at, spots);
    } else {
      var rest := spots - {at};
      SomeFirst(rest);
      var b :| First(b, rest);
      assert forall c :: c in spots ==> c == at || c in rest;
      assert First(if Before(at, b) then at else b, spots);
    }
  }

  /** What grading has found among the cells read. */
  ghost predicate Found(e: Engine, screen: Screen, read: set<Spot>, gone: set<Spot>, killed: set<nat>, styles: seq<Style>, most: nat)
    requires read <= e.cells.Keys
  {
    && gone == (set at | at in read && GradeOf(e, screen, at) != Pending)
    && killed == (set at | at in read && GradeOf(e, screen, at) == Wrong :: e.cells[at].epoch)
    && (forall at :: at in read && GradeOf(e, screen, at) == Wrong ==> Hidden(e, e.cells[at].epoch))
    && StylesOf(styles, CorrectIn(e, screen, read), screen)
    && e.confirmed <= most
    && (most == e.confirmed || exists at :: at in CorrectIn(e, screen, read) && e.cells[at].epoch == most)
    && (forall at :: at in CorrectIn(e, screen, read) ==> e.cells[at].epoch <= most)
  }

  ghost function CorrectIn(e: Engine, screen: Screen, read: set<Spot>): set<Spot>
    requires read <= e.cells.Keys
  {
    set at | at in read && GradeOf(e, screen, at) == Correct
  }

  /** A cell graded right joins the styles, last. */
  lemma StylesGrow(e: Engine, screen: Screen, read: set<Spot>, at: Spot, styles: seq<Style>, style: Style)
    requires read <= e.cells.Keys && at in e.cells && GradeOf(e, screen, at) == Correct
    requires forall b :: b in read ==> Before(b, at)
    requires StylesOf(styles, CorrectIn(e, screen, read), screen)
    requires CellAt(screen, at).Some? && style == Style(at.0, at.1, CellAt(screen, at).value.attributes)
    ensures StylesOf(styles + [style], CorrectIn(e, screen, read + {at}), screen)
  {
    var right := CorrectIn(e, screen, read);
    var more := styles + [style];
    assert CorrectIn(e, screen, read + {at}) == right + {at};
    forall i | 0 <= i < |more|
      ensures IsStyleOf(more[i], right + {at}, screen)
      ensures i < |styles| ==> Before((more[i].row, more[i].from), at)
    {
      if i < |styles| {
        assert IsStyleOf(styles[i], right, screen);
      }
    }
    forall b | b in right + {at}
      ensures exists i :: 0 <= i < |more| && (more[i].row, more[i].from) == b
    {
      if b == at {
        assert (more[|styles|].row, more[|styles|].from) == at;
      } else {
        var i :| 0 <= i < |styles| && (styles[i].row, styles[i].from) == b;
        assert (more[i].row, more[i].from) == b;
      }
    }
  }

  lemma FoundAll(e: Engine, screen: Screen, gone: set<Spot>, killed: set<nat>, styles: seq<Style>, most: nat)
    requires Found(e, screen, e.cells.Keys, gone, killed, styles, most)
    ensures !ShownWrong(e, screen) && killed == Killed(e, screen)
    ensures most == Largest(e.confirmed, Epochs(e, Confirmed(e, screen)))
    ensures StylesOf(styles, Confirmed(e, screen), screen)
    ensures forall at :: at in e.cells ==> (at in gone <==> GradeOf(e, screen, at) != Pending)
  {
    assert CorrectIn(e, screen, e.cells.Keys) == Confirmed(e, screen);
    assert killed == Killed(e, screen);
    var epochs := Epochs(e, Confirmed(e, screen));
    var largest := Largest(e.confirmed, epochs);
    if most != e.confirmed {
      var at :| at in CorrectIn(e, screen, e.cells.Keys) && e.cells[at].epoch == most;
      assert most in epochs;
    }
    if largest != e.confirmed {
      assert largest in epochs;
    }
  }

  class PredictionEngine {
    var cells: map<Spot, Guess>
    var cursor: Option<Guessed>
    var predicting: nat
    var confirmed: nat
    var sent: nat
    var acked: nat
    var held: Option<nat>
    var size: Option<Spot>
    var tty: Option<Modes>
    var carried: bool
    var line: Line

    function State(): Engine
      reads this
    {
      Engine(cells, cursor, predicting, confirmed, sent, acked, held, size, tty, carried, line)
    }

    constructor ()
      ensures State() == FRESH
    {
      cells, cursor, predicting, confirmed, sent, acked := map[], None, FIRST_EPOCH, 0, 0, 0;
      held, size, tty, carried, line := None, None, None, false, Unknown;
    }

    /** A fresh engine for a reconnect to the same session. */
    method Reattached() returns (e: PredictionEngine)
      ensures fresh(e) && e.State() == Predict.Reattached(State())
    {
      e := new PredictionEngine();
      e.carried := carried || predicting == confirmed;
    }

    method SetTty(modes: Option<Modes>)
      modifies this
      ensures State() == Predict.SetTty(old(State()), modes)
    {
      tty := modes;
      if modes.Some? && Password(modes.value) {
        if cells != map[] || cursor.Some? {
          Reset();
        }
        carried := false;
      } else if modes.Some? && carried {
        carried := false;
        confirmed := Max(confirmed, predicting);
      }
    }

    method SetLocalFrameSent(n: nat)
      modifies this`sent
      ensures State() == old(State()).(sent := n)
    {
      sent := n;
    }

    method SetLocalFrameLateAcked(n: nat)
      modifies this`acked
      ensures State() == old(State()).(acked := n)
    {
      acked := n;
    }

    method BecomeTentative()
      modifies this`predicting
      ensures State() == Tentative(old(State()))
    {
      predicting := predicting + 1;
    }

    method DiscardLine()
      modifies this`line
      ensures State() == Predict.DiscardLine(old(State()))
    {
      if line.Started? {
        line := Unknown;
      }
    }

    method Reset()
      modifies this
      ensures State() == Predict.Reset(old(State()))
    {
      cells := map[];
      cursor := None;
      DiscardLine();
      BecomeTentative();
    }

    method Unmodelled()
      modifies this`predicting, this`line
      ensures State() == Predict.Unmodelled(old(State()))
    {
      BecomeTentative();
      line := Unknown;
    }

    method Place(screen: Screen, at: Spot, guess: Cell, typed: bool)
      modifies this`cells
      ensures State() == Predict.Place(old(State()), screen, at, guess, typed)
    {
      var actual := CellAt(screen, at);
      var original := if actual.Some? then actual.value.text else "";
      cells := cells[at := Guess(NextFrame(State()), predicting, Some(guess), original, typed)];
    }

    method PlaceGlyph(screen: Screen, at: Spot, cell: Cell)
      modifies this`cells
      ensures State() == Predict.PlaceGlyph(old(State()), screen, at, cell)
    {
      Place(screen, at, cell, true);
      if cell.half == Wide {
        Place(screen, (at.0, at.1 + 1), Cell("", cell.attributes, Covered), true);
      }
    }

    method MoveCursor(at: Spot)
      modifies this`cursor
      ensures State() == Predict.MoveCursor(old(State()), at)
    {
      cursor := Some(Guessed(NextFrame(State()), predicting, at.0, at.1));
    }

    method Newline(screen: Screen)
      modifies this`cursor
      ensures State() == Predict.Newline(old(State()), screen)
    {
      var (row, _) := CursorAt(State(), screen);
      MoveCursor((if row + 1 < screen.rows then row + 1 else row, 0));
    }

    method BeginLine(screen: Screen)
      modifies this`line
      ensures State() == Predict.BeginLine(old(State()), screen)
    {
      if line.Fresh? {
        if cursor.None? && acked >= line.enter {
          line := Started(screen.cursor.0, screen.cursor.1);
        } else {
          line := Unknown;
        }
      }
    }

    method PredictGlyph(text: Text, screen: Screen, modes: Modes, c: char)
      modifies this
      ensures State() == Predict.PredictGlyph(text, old(State()), screen, modes, c)
    {
      hide GuessAt, BlankAt, AllBlank, GlyphBefore, StyleAt;
      if modes.echo {
        confirmed := Max(confirmed, FIRST_EPOCH);
      }
      var at := CursorAt(State(), screen);
      var before := GlyphBefore(State(), screen, at);
      if before.Some? && text.continues(before.value.1.text, c) {
        var joined := before.value.1.(text := before.value.1.text + [c]);
        if text.width(joined.text) != text.width(before.value.1.text) {
          Unmodelled();
          return;
        }
        PlaceGlyph(screen, (at.0, before.value.0), joined);
        MoveCursor(at);
        return;
      }
      var width := text.width([c]);
      var end := at.1 + width;
      if width == 0 || end > screen.cols || !AllBlank(State(), screen, at.0, at.1, end) {
        Unmodelled();
        return;
      }
      var glyph := Cell([c], StyleAt(State(), screen, at), if width == 2 then Wide else Narrow);
      PlaceGlyph(screen, at, glyph);
      if end < screen.cols {
        MoveCursor((at.0, end));
      } else {
        BecomeTentative();
        Newline(screen);
      }
    }

    method PredictBackspace(screen: Screen)
      modifies this
      ensures State() == Predict.PredictBackspace(old(State()), screen)
    {
      var at := CursorAt(State(), screen);
      if at.1 > 0 && MayStepBack(State(), at) && BlankAt(State(), screen, at) {
        var left := GuessAt(State(), screen, (at.0, at.1 - 1));
        if left.Some? && left.value.half == Narrow {
          Place(screen, (at.0, at.1 - 1), GuessAt(State(), screen, at).value, false);
          MoveCursor((at.0, at.1 - 1));
          return;
        }
      }
      Unmodelled();
    }

    method PredictArrow(screen: Screen, right: bool)
      modifies this
      ensures State() == Predict.PredictArrow(old(State()), screen, right)
    {
      var at := CursorAt(State(), screen);
      if right && at.1 + 1 < screen.cols {
        MoveCursor((at.0, at.1 + 1));
      } else if !right && at.1 > 0 && MayStepBack(State(), at) {
        MoveCursor((at.0, at.1 - 1));
      } else {
        Unmodelled();
      }
    }

    method PredictEnter(screen: Screen)
      modifies this
      ensures State() == Predict.PredictEnter(old(State()), screen)
    {
      BecomeTentative();
      Newline(screen);
      line := Line.Fresh(NextFrame(State()));
    }

    method Hold()
      modifies this
      ensures State() == Predict.Hold(old(State()))
    {
      held := Some(NextFrame(State()));
      BecomeTentative();
    }

    method Holding() returns (holding: bool)
      modifies this`held
      ensures State() == Released(old(State())) && holding == Predict.Holding(State())
    {
      holding := held.Some? && acked < held.value;
      if !holding {
        held := None;
      }
    }

    /** What is typed where nothing may be guessed. */
    method Skip(text: Text, press: Press)
      modifies this
      ensures State() == Unpredicted(text, old(State()), press)
    {
      BecomeTentative();
      if press.key.Enter? && !press.alt && !press.ctrl {
        line := Line.Fresh(NextFrame(State()));
      } else if !Printable(text, press) {
        line := Unknown;
      }
    }

    /** One key on the screen it is typed at, the guesses graded first. */
    method NewUserKey(text: Text, press: Press, screen: Screen)
      modifies this
      ensures State() == Predict.NewUserKey(text, old(State()), screen, press)
    {
      hide Predict.Cull, Predict.PredictGlyph, Predict.PredictBackspace, Predict.PredictArrow, Predict.PredictEnter;
      Cull(screen);
      if Printable(text, press) {
        BeginLine(screen);
      }
      if !InContext(State(), screen) {
        Skip(text, press);
        return;
      }
      var holding := Holding();
      if holding {
        Skip(text, press);
        return;
      }
      var modes := tty.value;
      if press.key.Char? && !press.alt && press.ctrl {
        var c := Lower(press.key.c);
        if c == 'h' {
          PredictBackspace(screen);
        } else if c == 'j' || c == 'm' {
          PredictEnter(screen);
        } else {
          Unmodelled();
        }
      } else if Printable(text, press) {
        PredictGlyph(text, screen, modes, press.key.c);
      } else if press.key.Backspace? && !press.alt && !press.ctrl {
        PredictBackspace(screen);
      } else if press.key.Enter? && !press.alt && !press.ctrl {
        PredictEnter(screen);
      } else if press.key.Arrow? && !press.alt && !press.ctrl && !modes.echo {
        PredictArrow(screen, press.key.right);
      } else {
        Unmodelled();
      }
    }

    method NewUserOther(screen: Screen)
      modifies this
      ensures State() == Predict.NewUserOther(old(State()), screen)
    {
      hide Predict.Cull;
      Cull(screen);
      Unmodelled();
    }

    /** Read every guess in order and grade it: what goes, which epochs were proved wrong, which styles spread, and
        the newest epoch confirmed; or that a guess shown was wrong. */
    method Read(screen: Screen) returns (lost: bool, gone: set<Spot>, killed: set<nat>, styles: seq<Style>, most: nat)
      ensures lost <==> ShownWrong(State(), screen)
      ensures !lost ==> Found(State(), screen, cells.Keys, gone, killed, styles, most)
    {
      lost, gone, killed, styles, most := false, {}, {}, [], confirmed;
      var todo := cells.Keys;
      while todo != {} && !lost
        invariant todo <= cells.Keys
        invariant lost ==> ShownWrong(State(), screen)
        invariant forall a, b :: a in cells.Keys - todo && b in todo ==> Before(a, b)
        invariant !lost ==> Found(State(), screen, cells.Keys - todo, gone, killed, styles, most)
        decreases todo
      {
        SomeFirst(todo);
        var at :| First(at, todo);
        lost, gone, killed, styles, most := ReadOne(screen, cells.Keys - todo, at, gone, killed, styles, most);
        assert cells.Keys - (todo - {at}) == (cells.Keys - todo) + {at};
        todo := todo - {at};
      }
      if !lost {
        assert cells.Keys - todo == cells.Keys;
        FoundAll(State(), screen, gone, killed, styles, most);
      }
    }

    /** The next guess graded. */
    method ReadOne(screen: Screen, ghost read: set<Spot>, at: Spot, gone0: set<Spot>, killed0: set<nat>, styles0: seq<Style>, most0: nat)
      returns (lost: bool, gone: set<Spot>, killed: set<nat>, styles: seq<Style>, most: nat)
      requires read <= cells.Keys && at in cells && at !in read && (forall b :: b in read ==> Before(b, at))
      requires Found(State(), screen, read, gone0, killed0, styles0, most0)
      ensures lost ==> ShownWrong(State(), screen)
      ensures !lost ==> Found(State(), screen, read + {at}, gone, killed, styles, most)
    {
      lost, gone, killed, styles, most := false, gone0, killed0, styles0, most0;
      var cell := cells[at];
      var grade := Grade(cell, screen, at, acked);
      assert grade == GradeOf(State(), screen, at);
      if grade == Correct {
        most := Max(most, cell.epoch);
        var style := Style(at.0, at.1, CellAt(screen, at).value.attributes);
        StylesGrow(State(), screen, read, at, styles, style);
        styles := styles + [style];
        gone := gone + {at};
        assert CorrectIn(State(), screen, read + {at}) == CorrectIn(State(), screen, read) + {at};
      } else {
        assert CorrectIn(State(), screen, read + {at}) == CorrectIn(State(), screen, read);
        if grade == NoCredit {
          gone := gone + {at};
        } else if grade == Wrong && Hidden(State(), cell.epoch) {
          killed := killed + {cell.epoch};
          gone := gone + {at};
        } else if grade == Wrong {
          lost := true;
        }
      }
    }

    /** Each style in turn recolours the typed cells it covers. */
    method Restyle(styles: seq<Style>)
      modifies this`cells
      ensures cells == map at | at in old(cells) :: Styled(styles, at, old(cells)[at])
    {
      var i := 0;
      while i < |styles|
        invariant 0 <= i <= |styles|
        invariant cells == map at | at in old(cells) :: Styled(styles[..i], at, old(cells)[at])
      {
        var style := styles[i];
        assert styles[..i + 1][..i] == styles[..i];
        cells := map at | at in cells :: if Covers(style, at) then Coloured(cells[at], style.attributes) else cells[at];
        i := i + 1;
      }
      assert styles[..i] == styles;
    }

    /** What a frame that proved no shown guess wrong does to the guesses. */
    method Settle(screen: Screen, gone: set<Spot>, killed: set<nat>, styles: seq<Style>, most: nat)
      requires !ShownWrong(State(), screen) && Found(State(), screen, cells.Keys, gone, killed, styles, most)
      modifies this
      ensures State() == Graded(old(State()), screen)
    {
      hide Restyled, NearestLeft, Predict.MoveCursor, Tentative, Predict.DiscardLine, Styled;
      ghost var e := State();
      FoundAll(e, screen, gone, killed, styles, most);
      hide ShownWrong, Found, Remaining, StylesOf, Killed, Confirmed, Epochs, Largest, GradeOf;
      confirmed := most;
      Prune(gone, killed, styles);
      CulledCells(e, screen, gone, killed, styles, cells);
      if killed != {} {
        StartOver(screen);
      }
    }

    /** After a wrong guess: a new epoch, the cursor guessed where it is, hidden. */
    method StartOver(screen: Screen)
      modifies this
      ensures State() == Predict.MoveCursor(Tentative(Predict.DiscardLine(old(State()))), screen.cursor)
    {
      DiscardLine();
      BecomeTentative();
      MoveCursor(screen.cursor);
    }

    /** The cells graded go, the rest are recoloured, and those of killed epochs go. */
    method Prune(gone: set<Spot>, killed: set<nat>, styles: seq<Style>)
      modifies this`cells
      ensures forall at :: at in cells <==> at in old(cells) && at !in gone && Styled(styles, at, old(cells)[at]).epoch !in killed
      ensures forall at :: at in cells ==> cells[at] == Styled(styles, at, old(cells)[at])
    {
      cells := map at | at in cells && at !in gone :: cells[at];
      Restyle(styles);
      if killed != {} {
        cells := map at | at in cells && cells[at].epoch !in killed :: cells[at];
      }
    }

    /** The cursor's guess graded. */
    method CullCursor(screen: Screen)
      modifies this
      ensures State() == CursorCulled(old(State()), screen)
    {
      if cursor.Some? {
        var grade := CursorGrade(cursor.value, screen, acked);
        if grade == Wrong {
          Reset();
        } else if grade != Pending {
          cursor := None;
        }
      }
    }

    /** Grade the guesses against a frame's screen. */
    method Cull(screen: Screen)
      modifies this
      ensures State() == Predict.Cull(old(State()), screen)
    {
      hide ShownWrong, Found, Graded, CursorCulled;
      var now: Spot := (screen.rows, screen.cols);
      var resized := size.Some? && size.value != now;
      size := Some(now);
      if resized {
        Reset();
        return;
      }
      var lost, gone, killed, styles, most := Read(screen);
      if lost {
        Reset();
        return;
      }
      Settle(screen, gone, killed, styles, most);
      CullCursor(screen);
    }

    function Overlay(): Predict.Overlay
      reads this
    {
      Drawn(State())
    }
  }

  /** What is left once the graded cells are gone, the rest recoloured, and those of killed epochs dropped. */
  lemma CulledCells(e: Engine, screen: Screen, gone: set<Spot>, killed: set<nat>, styles: seq<Style>, left: map<Spot, Guess>)
    requires killed == Killed(e, screen) && StylesOf(styles, Confirmed(e, screen), screen)
    requires forall at :: at in e.cells ==> (at in gone <==> GradeOf(e, screen, at) != Pending)
    requires forall at :: at in left <==> at in e.cells && at !in gone && Styled(styles, at, e.cells[at]).epoch !in killed
    requires forall at :: at in left ==> left[at] == Styled(styles, at, e.cells[at])
    ensures left == Remaining(e, screen)
  {
    forall at | at in e.cells
      ensures Styled(styles, at, e.cells[at]) == Restyled(screen, Confirmed(e, screen), at, e.cells[at])
      ensures Styled(styles, at, e.cells[at]).epoch == e.cells[at].epoch
    {
      StyledIsRestyled(styles, Confirmed(e, screen), screen, at, e.cells[at]);
    }
    assert left.Keys == Remaining(e, screen).Keys;
  }
}
