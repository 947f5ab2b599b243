/** The overlay the predictor draws is one the display has room for: through any run, on whatever screens, no wide
    glyph is guessed in a last column. */
module Drawing {
  import opened Bytes
  import opened Predict
  import Wide
  import Trust
  import D = Displays

  /** No row is longer than the screen is wide. */
  predicate Sized(screen: Screen) {
    forall row :: 0 <= row < |screen.cells| ==> |screen.cells[row]| <= screen.cols
  }

  ghost predicate GoodScreen(text: Text, screen: Screen) {
    Sized(screen) && Wide.WellFormed(text, screen)
  }

  ghost predicate GoodHappening(text: Text, what: Happening) {
    Trust.Grades(what) ==> GoodScreen(text, what.screen)
  }

  predicate HasRoom(e: Engine, cols: nat, at: Spot)
    requires at in e.cells
  {
    e.cells[at].guess.Some? && e.cells[at].guess.value.half == Predict.Wide ==> at.1 + 1 < cols
  }

  /** Every wide guess has room for its right half. */
  ghost predicate Roomy(e: Engine, cols: nat) {
    forall at :: at in e.cells ==> HasRoom(e, cols, at)
  }

  /** Nothing is guessed before a screen was seen, and then only what the last one seen has room for. */
  ghost predicate RoomyNow(e: Engine) {
    if e.size.Some? then Roomy(e, e.size.value.1) else e.cells == map[]
  }

  lemma SameRoomy(e: Engine, t: Engine, cols: nat)
    requires Roomy(e, cols) && (t.cells == e.cells || t.cells == map[])
    ensures Roomy(t, cols)
  {
    assert forall at :: at in t.cells ==> HasRoom(e, cols, at);
  }

  /** What a glyph before the cursor is, it has room for: a guess, or one the screen shows whole. */
  lemma BeforeHasRoom(text: Text, e: Engine, screen: Screen, at: Spot)
    requires GoodScreen(text, screen) && Roomy(e, screen.cols) && GlyphBefore(e, screen, at).Some?
    ensures var (col, cell) := GlyphBefore(e, screen, at).value;
            cell.half == Predict.Wide ==> col + 1 < screen.cols
  {
    var (col, cell) := GlyphBefore(e, screen, at).value;
    var spot: Spot := (at.0, col);
    if spot in e.cells {
      assert HasRoom(e, screen.cols, spot);
    } else if CellAt(screen, spot).Some? {
      assert Wide.CellFits(text, screen, spot);
    }
  }

  lemma PlacedRoomy(e: Engine, screen: Screen, at: Spot, cell: Cell, cols: nat)
    requires Roomy(e, cols) && (cell.half == Predict.Wide ==> at.1 + 1 < cols)
    ensures Roomy(PlaceGlyph(e, screen, at, cell), cols)
  {
    var t := PlaceGlyph(e, screen, at, cell);
    forall p | p in t.cells
      ensures HasRoom(t, cols, p)
    {
      assert p in e.cells ==> HasRoom(e, cols, p);
    }
  }

  lemma GlyphRoomy(text: Text, e: Engine, screen: Screen, tty: Predict.Modes, c: char)
    requires GoodScreen(text, screen) && Roomy(e, screen.cols)
    ensures Roomy(PredictGlyph(text, e, screen, tty, c), screen.cols)
  {
    hide GoodScreen, Roomy, PlaceGlyph, GlyphBefore, AllBlank;
    var cols := screen.cols;
    var t := Trusting(e, tty);
    SameRoomy(e, t, cols);
    var at := CursorAt(t, screen);
    var before := GlyphBefore(t, screen, at);
    var u := PredictGlyph(text, e, screen, tty, c);
    if before.Some? && text.continues(before.value.1.text, c) {
      BeforeHasRoom(text, t, screen, at);
      var joined := before.value.1.(text := before.value.1.text + [c]);
      PlacedRoomy(t, screen, (at.0, before.value.0), joined, cols);
      SameRoomy(if text.width(joined.text) != text.width(before.value.1.text) then t
                else PlaceGlyph(t, screen, (at.0, before.value.0), joined), u, cols);
    } else {
      var end := at.1 + text.width([c]);
      if text.width([c]) == 0 || end > screen.cols || !AllBlank(t, screen, at.0, at.1, end) {
        SameRoomy(t, u, cols);
      } else {
        var glyph := Cell([c], StyleAt(t, screen, at), if text.width([c]) == 2 then Predict.Wide else Narrow);
        PlacedRoomy(t, screen, at, glyph, cols);
        SameRoomy(PlaceGlyph(t, screen, at, glyph), u, cols);
      }
    }
  }

  lemma BackspaceRoomy(e: Engine, screen: Screen, cols: nat)
    requires Roomy(e, cols)
    ensures Roomy(PredictBackspace(e, screen), cols)
  {
    hide MayStepBack;
    var t := PredictBackspace(e, screen);
    forall p | p in t.cells
      ensures HasRoom(t, cols, p)
    {
      assert p in e.cells ==> HasRoom(e, cols, p);
    }
  }

  lemma PredictedRoomy(text: Text, e: Engine, screen: Screen, tty: Predict.Modes, press: Press)
    requires GoodScreen(text, screen) && Roomy(e, screen.cols)
    ensures Roomy(Predicted(text, e, screen, tty, press), screen.cols)
  {
    hide PredictGlyph, PredictBackspace, GoodScreen, Roomy;
    BackspaceRoomy(e, screen, screen.cols);
    SameRoomy(e, PredictEnter(e, screen), screen.cols);
    SameRoomy(e, Unmodelled(e), screen.cols);
    if press.key.Char? {
      GlyphRoomy(text, e, screen, tty, press.key.c);
    } else if press.key.Arrow? {
      SameRoomy(e, PredictArrow(e, screen, press.key.right), screen.cols);
    }
  }

  /** Grading leaves what the screen graded against has room for. */
  lemma CullRoomy(e: Engine, screen: Screen)
    requires RoomyNow(e)
    ensures Roomy(Cull(e, screen), screen.cols) && Cull(e, screen).size == Some((screen.rows, screen.cols))
  {
    hide ShownWrong, GradeOf, Killed, Confirmed, Epochs, Largest;
    var size: Spot := (screen.rows, screen.cols);
    var sized := e.(size := Some(size));
    var t := Cull(e, screen);
    forall p | p in t.cells
      ensures HasRoom(t, screen.cols, p)
    {
      assert p in e.cells && HasRoom(e, screen.cols, p);
    }
  }

  lemma SizeKept(text: Text, e: Engine, screen: Screen, tty: Predict.Modes, press: Press)
    ensures Predicted(text, e, screen, tty, press).size == e.size
  {
    hide GlyphBefore, GuessAt, AllBlank, MayStepBack;
  }

  lemma KeyRoomy(text: Text, e: Engine, screen: Screen, press: Press)
    requires GoodScreen(text, screen) && RoomyNow(e)
    ensures RoomyNow(NewUserKey(text, e, screen, press))
  {
    hide Cull, Predicted, GoodScreen, Roomy;
    CullRoomy(e, screen);
    var culled := Cull(e, screen);
    var begun := if Printable(text, press) then BeginLine(culled, screen) else culled;
    var released := Released(begun);
    SameRoomy(culled, released, screen.cols);
    SameRoomy(culled, Unpredicted(text, begun, press), screen.cols);
    SameRoomy(culled, Unpredicted(text, released, press), screen.cols);
    if InContext(begun, screen) && !Holding(released) {
      PredictedRoomy(text, released, screen, released.tty.value, press);
      SizeKept(text, released, screen, released.tty.value, press);
    }
  }

  lemma HappenedRoomy(text: Text, e: Engine, what: Happening)
    requires RoomyNow(e) && GoodHappening(text, what)
    ensures RoomyNow(Happened(text, e, what))
  {
    hide Cull, NewUserKey, GoodScreen, Roomy;
    match what {
      case Typed(press, screen) => KeyRoomy(text, e, screen, press);
      case Foreign(screen) => CullRoomy(e, screen); SameRoomy(Cull(e, screen), Unmodelled(Cull(e, screen)), screen.cols);
      case Frame(screen) => CullRoomy(e, screen);
      case _ =>
        if e.size.Some? {
          SameRoomy(e, Happened(text, e, what), e.size.value.1);
        }
    }
  }

  /** Whatever is typed and shown, on whatever well-formed screens in turn, resized or not: a wide guess is never in
      the last column of the screen seen last. */
  lemma {:induction false} StaysRoomy(text: Text, e: Engine, run: seq<Happening>)
    requires RoomyNow(e) && forall i :: 0 <= i < |run| ==> GoodHappening(text, run[i])
    ensures RoomyNow(After(text, e, run))
    decreases |run|
  {
    if run != [] {
      HappenedRoomy(text, e, run[0]);
      StaysRoomy(text, Happened(text, e, run[0]), run[1..]);
    }
  }

  /** The display's overlay cell is what the predictor draws there. */
  predicate IsDrawn(drawn: Overlay, cell: D.OverlayCell) {
    var at: Spot := (cell.row, cell.col);
    && at in drawn.cells
    && cell.covered == (drawn.cells[at].half == Covered) && cell.glyph.wide == (drawn.cells[at].half == Predict.Wide)
  }

  predicate IsOverlay(drawn: Overlay, overlay: D.Overlay) {
    forall i :: 0 <= i < |overlay.cells| ==> IsDrawn(drawn, overlay.cells[i])
  }

  /** So the display has room for every overlay a predictor draws, in any run from a fresh one. */
  lemma OverlayFits(text: Text, run: seq<Happening>, carried: bool, overlay: D.Overlay)
    requires forall i :: 0 <= i < |run| ==> GoodHappening(text, run[i])
    requires IsOverlay(Drawn(After(text, FRESH.(carried := carried), run)), overlay)
    ensures var e := After(text, FRESH.(carried := carried), run);
            if e.size.Some? then D.Fits(overlay, e.size.value.1) else Drawn(e).cells == map[]
  {
    StaysRoomy(text, FRESH.(carried := carried), run);
    var e := After(text, FRESH.(carried := carried), run);
    if e.size.Some? {
      forall i | 0 <= i < |overlay.cells| && !overlay.cells[i].covered && overlay.cells[i].glyph.wide
        ensures overlay.cells[i].col + 1 != e.size.value.1
      {
        assert IsDrawn(Drawn(e), overlay.cells[i]);
        assert HasRoom(e, e.size.value.1, (overlay.cells[i].row, overlay.cells[i].col));
      }
    }
  }
}
