/** Trust is earned: no guess is drawn before a frame proved an epoch at least as new, a held key is never guessed,
    and nothing at all is kept at a password prompt. */
module Trust {
  import opened Bytes
  import opened Predict

  // ---- grading, counted ----------------------------------------------------------------------------------------

  /** The guess is drawn right by `screen`: a glyph of its own, not blank, that the cell did not show when it was
      typed and shows now that its input is reflected. */
  predicate Right(cell: Guess, screen: Screen, at: Spot, acked: nat) {
    && cell.guess.Some? && cell.guess.value.half != Covered && !Blank(cell.guess.value.text)
    && CellAt(screen, at).Some? && CellAt(screen, at).value.text == cell.guess.value.text
    && cell.original != cell.guess.value.text && cell.expiry <= acked
  }

  /** A frame gives up everything: the screen changed size, or a guess drawn was wrong. */
  ghost predicate GivesUp(e: Engine, screen: Screen) {
    (e.size.Some? && e.size.value != (screen.rows, screen.cols)) || ShownWrong(e, screen)
  }

  /** A frame proves epoch `k`: it shows right a guess of that epoch or a later one, and gives nothing up. */
  ghost predicate Proves(e: Engine, screen: Screen, k: nat) {
    !GivesUp(e, screen) && exists at :: at in e.cells && Right(e.cells[at], screen, at, e.acked) && e.cells[at].epoch >= k
  }

  lemma GradeSized(e: Engine, screen: Screen, at: Spot)
    requires at in e.cells
    ensures GradeOf(e.(size := Some((screen.rows, screen.cols))), screen, at) == GradeOf(e, screen, at)
    ensures GradeOf(e, screen, at) == Correct <==> Right(e.cells[at], screen, at, e.acked)
  {
  }

  lemma CullConfirms(e: Engine, screen: Screen, k: nat)
    ensures Cull(e, screen).confirmed >= k <==> e.confirmed >= k || Proves(e, screen, k)
  {
    hide Remaining, CursorGrade, GradeOf, Right;
    var sized := e.(size := Some((screen.rows, screen.cols)));
    forall at | at in e.cells
      ensures GradeOf(sized, screen, at) == GradeOf(e, screen, at)
      ensures GradeOf(e, screen, at) == Correct <==> Right(e.cells[at], screen, at, e.acked)
    {
      GradeSized(e, screen, at);
    }
    assert ShownWrong(sized, screen) <==> ShownWrong(e, screen);
    if !GivesUp(e, screen) {
      var right := Confirmed(sized, screen);
      var epochs := Epochs(sized, right);
      assert Cull(e, screen).confirmed == Largest(e.confirmed, epochs);
      if Proves(e, screen, k) {
        var at :| at in e.cells && Right(e.cells[at], screen, at, e.acked) && e.cells[at].epoch >= k;
        assert at in right;
        assert e.cells[at].epoch in epochs;
      }
    }
  }

  // ---- what every run keeps --------------------------------------------------------------------------------------

  /** No stamp is newer than the epoch guessed in, and none trusted is either. */
  ghost predicate Stamped(e: Engine) {
    && FIRST_EPOCH <= e.predicting && e.confirmed <= e.predicting
    && (forall at :: at in e.cells ==> e.cells[at].epoch <= e.predicting)
    && (e.cursor.Some? ==> e.cursor.value.epoch <= e.predicting)
  }

  /** Two guesses the same but for the style a frame may give one. */
  predicate SameGuess(a: Guess, b: Guess) {
    && a.expiry == b.expiry && a.epoch == b.epoch && a.original == b.original && a.typed == b.typed
    && (a.guess.Some? <==> b.guess.Some?)
    && (a.guess.Some? ==> a.guess.value.text == b.guess.value.text && a.guess.value.half == b.guess.value.half)
  }

  predicate Older(e: Engine, start: Engine, at: Spot)
    requires at in e.cells
  {
    at in start.cells && SameGuess(e.cells[at], start.cells[at])
  }

  /** Everything guessed since `start` is of epoch `k` or later; the rest stands as it stood then. */
  ghost predicate Since(e: Engine, start: Engine, k: nat) {
    && e.predicting >= k
    && (forall at :: at in e.cells ==> e.cells[at].epoch >= k || Older(e, start, at))
    && (e.cursor.Some? ==> e.cursor.value.epoch >= k || e.cursor == start.cursor)
  }

  /** What a step does to the guesses: epochs only go up, and what it adds is stamped with the newest. */
  ghost predicate Steps(e: Engine, t: Engine) {
    && e.predicting <= t.predicting && e.confirmed <= t.confirmed
    && (forall at :: at in t.cells ==> e.predicting <= t.cells[at].epoch <= t.predicting || Older(t, e, at))
    && (t.cursor.Some? ==> e.predicting <= t.cursor.value.epoch <= t.predicting || t.cursor == e.cursor)
  }

  lemma StepsOn(e: Engine, t: Engine, u: Engine)
    requires Steps(e, t) && Steps(t, u)
    ensures Steps(e, u)
  {
    forall at | at in u.cells
      ensures e.predicting <= u.cells[at].epoch <= u.predicting || Older(u, e, at)
    {
      if !(t.predicting <= u.cells[at].epoch <= u.predicting) {
        assert Older(u, t, at);
      }
    }
  }

  lemma SinceOn(e: Engine, t: Engine, start: Engine, k: nat)
    requires Since(e, start, k) && Steps(e, t)
    ensures Since(t, start, k)
  {
    forall at | at in t.cells
      ensures t.cells[at].epoch >= k || Older(t, start, at)
    {
      if t.cells[at].epoch < k {
        assert Older(t, e, at);
      }
    }
  }

  lemma StampedOn(e: Engine, t: Engine)
    requires Stamped(e) && Steps(e, t) && t.confirmed <= t.predicting
    ensures Stamped(t)
  {
    forall at | at in t.cells
      ensures t.cells[at].epoch <= t.predicting
    {
      if !(e.predicting <= t.cells[at].epoch <= t.predicting) {
        assert Older(t, e, at);
      }
    }
  }

  lemma PlacedSteps(e: Engine, screen: Screen, at: Spot, cell: Cell)
    ensures Steps(e, PlaceGlyph(e, screen, at, cell))
  {
  }

  /** Every guess is one `start` had. */
  ghost predicate NothingNew(e: Engine, start: Engine) {
    forall at :: at in e.cells ==> Older(e, start, at)
  }

  lemma GradedSteps(e: Engine, screen: Screen)
    requires Stamped(e)
    ensures var t := Graded(e, screen);
            && Steps(e, t) && t.confirmed <= t.predicting && SameRest(e, t)
            && NothingNew(t, e)
  {
    hide GradeOf, NearestLeft;
    var t := Graded(e, screen);
    forall at | at in t.cells
      ensures Older(t, e, at)
    {
      assert at in Remaining(e, screen);
    }
    var epochs := Epochs(e, Confirmed(e, screen));
    assert forall n :: n in epochs ==> n <= e.predicting;
  }

  /** What grading and typing leave alone. */
  predicate SameRest(e: Engine, t: Engine) {
    t.held == e.held && t.acked == e.acked && t.sent == e.sent && t.tty == e.tty && t.carried == e.carried
  }

  lemma CullSteps(e: Engine, screen: Screen)
    requires Stamped(e)
    ensures Steps(e, Cull(e, screen)) && Cull(e, screen).confirmed <= Cull(e, screen).predicting
    ensures NothingNew(Cull(e, screen), e) && SameRest(e, Cull(e, screen))
  {
    hide Graded, ShownWrong;
    var sized := e.(size := Some((screen.rows, screen.cols)));
    GradedSteps(sized, screen);
    assert NothingNew(Graded(sized, screen), e);
  }

  /** What a key does: at most the first epoch is trusted, by the kernel's echo. */
  ghost predicate KeySteps(e: Engine, t: Engine, echo: bool) {
    && Steps(e, t) && t.confirmed <= t.predicting && t.carried == e.carried && t.tty == e.tty
    && (t.confirmed == e.confirmed || (echo && t.confirmed == FIRST_EPOCH))
  }

  /** A key that only moves the cursor or opens an epoch. */
  lemma MovedSteps(e: Engine, t: Engine, u: Engine, echo: bool)
    requires KeySteps(e, t, echo)
    requires u.cells == t.cells && u.confirmed == t.confirmed && t.predicting <= u.predicting <= t.predicting + 1
    requires u.carried == t.carried && u.tty == t.tty
    requires u.cursor == t.cursor || (u.cursor.Some? && u.cursor.value.epoch == u.predicting)
    ensures KeySteps(e, u, echo)
  {
    assert forall at :: at in u.cells ==> (Older(u, e, at) <==> Older(t, e, at));
  }

  lemma PlacedKey(e: Engine, screen: Screen, at: Spot, cell: Cell, tty: Predict.Modes)
    requires Stamped(e)
    ensures KeySteps(e, PlaceGlyph(Trusting(e, tty), screen, at, cell), tty.echo)
  {
    PlacedSteps(Trusting(e, tty), screen, at, cell);
  }

  lemma GlyphSteps(text: Text, e: Engine, screen: Screen, tty: Predict.Modes, c: char)
    requires Stamped(e)
    ensures KeySteps(e, PredictGlyph(text, e, screen, tty, c), tty.echo)
  {
    hide GlyphBefore, AllBlank, PlaceGlyph, KeySteps, StyleAt;
    var t := Trusting(e, tty);
    assert KeySteps(e, t, tty.echo) by {
      TrustingSteps(e, tty);
    }
    var at := CursorAt(t, screen);
    var before := GlyphBefore(t, screen, at);
    var u := PredictGlyph(text, e, screen, tty, c);
    if before.Some? && text.continues(before.value.1.text, c) {
      var joined := before.value.1.(text := before.value.1.text + [c]);
      PlacedKey(e, screen, (at.0, before.value.0), joined, tty);
      var placed := PlaceGlyph(t, screen, (at.0, before.value.0), joined);
      PlacedRest(t, screen, (at.0, before.value.0), joined);
      MovedSteps(e, if text.width(joined.text) != text.width(before.value.1.text) then t else placed, u, tty.echo);
    } else {
      var glyph := Cell([c], StyleAt(t, screen, at), if text.width([c]) == 2 then Wide else Narrow);
      PlacedKey(e, screen, at, glyph, tty);
      var placed := PlaceGlyph(t, screen, at, glyph);
      PlacedRest(t, screen, at, glyph);
      var end := at.1 + text.width([c]);
      if text.width([c]) == 0 || end > screen.cols || !AllBlank(t, screen, at.0, at.1, end) {
        MovedSteps(e, t, u, tty.echo);
      } else {
        MovedSteps(e, placed, u, tty.echo);
      }
    }
  }

  lemma TrustingSteps(e: Engine, tty: Predict.Modes)
    requires Stamped(e)
    ensures KeySteps(e, Trusting(e, tty), tty.echo)
  {
  }

  lemma NoSteps(e: Engine, echo: bool)
    requires Stamped(e)
    ensures KeySteps(e, e, echo)
  {
  }

  lemma PlacedRest(e: Engine, screen: Screen, at: Spot, cell: Cell)
    ensures var t := PlaceGlyph(e, screen, at, cell);
            t.predicting == e.predicting && t.confirmed == e.confirmed && t.cursor == e.cursor && t.carried == e.carried && t.tty == e.tty
  {
  }

  lemma PredictedSteps(text: Text, e: Engine, screen: Screen, tty: Predict.Modes, press: Press)
    requires Stamped(e)
    ensures KeySteps(e, Predicted(text, e, screen, tty, press), tty.echo)
  {
    hide GlyphBefore, AllBlank, MayStepBack, PredictGlyph, KeySteps, BlankAt, GuessAt, Stamped;
    NoSteps(e, tty.echo);
    var t := Predicted(text, e, screen, tty, press);
    if Printable(text, press) {
      GlyphSteps(text, e, screen, tty, press.key.c);
    } else if t.cells == e.cells {
      MovedSteps(e, e, t, tty.echo);
    } else {
      BackspaceSteps(e, screen, tty.echo);
    }
  }

  lemma BackspaceSteps(e: Engine, screen: Screen, echo: bool)
    requires Stamped(e)
    ensures KeySteps(e, PredictBackspace(e, screen), echo)
  {
    hide AllBlank, MayStepBack, BlankAt, GuessAt;
  }

  // ---- one happening -----------------------------------------------------------------------------------------------

  predicate Grades(what: Happening) {
    what.Typed? || what.Foreign? || what.Frame?
  }

  /** The PTY as the engine knows it does not echo what is typed. */
  predicate Silent(tty: Option<Predict.Modes>) {
    tty.Some? ==> !tty.value.echo
  }

  predicate KeepsSilent(what: Happening) {
    what.Told? ==> Silent(what.tty)
  }

  /** Trust without carried trust grows by what a frame proves, and by nothing else, but that the kernel's echo
      trusts the first epoch. */
  lemma HappenedTrust(text: Text, e: Engine, what: Happening, k: nat)
    requires Stamped(e) && !e.carried
    requires k > FIRST_EPOCH || (Silent(e.tty) && KeepsSilent(what))
    ensures var t := Happened(text, e, what);
            && Stamped(t) && !t.carried && Steps(e, t)
            && (Silent(e.tty) && KeepsSilent(what) ==> Silent(t.tty))
            && (t.confirmed >= k <==> e.confirmed >= k || (Grades(what) && Proves(e, what.screen, k)))
  {
    hide Cull, Proves, NewUserKey;
    var t := Happened(text, e, what);
    if Grades(what) {
      var culled := Cull(e, what.screen);
      CullSteps(e, what.screen);
      CullConfirms(e, what.screen, k);
      StampedOn(e, culled);
      if what.Typed? {
        KeyTrust(text, e, what.screen, what.press);
      }
      StepsOn(e, culled, t);
      StampedOn(e, t);
    } else {
      StampedOn(e, t);
    }
  }

  lemma KeyTrust(text: Text, e: Engine, screen: Screen, press: Press)
    requires Stamped(Cull(e, screen))
    ensures KeySteps(Cull(e, screen), NewUserKey(text, e, screen, press),
                     Cull(e, screen).tty.Some? && Cull(e, screen).tty.value.echo)
  {
    hide Cull, Predicted, KeySteps, Stamped, Steps, Holding, Password, Printable;
    var culled := Cull(e, screen);
    var echo := culled.tty.Some? && culled.tty.value.echo;
    var begun := if Printable(text, press) then BeginLine(culled, screen) else culled;
    var released := Released(begun);
    if InContext(begun, screen) && !Holding(released) {
      StampedSame(culled, released);
      PredictedSteps(text, released, screen, released.tty.value, press);
      SameStart(culled, released, NewUserKey(text, e, screen, press), echo);
    } else {
      NoSteps(culled, echo);
      MovedSteps(culled, culled, NewUserKey(text, e, screen, press), echo);
    }
  }

  lemma StampedSame(e: Engine, same: Engine)
    requires Stamped(e)
    requires same.cells == e.cells && same.cursor == e.cursor && same.predicting == e.predicting && same.confirmed == e.confirmed
    ensures Stamped(same)
  {
  }

  lemma SameStart(e: Engine, same: Engine, t: Engine, echo: bool)
    requires KeySteps(same, t, echo)
    requires same.cells == e.cells && same.cursor == e.cursor && same.predicting == e.predicting
    requires same.confirmed == e.confirmed && same.carried == e.carried && same.tty == e.tty
    ensures KeySteps(e, t, echo)
  {
    assert forall at :: at in t.cells ==> (Older(t, e, at) <==> Older(t, same, at));
  }

  // ---- runs ----------------------------------------------------------------------------------------------------------

  /** Some frame of the run proves epoch `k`. */
  ghost predicate Earned(text: Text, e: Engine, run: seq<Happening>, k: nat)
    decreases |run|
  {
    run != [] && ((Grades(run[0]) && Proves(e, run[0].screen, k)) || Earned(text, Happened(text, e, run[0]), run[1..], k))
  }

  /** No kernel echo through the run. */
  predicate AllSilent(e: Engine, run: seq<Happening>) {
    Silent(e.tty) && forall i :: 0 <= i < |run| ==> KeepsSilent(run[i])
  }

  /** Trust is earned, exactly: an epoch is trusted at the end of a run if and only if it was at its start or some
      frame proved it. (The first epoch also by the kernel's echo.) */
  lemma {:induction false} TrustedIffEarned(text: Text, e: Engine, run: seq<Happening>, k: nat)
    requires Stamped(e) && !e.carried
    requires k > FIRST_EPOCH || AllSilent(e, run)
    ensures After(text, e, run).confirmed >= k <==> e.confirmed >= k || Earned(text, e, run, k)
    ensures Stamped(After(text, e, run)) && !After(text, e, run).carried
    decreases |run|
  {
    if run != [] {
      HappenedTrust(text, e, run[0], k);
      TrustedIffEarned(text, Happened(text, e, run[0]), run[1..], k);
    }
  }

  lemma {:induction false} RunSince(text: Text, e: Engine, run: seq<Happening>, start: Engine, k: nat)
    requires Stamped(e) && !e.carried && Since(e, start, k)
    ensures Since(After(text, e, run), start, k)
    decreases |run|
  {
    if run != [] {
      HappenedTrust(text, e, run[0], FIRST_EPOCH + 1);
      SinceOn(e, Happened(text, e, run[0]), start, k);
      RunSince(text, Happened(text, e, run[0]), run[1..], start, k);
    }
  }

  /** What is drawn was guessed by `start` already, in an epoch before `k`. */
  ghost predicate DrawsOnly(e: Engine, start: Engine, k: nat) {
    && (forall at :: at in Drawn(e).cells ==> Shown(e, at) && e.cells[at].epoch < k && Older(e, start, at))
    && (Drawn(e).cursor.Some? ==> e.cursor.Some? && e.cursor.value.epoch < k && e.cursor == start.cursor)
  }

  /** From an engine guessing in an epoch `k` not trusted, nothing typed afterwards is drawn until a frame proves
      `k` or a later epoch. */
  lemma HiddenUntilEarned(text: Text, start: Engine, run: seq<Happening>)
    requires Stamped(start) && !start.carried && start.confirmed < start.predicting
    requires start.predicting > FIRST_EPOCH || AllSilent(start, run)
    requires !Earned(text, start, run, start.predicting)
    ensures DrawsOnly(After(text, start, run), start, start.predicting)
  {
    var k := start.predicting;
    TrustedIffEarned(text, start, run, k);
    RunSince(text, start, run, start, k);
    var e := After(text, start, run);
    forall at | at in Drawn(e).cells
      ensures Shown(e, at) && e.cells[at].epoch < k && Older(e, start, at)
    {
      assert at in e.cells && !Hidden(e, e.cells[at].epoch);
    }
  }

  // ---- what opens an epoch -------------------------------------------------------------------------------------------

  /** The engine once a step graded its frame. */
  ghost function Begins(e: Engine, what: Happening): Engine {
    if Grades(what) then Cull(e, what.screen) else e
  }

  /** A step opens an epoch, but for what grading its frame does. */
  ghost predicate Opens(text: Text, e: Engine, what: Happening) {
    Happened(text, e, what).predicting > Begins(e, what).predicting
  }

  predicate MayErase(e: Engine, screen: Screen) {
    var at := CursorAt(e, screen);
    && at.1 > 0 && MayStepBack(e, at) && BlankAt(e, screen, at)
    && var left := GuessAt(e, screen, (at.0, at.1 - 1)); left.Some? && left.value.half == Narrow
  }

  predicate MayMove(e: Engine, screen: Screen, right: bool) {
    var at := CursorAt(e, screen);
    if right then at.1 + 1 < screen.cols else at.1 > 0 && MayStepBack(e, at)
  }

  /** Whether `c` joins the glyph before the cursor without widening it, or goes on blanks short of the row's end. */
  predicate MayType(text: Text, e: Engine, screen: Screen, c: char) {
    var at := CursorAt(e, screen);
    var before := GlyphBefore(e, screen, at);
    if before.Some? && text.continues(before.value.1.text, c)
    then text.width(before.value.1.text + [c]) == text.width(before.value.1.text)
    else
      var width := text.width([c]);
      width > 0 && at.1 + width < screen.cols && AllBlank(e, screen, at.0, at.1, at.1 + width)
  }

  /** Whether a key that may be predicted is guessed in the epoch there is. */
  predicate GuessedHere(text: Text, e: Engine, screen: Screen, echo: bool, press: Press) {
    && !press.alt
    && match press.key
       case Char(c) =>
         if press.ctrl then Lower(c) == 'h' && MayErase(e, screen) else !text.control(c) && MayType(text, e, screen, c)
       case Backspace => !press.ctrl && MayErase(e, screen)
       case Arrow(right) => !press.ctrl && !echo && MayMove(e, screen, right)
       case Enter => false
       case OtherKey => false
  }

  /** The engine a key is read by: graded, the line begun, a hold that ended forgotten. */
  ghost function Reading(text: Text, e: Engine, screen: Screen, press: Press): Engine {
    var culled := Cull(e, screen);
    Released(if Printable(text, press) then BeginLine(culled, screen) else culled)
  }

  lemma BlankSame(e: Engine, screen: Screen, tty: Predict.Modes, at: Spot)
    ensures BlankAt(Trusting(e, tty), screen, at) == BlankAt(e, screen, at)
  {
  }

  lemma BeforeSame(e: Engine, screen: Screen, tty: Predict.Modes, at: Spot)
    ensures GlyphBefore(Trusting(e, tty), screen, at) == GlyphBefore(e, screen, at)
    ensures CursorAt(Trusting(e, tty), screen) == CursorAt(e, screen)
  {
  }

  lemma TrustingSame(text: Text, e: Engine, screen: Screen, tty: Predict.Modes, c: char)
    ensures MayType(text, Trusting(e, tty), screen, c) == MayType(text, e, screen, c)
  {
    hide BlankAt, GlyphBefore, Trusting, CursorAt;
    BeforeSame(e, screen, tty, CursorAt(e, screen));
    forall at: Spot ensures BlankAt(Trusting(e, tty), screen, at) == BlankAt(e, screen, at) { BlankSame(e, screen, tty, at); }
  }

  lemma GlyphOpens(text: Text, e: Engine, screen: Screen, tty: Predict.Modes, c: char)
    ensures PredictGlyph(text, e, screen, tty, c).predicting == e.predicting + if MayType(text, e, screen, c) then 0 else 1
  {
    hide AllBlank, StyleAt, GlyphBefore, CursorAt;
    TrustingSame(text, e, screen, tty, c);
  }

  lemma PredictedOpens(text: Text, e: Engine, screen: Screen, tty: Predict.Modes, press: Press)
    ensures Predicted(text, e, screen, tty, press).predicting ==
            e.predicting + if GuessedHere(text, e, screen, tty.echo, press) then 0 else 1
  {
    hide PredictGlyph, MayType, BlankAt, GuessAt, MayStepBack;
    if Printable(text, press) { GlyphOpens(text, e, screen, tty, press.key.c); }
  }

  /** Exactly when: input that is no key, a hold, and each key but one that may be predicted and is guessed in the epoch
      there is; so Enter, a key that reaches the row's end, and one that cannot be guessed where the engine stands. */
  lemma OpensIff(text: Text, e: Engine, what: Happening)
    requires what.Typed? || what.Foreign? || what.Held?
    ensures Opens(text, e, what) <==>
            what.Typed? ==>
              var read := Reading(text, e, what.screen, what.press);
              !(InContext(read, what.screen) && !Holding(read)
                && GuessedHere(text, read, what.screen, read.tty.value.echo, what.press))
  {
    hide Cull, Predicted, GuessedHere, Printable, Password;
    if what.Typed? {
      var read := Reading(text, e, what.screen, what.press);
      if InContext(read, what.screen) {
        PredictedOpens(text, read, what.screen, read.tty.value, what.press);
      }
    }
  }

  lemma OpensHidden(text: Text, e: Engine, what: Happening)
    requires Stamped(e) && !e.carried && Opens(text, e, what)
    ensures var t := Happened(text, e, what);
            Stamped(t) && !t.carried && FIRST_EPOCH < t.predicting && t.confirmed < t.predicting
  {
    hide Cull, Happened, Steps;
    var t := Happened(text, e, what);
    if Grades(what) {
      CullSteps(e, what.screen);
      StepsUp(e, Cull(e, what.screen));
    }
    HappenedTrust(text, e, what, t.predicting);
  }

  lemma StepsUp(e: Engine, t: Engine)
    requires Steps(e, t)
    ensures e.predicting <= t.predicting
  {
  }

  /** After a step that opens an epoch, in any run from a fresh engine: nothing typed later is drawn, cell or cursor,
      until a frame shows in its cell a glyph guessed since. */
  lemma TrustIsEarned(text: Text, before: seq<Happening>, what: Happening, run: seq<Happening>)
    requires Opens(text, After(text, FRESH, before), what)
    ensures var start := Happened(text, After(text, FRESH, before), what);
            Earned(text, start, run, start.predicting) || DrawsOnly(After(text, start, run), start, start.predicting)
  {
    TrustedIffEarned(text, FRESH, before, FIRST_EPOCH + 1);
    var e := After(text, FRESH, before);
    OpensHidden(text, e, what);
    var start := Happened(text, e, what);
    if !Earned(text, start, run, start.predicting) {
      HiddenUntilEarned(text, start, run);
    }
  }

  /** A fresh engine draws nothing, whatever is typed, until the kernel echoes or a frame proves its first epoch. */
  lemma FreshDrawsNothing(text: Text, run: seq<Happening>)
    requires forall i :: 0 <= i < |run| ==> KeepsSilent(run[i])
    requires !Earned(text, FRESH, run, FIRST_EPOCH)
    ensures Drawn(After(text, FRESH, run)) == Predict.Overlay(map[], None)
  {
    HiddenUntilEarned(text, FRESH, run);
    var e := After(text, FRESH, run);
    assert forall at :: at in Drawn(e).cells ==> at in FRESH.cells;
    assert Drawn(e).cells == map[];
  }

  // ---- held keys -----------------------------------------------------------------------------------------------------

  /** The hold of input frame `h` stands: the server has not reflected it, and input frames do not go back. */
  predicate HeldFor(e: Engine, h: nat) {
    e.held.Some? && e.held.value >= h && e.acked < h && e.sent + 1 >= h
  }

  predicate KeepsHeld(what: Happening, h: nat) {
    (what.Acked? ==> what.frame < h) && (what.Sent? ==> what.frame + 1 >= h)
  }

  lemma HeldStep(text: Text, e: Engine, what: Happening, h: nat)
    requires Stamped(e) && !e.carried && HeldFor(e, h) && KeepsHeld(what, h)
    ensures var t := Happened(text, e, what); HeldFor(t, h) && NothingNew(t, e)
  {
    hide Cull, Predicted;
    if Grades(what) {
      CullSteps(e, what.screen);
    }
  }

  /** While a hold stands, through any keys and frames, no guess is added: what is typed then never gets a cell. */
  lemma {:induction false} HeldKeysNeverGuessed(text: Text, e: Engine, run: seq<Happening>, h: nat)
    requires Stamped(e) && !e.carried && HeldFor(e, h)
    requires forall i :: 0 <= i < |run| ==> KeepsHeld(run[i], h)
    ensures NothingNew(After(text, e, run), e) && HeldFor(After(text, e, run), h)
    decreases |run|
  {
    if run != [] {
      var t := Happened(text, e, run[0]);
      HeldStep(text, e, run[0], h);
      HappenedTrust(text, e, run[0], FIRST_EPOCH + 1);
      HeldKeysNeverGuessed(text, t, run[1..], h);
      var u := After(text, e, run);
      forall at | at in u.cells
        ensures Older(u, e, at)
      {
        assert Older(u, t, at);
      }
    }
  }

  // ---- password prompts -----------------------------------------------------------------------------------------------

  /** Nothing is kept at a password prompt. */
  predicate Clean(e: Engine) {
    Prompted(e) ==> e.cells == map[] && e.cursor.None?
  }

  lemma CleanCull(e: Engine, screen: Screen)
    requires Clean(e)
    ensures Clean(Cull(e, screen))
  {
    var sized := e.(size := Some((screen.rows, screen.cols)));
    if Prompted(e) {
      assert Killed(sized, screen) == {};
      assert Remaining(sized, screen) == map[];
    }
    assert Cull(e, screen).tty == e.tty;
  }

  lemma CleanStep(text: Text, e: Engine, what: Happening)
    requires Clean(e)
    ensures Clean(Happened(text, e, what))
  {
    hide Cull, Predicted;
    if Grades(what) {
      CleanCull(e, what.screen);
      var culled := Cull(e, what.screen);
      if what.Typed? {
        var begun := if Printable(text, what.press) then BeginLine(culled, what.screen) else culled;
        var released := Released(begun);
        if InContext(begun, what.screen) && !Holding(released) {
          TtyKept(text, released, what.screen, released.tty.value, what.press);
        }
      }
    }
  }

  lemma TtyKept(text: Text, e: Engine, screen: Screen, tty: Predict.Modes, press: Press)
    ensures Predicted(text, e, screen, tty, press).tty == e.tty
  {
    hide GlyphBefore, GuessAt, AllBlank, MayStepBack;
  }

  /** At a password prompt the engine holds no guess at all and draws nothing, in every state a run reaches,
      whatever trust it has. */
  lemma {:induction false} NothingAtAPrompt(text: Text, e: Engine, run: seq<Happening>)
    requires Clean(e)
    ensures Clean(After(text, e, run))
    ensures Prompted(After(text, e, run)) ==> Drawn(After(text, e, run)) == Predict.Overlay(map[], None)
    decreases |run|
  {
    if run != [] {
      CleanStep(text, e, run[0]);
      NothingAtAPrompt(text, Happened(text, e, run[0]), run[1..]);
    }
  }
}
