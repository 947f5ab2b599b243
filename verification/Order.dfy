/** Directories close in order: in every run each gets its mode and time once, after its end and after all under it
    is done. */
module Order {
  import opened Bytes
  import opened Files
  import opened Walk
  import opened Course
  import opened Receive
  import opened Closing
  import opened Landing
  import opened LandFacts
  import opened EndSteps
  import opened FileSteps
  import opened Protocol
  import opened Tally
  import opened Ends
  import opened Runs
  import opened Converge

  // ---- the receiver in a run -------------------------------------------------------------------------

  /** The receiver's state in a run: its last, once it stopped. */
  ghost function LastState(copy: Copy, acts: seq<Act>): State
    requires Play(copy, acts).Some?
    decreases |acts|
  {
    var y := Play(copy, acts).value;
    if y.receiver.Running? then y.receiver.s else LastState(copy, acts[..|acts| - 1])
  }

  /** In every run the receiver's state, its last if it stopped, is the one for how far it is. */
  lemma {:induction false} LastAt(copy: Copy, acts: seq<Act>)
    requires Starts(copy) && Play(copy, acts).Some?
    ensures IsAt(copy, FarOf(copy, acts), LastState(copy, acts))
    decreases |acts|
  {
    hide IsAt, Leads, SenderAt, RepliesAre, StoppedAt, Do, FarAfter;
    var far, pos := RunSound(copy, acts);
    var y := Play(copy, acts).value;
    if !y.receiver.Running? {
      var before := acts[..|acts| - 1];
      LastAt(copy, before);
      StoppedStays(copy, Play(copy, before).value, acts[|acts| - 1], FarOf(copy, before));
    }
  }

  /** A step that leaves the receiver stopped takes it no further. */
  lemma StoppedStays(copy: Copy, y: Copying, act: Act, far: Pos)
    requires Do(copy, y, act).Some? && Do(copy, y, act).value.receiver.Stopped?
    ensures FarAfter(copy, y, act, far) == far
  {
    hide Received, After;
  }

  /** Whether, where the receiver is, `d`'s End came and every file under it is done. */
  ghost predicate ClosedAt(copy: Copy, far: Pos, d: Path) {
    Closed(copy, Reached(copy, far.k), far.m, d)
  }

  /** What the receiver's state for where it is says of the directories, between files or in one. */
  lemma StandsDirs(copy: Copy, far: Pos, s: State)
    requires Starts(copy) && IsAt(copy, far, s) && !copy.opts.dryRun
    ensures var w := Reached(copy, far.k);
            && far.m <= |w.files| && AllFiles(copy, w, far.m, s.files) && ClosingOk(copy, w, far.m, s)
            && forall d :: TimeOk(copy, w, far.m, s, d)
  {
    hide Reached, Good, Logged, Sources, Tallies, OpensOk, PendingOk, ClosingOk, TimeOk, FileOk, PartOk, SeenOk, SetUp, MidPart, Steps;
    assert Stands(copy, far, s);
  }

  // ---- when a directory gets its mode and time -------------------------------------------------------

  /** How directory `d` stands: as it was till its header comes; then with its first mode, if it was made, and no time
      of its own; and from when it closes with the mode and the time it is to have. */
  ghost predicate StandsAs(copy: Copy, far: Pos, s: State, d: Path)
    requires SentDir(copy, d)
  {
    var mtime := Look(copy, d).value.mtime;
    && Get(s.files, d) == (if Gone(copy, Reached(copy, far.k), d) then Some(Dir(DirMode(copy, d, ClosedAt(copy, far, d))))
                           else Get(copy.there, d))
    && (if copy.opts.keepTimes && mtime.Some? && ClosedAt(copy, far, d)
        then TimeAt(s.times, d) == Some(At(mtime.value)) else !TimeSet(s.times, d))
  }

  lemma DirStands(copy: Copy, far: Pos, s: State, d: Path)
    requires Starts(copy) && IsAt(copy, far, s) && !copy.opts.dryRun && SentDir(copy, d)
    ensures StandsAs(copy, far, s, d)
  {
    hide IsAt, Reached, Good, Logged, Sources, Closed, ClosingOk, DirMode, Swept;
    StandsDirs(copy, far, s);
    SentProper(copy, d);
    var w := Reached(copy, far.k);
    assert FileOk(copy, w, far.m, s.files, d) && TimeOk(copy, w, far.m, s, d);
    if !Gone(copy, w, d) {
      StillThere(copy, w, far.m, d);
    }
  }

  /** In every run, at any time, in the middle of a file too: a directory has the mode it is to have, and its time if
      times are kept, if and only if its End came and every file under it is done; before, it has its first mode. */
  lemma ClosesWhenDone(copy: Copy, acts: seq<Act>, d: Path)
    requires Starts(copy) && Play(copy, acts).Some? && !copy.opts.dryRun && SentDir(copy, d)
    ensures StandsAs(copy, FarOf(copy, acts), LastState(copy, acts), d)
  {
    hide IsAt, StandsAs, Play;
    LastAt(copy, acts);
    DirStands(copy, FarOf(copy, acts), LastState(copy, acts), d);
  }

  /** In every run the directories that wait are those that ended with a file under them still to be done, and only
      those. */
  lemma WaitsExactly(copy: Copy, acts: seq<Act>, d: Path)
    requires Starts(copy) && Play(copy, acts).Some? && !copy.opts.dryRun && SentDir(copy, d)
    ensures var far := FarOf(copy, acts);
            var w := Reached(copy, far.k);
            FolderFor(copy, d) in LastState(copy, acts).closing <==>
            Ended(copy, w, d) && exists i :: far.m <= i < |w.files| && d <= w.files[i].path
  {
    hide IsAt, Play, Reached, Ended, Closed, ClosingOk, FolderFor, SentDir, TimeOk, AllFiles;
    LastAt(copy, acts);
    var far, s := FarOf(copy, acts), LastState(copy, acts);
    StandsDirs(copy, far, s);
    WaitsOpen(copy, Reached(copy, far.k), far.m, s, d);
    NotClosedIs(copy, Reached(copy, far.k), far.m, d);
  }

  /** A directory waits exactly as it ended and is not closed. */
  lemma WaitsOpen(copy: Copy, w: Walk, m: nat, s: State, d: Path)
    requires ClosingOk(copy, w, m, s) && !copy.opts.dryRun && SentDir(copy, d)
    ensures FolderFor(copy, d) in s.closing <==> Ended(copy, w, d) && !Closed(copy, w, m, d)
  {
    hide Ended, Closed;
    if FolderFor(copy, d) in s.closing {
      var i :| 0 <= i < |s.closing| && s.closing[i] == FolderFor(copy, d);
      assert s.closing[i].path == d;
    }
  }

  lemma NotClosedIs(copy: Copy, w: Walk, m: nat, d: Path)
    ensures Closed(copy, w, m, d) <==> Ended(copy, w, d) && !exists i :: m <= i < |w.files| && d <= w.files[i].path
  {
    hide Ended;
  }

  // ---- once ------------------------------------------------------------------------------------------

  /** What a directory held once closed is not held again: it does not reopen. */
  lemma {:induction false} ClosedForGood(copy: Copy, k: nat, m: nat, k': nat, m': nat, d: Path)
    requires Starts(copy) && Steps(copy, k') && k <= k' && m <= m' <= |Reached(copy, k').files| && m <= |Reached(copy, k).files|
    requires Closed(copy, Reached(copy, k), m, d)
    ensures Closed(copy, Reached(copy, k'), m', d)
    decreases k'
  {
    hide Good, Logged, Reached, Goes, Sources, Ended, Whole;
    if k < k' {
      assert Steps(copy, k' - 1);
      FilesGrow(copy, k, k' - 1);
      ClosedForGood(copy, k, m, k' - 1, m, d);
      ClosedOneMore(copy, k' - 1, m, d);
    }
  }

  lemma ClosedOneMore(copy: Copy, k: nat, m: nat, d: Path)
    requires Starts(copy) && Steps(copy, k + 1) && m <= |Reached(copy, k).files| && Closed(copy, Reached(copy, k), m, d)
    ensures Closed(copy, Reached(copy, k + 1), m, d)
  {
    hide Good, Logged, Closed, Sources, Whole, NextHead, Goes, Next;
    var w := Reached(copy, k);
    ReachedGood(copy, k);
    if NextHead(copy, w).EndHead? {
      assert SendsEnd(copy, w, m);
      NotEndingAgain(copy, w, m, d);
      EndClosed(copy, w, m, d);
    } else {
      HeadClosed(copy, w, m, d);
    }
  }

  lemma NotEndingAgain(copy: Copy, w: Walk, m: nat, d: Path)
    requires SendsEnd(copy, w, m) && Closed(copy, w, m, d)
    ensures d != NextHead(copy, w).path
  {
    EndIs(copy, w, m);
  }

  lemma {:induction false} EndedForGood(copy: Copy, j: nat, k: nat, d: Path)
    requires Starts(copy) && Steps(copy, k) && j <= k && Ended(copy, Reached(copy, j), d)
    ensures Ended(copy, Reached(copy, k), d)
    decreases k
  {
    hide Good, Logged, Goes, Sources, Ended, Whole, NextHead;
    if j < k {
      EndedForGood(copy, j, k - 1, d);
      ReachedGood(copy, k - 1);
      StepEnded(copy, Reached(copy, k - 1), d);
    }
  }

  /** A directory ends once: no two steps of a walk end the same one. */
  lemma EndsOnce(copy: Copy, j: nat, k: nat)
    requires Starts(copy) && Steps(copy, k + 1) && Steps(copy, j + 1) && j < k
    requires NextHead(copy, Reached(copy, j)).EndHead? && NextHead(copy, Reached(copy, k)).EndHead?
    ensures NextHead(copy, Reached(copy, j)).path != NextHead(copy, Reached(copy, k)).path
  {
    hide Good, Logged, Goes, Ended, Whole, NextHead, Next;
    ReachedGood(copy, j);
    ReachedGood(copy, k);
    EndIs(copy, Reached(copy, j), 0);
    EndIs(copy, Reached(copy, k), 0);
    var d := NextHead(copy, Reached(copy, j)).path;
    StepEnded(copy, Reached(copy, j), d);
    EndedForGood(copy, j + 1, k, d);
  }

  lemma {:induction false} FarGrows(copy: Copy, acts: seq<Act>, n: nat)
    requires Starts(copy) && Play(copy, acts).Some? && n <= |acts|
    ensures Play(copy, acts[..n]).Some?
    ensures FarOf(copy, acts[..n]).k <= FarOf(copy, acts).k && FarOf(copy, acts[..n]).m <= FarOf(copy, acts).m
    decreases |acts|
  {
    hide Do, FarAfter;
    if n == |acts| {
      assert acts[..n] == acts;
    } else {
      var before := acts[..|acts| - 1];
      assert before[..n] == acts[..n];
      FarGrows(copy, before, n);
      FarOneMore(copy, Play(copy, before).value, acts[|acts| - 1], FarOf(copy, before));
    }
  }

  lemma FarOneMore(copy: Copy, y: Copying, act: Act, far: Pos)
    ensures far.k <= FarAfter(copy, y, act, far).k && far.m <= FarAfter(copy, y, act, far).m
  {
    hide After, Received;
    if y.pipe != [] && After(copy, far, y.pipe[0]).Some? {
      AfterGrows(copy, far, y.pipe[0]);
    }
  }

  lemma WithinWalk(copy: Copy, acts: seq<Act>)
    requires Starts(copy) && Play(copy, acts).Some? && !copy.opts.dryRun
    ensures Steps(copy, FarOf(copy, acts).k) && FarOf(copy, acts).m <= |Reached(copy, FarOf(copy, acts).k).files|
  {
    hide Play, Reached, Tallies, Inv, Mid, Steps;
    LastAt(copy, acts);
    StandsDirs(copy, FarOf(copy, acts), LastState(copy, acts));
    assert Stands(copy, FarOf(copy, acts), LastState(copy, acts));
  }

  /** The mode and the time of a directory change at one point of a run only: once closed it stays closed, and between
      two times of the run that are on the same side of that point, after its header, they are the same. */
  lemma SetOnce(copy: Copy, acts: seq<Act>, n: nat, d: Path)
    requires Starts(copy) && Play(copy, acts).Some? && !copy.opts.dryRun && SentDir(copy, d) && n <= |acts|
    ensures Play(copy, acts[..n]).Some?
    ensures ClosedAt(copy, FarOf(copy, acts[..n]), d) ==> ClosedAt(copy, FarOf(copy, acts), d)
    ensures var s, t := LastState(copy, acts[..n]), LastState(copy, acts);
            && Gone(copy, Reached(copy, FarOf(copy, acts[..n]).k), d)
            && (ClosedAt(copy, FarOf(copy, acts[..n]), d) <==> ClosedAt(copy, FarOf(copy, acts), d))
            ==> && Get(t.files, d) == Get(s.files, d) && (TimeSet(t.times, d) <==> TimeSet(s.times, d))
                && (TimeSet(s.times, d) ==> TimeAt(t.times, d) == TimeAt(s.times, d))
  {
    FarGrows(copy, acts, n);
    hide Play, Reached, Closed, DirMode, Steps, Gone, FarOf, LastState;
    var was, now := FarOf(copy, acts[..n]), FarOf(copy, acts);
    WithinWalk(copy, acts[..n]);
    WithinWalk(copy, acts);
    if ClosedAt(copy, was, d) {
      ClosedForGood(copy, was.k, was.m, now.k, now.m, d);
    }
    ClosesWhenDone(copy, acts[..n], d);
    ClosesWhenDone(copy, acts, d);
    GoneForGood(copy, was.k, now.k, d);
  }

  lemma {:induction false} GoneForGood(copy: Copy, j: nat, k: nat, p: Path)
    requires Starts(copy) && Steps(copy, k) && j <= k
    ensures Gone(copy, Reached(copy, j), p) ==> Gone(copy, Reached(copy, k), p)
    decreases k
  {
    hide Good, Logged, Goes, Sources, Gone, Whole, NextHead;
    if j < k {
      GoneForGood(copy, j, k - 1, p);
      ReachedGood(copy, k - 1);
      StepGone(copy, Reached(copy, k - 1), p);
    }
  }

  // ---- at the end ------------------------------------------------------------------------------------

  /** A receiver that ended well left what it had. */
  lemma {:induction false} EndLeaves(copy: Copy, acts: seq<Act>)
    requires Starts(copy) && Play(copy, acts).Some?
    requires Play(copy, acts).value.receiver.Stopped? && Play(copy, acts).value.receiver.summary.Some?
    ensures Play(copy, acts).value.receiver.files == LastState(copy, acts).files
    decreases |acts|
  {
    hide Do;
    var before, act := acts[..|acts| - 1], acts[|acts| - 1];
    var y := Play(copy, before).value;
    var far, pos := RunSound(copy, before);
    if y.receiver.Running? {
      EndsHere(copy, y, act, far, pos);
    } else {
      StaysStopped(copy, y, act);
      EndLeaves(copy, before);
    }
  }

  lemma StaysStopped(copy: Copy, y: Copying, act: Act)
    requires y.receiver.Stopped? && Do(copy, y, act).Some?
    ensures Do(copy, y, act).value.receiver == y.receiver
  {
    hide Received;
  }

  lemma EndsHere(copy: Copy, y: Copying, act: Act, far: Pos, pos: Pos)
    requires Starts(copy) && Sound(copy, y, far, pos) && y.receiver.Running? && Do(copy, y, act).Some?
    requires Do(copy, y, act).value.receiver.Stopped? && Do(copy, y, act).value.receiver.summary.Some?
    ensures Do(copy, y, act).value.receiver.files == y.receiver.s.files
  {
    hide Sources, IsAt, SenderAt, RepliesAre, After, Received, Leads, Stands, LeftAt, AnswersFor;
    if act.Receive? {
      assert (y.pipe + y.buf)[0] == y.pipe[0];
      LeadsTo(copy, far, y.pipe + y.buf, pos);
      ItemComes(copy, far, y.pipe[0], y.receiver.s);
    }
  }

  /** At the end of a run that ends well no directory waits, no file is under way, and each directory sent has its mode,
      and its time if times are kept. */
  lemma AllClosed(copy: Copy, acts: seq<Act>, d: Path)
    requires Starts(copy) && Play(copy, acts).Some? && !copy.opts.dryRun && SentDir(copy, d)
    requires Play(copy, acts).value.receiver.Stopped? && Play(copy, acts).value.receiver.summary.Some?
    ensures var s, mtime := LastState(copy, acts), Look(copy, d).value.mtime;
            && s.closing == [] && s.pending == map[] && s.open == []
            && Get(Play(copy, acts).value.receiver.files, d) == Some(Dir(DirMode(copy, d, true)))
            && (copy.opts.keepTimes && mtime.Some? ==> TimeAt(s.times, d) == Some(At(mtime.value)))
  {
    hide Play, DirMode, Leads, SenderAt, RepliesAre, IsAt, LeftAt, FarOf;
    var far, pos := RunSound(copy, acts);
    LastAt(copy, acts);
    EndLeaves(copy, acts);
    ClosesWhenDone(copy, acts, d);
    ReachedGood(copy, far.k);
    ClosedAtEnd(copy, far, LastState(copy, acts), d);
  }

  lemma ClosedAtEnd(copy: Copy, far: Pos, s: State, d: Path)
    requires Starts(copy) && IsAt(copy, far, s) && far.at.None? && !copy.opts.dryRun && SentDir(copy, d)
    requires Complete(copy, Reached(copy, far.k), far.m)
    ensures s.closing == [] && s.pending == map[] && s.open == []
    ensures ClosedAt(copy, far, d) && Gone(copy, Reached(copy, far.k), d)
  {
    hide Good, Logged, Reached, SetUp, FileOk, PartOk, Tallies;
    var w := Reached(copy, far.k);
    assert Stands(copy, far, s) && Inv(copy, far.k, far.m, s);
    assert PendingOk(copy, w, far.m, s) && ClosingOk(copy, w, far.m, s) && OpensOk(copy, w, s);
    if s.closing != [] { CompleteDone(copy, w, far.m, s.closing[0].path); }
    assert s.pending.Keys == {};
    assert |s.open| == |w.frames| == 0;
    CompleteDone(copy, w, far.m, d);
  }
}
