/** A copy cut short: nothing is lost, and a copy run again goes on from there. */
module Cut {
  import opened Bytes
  import opened Files
  import opened Walk
  import opened Course
  import opened Receive
  import opened Landing
  import opened LandFacts
  import opened FileSteps
  import opened Protocol
  import opened Tally
  import opened Ends
  import opened Runs
  import opened Converge

  /** What is there now, the receiver running or not. */
  function FilesNow(y: Copying): Files {
    match y.receiver
    case Running(s) => s.files
    case Stopped(files, _, _) => files
  }

  /** What a copy may leave at `p`, however far it came: what was there, what a whole copy leaves, or
      a directory that has not closed. */
  ghost predicate LeavesAt(copy: Copy, p: Path, now: Option<Entry>) {
    || now == Get(copy.there, p)
    || now == Merged(copy, p)
    || (SentDir(copy, p) && now == Some(Dir(DirMode(copy, p, false))))
  }

  lemma SweptDropped(copy: Copy, w: Walk, p: Path)
    requires Swept(copy, w, p)
    ensures Dropped(copy, p)
  {
    var n: nat :| SweptAt(copy, w, p, n);
    assert DroppedAt(copy, p, n);
  }

  lemma ExpectedKept(copy: Copy, w: Walk, m: nat, p: Path)
    ensures LeavesAt(copy, p, Expected(copy, w, m, p))
  {
    if Sent(copy, p) { SentNotSwept(copy, w, p); }
    if Swept(copy, w, p) { SweptDropped(copy, w, p); }
  }

  lemma LeftSafe(copy: Copy, far: Pos, files: Files, p: Path)
    requires LeftAt(copy, far, files) && Plain(p)
    ensures LeavesAt(copy, p, Get(files, p))
  {
    if !copy.opts.dryRun {
      assert FileOk(copy, Reached(copy, far.k), far.m, files, p);
      ExpectedKept(copy, Reached(copy, far.k), far.m, p);
    }
  }

  /** However far a copy came, running, cut or over: outside the parts each entry is what it was, or
      what a whole copy leaves, a file's content the source's whole content, or a directory not yet
      closed. A dry run changes nothing. */
  lemma CutSafe(copy: Copy, acts: seq<Act>, p: Path)
    requires Starts(copy) && Play(copy, acts).Some? && Plain(p)
    ensures LeavesAt(copy, p, Get(FilesNow(Play(copy, acts).value), p))
    ensures copy.opts.dryRun ==> FilesNow(Play(copy, acts).value) == copy.there
  {
    hide Play, Reached, Good, Logged, LeavesAt, AllFiles, FileOk, SenderAt, RepliesAre, Leads;
    var y := Play(copy, acts).value;
    var far, pos := RunSound(copy, acts);
    match y.receiver
    case Running(s) =>
      IsLeft(copy, far, s);
      LeftSafe(copy, far, s.files, p);
    case Stopped(files, summary, fail) =>
      if summary.Some? {
        var far, s := EndsWell(copy, acts);
        IsLeft(copy, far, s);
        LeftSafe(copy, far, s.files, p);
      } else {
        LeftSafe(copy, far, files, p);
      }
  }

  /** A file there is never in between: it is the old one, or has the source's whole content. */
  lemma FilesWhole(copy: Copy, acts: seq<Act>, p: Path)
    requires Starts(copy) && Play(copy, acts).Some? && Plain(p)
    requires var now := Get(FilesNow(Play(copy, acts).value), p); now.Some? && now.value.File?
    ensures var now := Get(FilesNow(Play(copy, acts).value), p);
            now == Get(copy.there, p) || (SentFile(copy, p) && now.value.content == Look(copy, p).value.content)
  {
    hide Play;
    CutSafe(copy, acts, p);
  }

  // ---- the copy run again --------------------------------------------------------------------------------

  /** The same copy, run again on what `files` is. */
  function Again(copy: Copy, files: Files): Copy {
    copy.(there := files)
  }

  lemma {:induction false} AgainLooks(copy: Copy, files: Files, p: Path)
    ensures Look(Again(copy, files), p) == Look(copy, p)
    ensures SentFile(Again(copy, files), p) == SentFile(copy, p) && SentDir(Again(copy, files), p) == SentDir(copy, p)
    decreases |p|
  {
    if |p| == Base(copy) {
      AgainTop(copy, files, 0, p);
    } else if |p| > Base(copy) {
      AgainLooks(copy, files, Parent(p));
    }
  }

  lemma {:induction false} AgainTop(copy: Copy, files: Files, i: nat, p: Path)
    requires i <= |copy.sources|
    ensures TopFrom(Again(copy, files), i, p) == TopFrom(copy, i, p)
    decreases |copy.sources| - i
  {
    if i < |copy.sources| { AgainTop(copy, files, i + 1, p); }
  }

  lemma AgainDrops(copy: Copy, files: Files, p: Path)
    ensures Dropped(Again(copy, files), p) == Dropped(copy, p)
  {
    forall n: nat ensures DroppedAt(Again(copy, files), p, n) == DroppedAt(copy, p, n) {
      if n < |p| {
        AgainLooks(copy, files, p[..n]);
        AgainLooks(copy, files, p[..n + 1]);
      }
    }
  }

  /** Whether a copy cut short left `files` with a directory it made open, that the copy run again
      leaves with another mode than a copy not cut: that one does not make it, and sets the modes of
      directories it does not make only to keep times. */
  ghost predicate LeftOpen(copy: Copy, files: Files, d: Path) {
    && SentDir(copy, d) && Made(copy, d) && !copy.opts.keepTimes
    && Get(files, d) == Some(Dir(0x1c0)) && Landed(Look(copy, d).value.mode) != 0x1c0
  }

  lemma AgainWas(copy: Copy, files: Files, p: Path)
    requires Get(files, p) == Get(copy.there, p)
    ensures Merged(Again(copy, files), p) == Merged(copy, p)
  {
    hide Look, Dropped, Landed;
    AgainLooks(copy, files, p);
    AgainDrops(copy, files, p);
  }

  lemma AgainFile(copy: Copy, files: Files, p: Path)
    requires SentFile(copy, p) && Get(files, p) == Some(FileLanded(copy, p))
    ensures Merged(Again(copy, files), p) == Merged(copy, p)
  {
    hide Look, Dropped, Landed;
    AgainLooks(copy, files, p);
  }

  lemma AgainDir(copy: Copy, files: Files, d: Path, closed: bool)
    requires Starts(copy) && SentDir(copy, d) && Get(files, d) == Some(Dir(DirMode(copy, d, closed)))
    ensures Merged(Again(copy, files), d) == Merged(copy, d) <==>
            !(!closed && Made(copy, d) && !copy.opts.keepTimes && Landed(Look(copy, d).value.mode) != 0x1c0)
  {
    hide Look, Dropped, Landed;
    AgainLooks(copy, files, d);
  }

  lemma AgainGone(copy: Copy, files: Files, p: Path)
    requires !Sent(copy, p) && Dropped(copy, p) && Get(files, p) == None
    ensures Merged(Again(copy, files), p) == Merged(copy, p)
  {
    hide Look, Dropped;
    AgainLooks(copy, files, p);
    AgainDrops(copy, files, p);
  }

  lemma AgainLink(copy: Copy, files: Files, p: Path)
    requires Sent(copy, p) && Look(copy, p).value.NLink?
    ensures Merged(Again(copy, files), p) == Merged(copy, p)
  {
    hide Look, Dropped;
    AgainLooks(copy, files, p);
  }

  /** Path by path, a copy run again comes to the same as one not cut, unless `p` is a directory left
      open. */
  lemma AgainSame(copy: Copy, w: Walk, m: nat, files: Files, p: Path)
    requires Starts(copy) && Get(files, p) == Expected(copy, w, m, p)
    ensures Merged(Again(copy, files), p) == Merged(copy, p) <==> !LeftOpen(copy, files, p)
  {
    hide Look, Merged, Swept, Dropped, Closed, FileDone, Todo, Landed, FileLanded, DirMode, Whole, Sources;
    if Get(files, p) == Get(copy.there, p) {
      AgainWas(copy, files, p);
    } else if Gone(copy, w, p) {
      var node := Look(copy, p).value;
      if node.NDir? {
        AgainDir(copy, files, p, Closed(copy, w, m, p));
        if Made(copy, p) { OpenMode(copy, p, Closed(copy, w, m, p)); }
      }
      if node.NFile? { AgainFile(copy, files, p); }
      if node.NLink? { AgainLink(copy, files, p); }
    } else {
      SweptDropped(copy, w, p);
      if Sent(copy, p) { SentNotSwept(copy, w, p); } else { AgainGone(copy, files, p); }
    }
  }

  lemma OpenMode(copy: Copy, d: Path, closed: bool)
    requires Starts(copy) && SentDir(copy, d) && Made(copy, d)
    ensures DirMode(copy, d, closed) == if closed then Landed(Look(copy, d).value.mode) else 0x1c0
  {
    hide Look, Landed;
  }

  /** A copy run again on `files` comes to what the copy not cut comes to. */
  ghost predicate ComesToTheSame(copy: Copy, files: Files) {
    forall p :: Plain(p) ==> Merged(Again(copy, files), p) == Merged(copy, p)
  }

  ghost predicate AnyOpen(copy: Copy, files: Files) {
    exists d :: LeftOpen(copy, files, d)
  }

  lemma AllSame(copy: Copy, w: Walk, m: nat, files: Files)
    requires Starts(copy) && AllFiles(copy, w, m, files)
    ensures ComesToTheSame(copy, files) <==> !AnyOpen(copy, files)
  {
    hide Merged, LeftOpen, Expected, Whole, Sources;
    if AnyOpen(copy, files) {
      var d :| LeftOpen(copy, files, d);
      OpenPlain(copy, files, d);
      assert FileOk(copy, w, m, files, d);
      AgainSame(copy, w, m, files, d);
      assert Plain(d) && Merged(Again(copy, files), d) != Merged(copy, d);
    } else {
      forall p | Plain(p) ensures Merged(Again(copy, files), p) == Merged(copy, p) {
        assert FileOk(copy, w, m, files, p);
        AgainSame(copy, w, m, files, p);
      }
    }
  }

  /** A copy cut short and run again comes to the same tree as one not cut, if and only if the cut
      left no directory it made open whose mode is not the one it was made with. */
  lemma RerunSame(copy: Copy, acts: seq<Act>)
    requires Starts(copy) && !copy.opts.dryRun && Play(copy, acts).Some?
    requires Play(copy, acts).value.receiver.Stopped? && Play(copy, acts).value.receiver.summary.None?
    ensures var files := FilesNow(Play(copy, acts).value);
            ComesToTheSame(copy, files) <==> !AnyOpen(copy, files)
  {
    hide Play, Reached, ComesToTheSame, AnyOpen, SenderAt, RepliesAre, Leads;
    var far, pos := RunSound(copy, acts);
    AllSame(copy, Reached(copy, far.k), far.m, FilesNow(Play(copy, acts).value));
  }

  lemma OpenPlain(copy: Copy, files: Files, d: Path)
    requires Starts(copy) && LeftOpen(copy, files, d)
    ensures Plain(d)
  {
    SentProper(copy, d);
  }

  /** What a copy cut short leaves is a tree a copy can start on. */
  lemma RerunStarts(copy: Copy, acts: seq<Act>)
    requires Starts(copy) && Play(copy, acts).Some?
    requires Play(copy, acts).value.receiver.Stopped? && Play(copy, acts).value.receiver.summary.None?
    ensures Starts(Again(copy, FilesNow(Play(copy, acts).value)))
  {
    hide Play, Reached, SenderAt, RepliesAre, Leads, AllFiles;
    var far, pos := RunSound(copy, acts);
    AgainSources(copy, FilesNow(Play(copy, acts).value));
  }

  lemma AgainSources(copy: Copy, files: Files)
    requires Sources(copy)
    ensures Sources(Again(copy, files))
  {
    var again := Again(copy, files);
    assert forall i :: 0 <= i < |copy.sources| ==> LandsAs(again, again.sources[i]) == LandsAs(copy, copy.sources[i]);
  }

  // ---- cut again and again -------------------------------------------------------------------------------

  /** A run cut short. */
  ghost predicate CutShort(copy: Copy, acts: seq<Act>) {
    Play(copy, acts).Some? && Play(copy, acts).value.receiver.Stopped? && Play(copy, acts).value.receiver.summary.None?
  }

  /** The copy as the run after a cut finds it. */
  ghost function AfterCut(copy: Copy, acts: seq<Act>): Copy
    requires Play(copy, acts).Some?
  {
    Again(copy, FilesNow(Play(copy, acts).value))
  }

  /** A copy is cut and run again, each run but the last cut in turn. */
  ghost predicate Cuts(copy: Copy, runs: seq<seq<Act>>)
    decreases |runs|
  {
    runs == [] || (CutShort(copy, runs[0]) && Cuts(AfterCut(copy, runs[0]), runs[1..]))
  }

  /** The copy as the run after the last cut finds it. */
  ghost function AfterCuts(copy: Copy, runs: seq<seq<Act>>): Copy
    requires Cuts(copy, runs)
    decreases |runs|
  {
    if runs == [] then copy else AfterCuts(AfterCut(copy, runs[0]), runs[1..])
  }

  /** Whether one of the cuts left `d`, which that run made, open. */
  ghost predicate OnceLeftOpen(copy: Copy, runs: seq<seq<Act>>, d: Path)
    requires Cuts(copy, runs)
    decreases |runs|
  {
    runs != [] && (LeftOpen(copy, AfterCut(copy, runs[0]).there, d) || OnceLeftOpen(AfterCut(copy, runs[0]), runs[1..], d))
  }

  lemma CutSame(copy: Copy, acts: seq<Act>, p: Path)
    requires Starts(copy) && !copy.opts.dryRun && CutShort(copy, acts) && Plain(p)
    ensures Merged(AfterCut(copy, acts), p) == Merged(copy, p) <==> !LeftOpen(copy, AfterCut(copy, acts).there, p)
  {
    hide Play, Reached, Merged, LeftOpen, SenderAt, RepliesAre, Leads, Expected, Sources;
    var far, pos := RunSound(copy, acts);
    var files := FilesNow(Play(copy, acts).value);
    assert AllFiles(copy, Reached(copy, far.k), far.m, files);
    assert FileOk(copy, Reached(copy, far.k), far.m, files, p);
    AgainSame(copy, Reached(copy, far.k), far.m, files, p);
  }

  /** A directory there stays, and with its mode if times are not kept. */
  lemma StaysDir(copy: Copy, acts: seq<Act>, d: Path)
    requires Starts(copy) && CutShort(copy, acts) && SentDir(copy, d) && !Made(copy, d)
    ensures SentDir(AfterCut(copy, acts), d) && !Made(AfterCut(copy, acts), d)
  {
    hide Play, Look;
    SentProper(copy, d);
    CutSafe(copy, acts, d);
    AgainLooks(copy, FilesNow(Play(copy, acts).value), d);
  }

  lemma {:induction false} NotOpenAgain(copy: Copy, runs: seq<seq<Act>>, d: Path)
    requires Starts(copy) && Cuts(copy, runs) && SentDir(copy, d) && !Made(copy, d)
    ensures !OnceLeftOpen(copy, runs, d)
    decreases |runs|
  {
    hide Play, SentDir, Made;
    if runs != [] {
      RerunStarts(copy, runs[0]);
      StaysDir(copy, runs[0], d);
      NotOpenAgain(AfterCut(copy, runs[0]), runs[1..], d);
    }
  }

  /** Path by path, what a whole run after any number of cuts comes to is what one not cut comes to, if and only if
      none of the cuts left the path's directory open. */
  lemma {:induction false} CutsSame(copy: Copy, runs: seq<seq<Act>>, p: Path)
    requires Starts(copy) && !copy.opts.dryRun && Cuts(copy, runs) && Plain(p)
    ensures Starts(AfterCuts(copy, runs)) && AfterCuts(copy, runs).opts == copy.opts
    ensures Merged(AfterCuts(copy, runs), p) == Merged(copy, p) <==> !OnceLeftOpen(copy, runs, p)
    decreases |runs|
  {
    hide Play, Merged, LeftOpen;
    if runs != [] {
      var next := AfterCut(copy, runs[0]);
      RerunStarts(copy, runs[0]);
      CutSame(copy, runs[0], p);
      CutsSame(next, runs[1..], p);
      if LeftOpen(copy, next.there, p) {
        OpenIsThere(copy, next.there, p);
        NotOpenAgain(next, runs[1..], p);
      }
    }
  }

  lemma OpenIsThere(copy: Copy, files: Files, d: Path)
    requires LeftOpen(copy, files, d)
    ensures SentDir(Again(copy, files), d) && !Made(Again(copy, files), d)
  {
    hide Look;
    AgainLooks(copy, files, d);
  }

  /** So a copy cut any number of times, then run again to a good end, leaves at each path what the merge of a copy not
      cut leaves, if and only if none of the cuts left that path a directory open. */
  lemma RerunConverges(copy: Copy, runs: seq<seq<Act>>, more: seq<Act>, p: Path)
    requires Starts(copy) && !copy.opts.dryRun && Plain(p) && Cuts(copy, runs)
    requires Play(AfterCuts(copy, runs), more).Some?
    requires var last := Play(AfterCuts(copy, runs), more).value; last.receiver.Stopped? && last.receiver.summary.Some?
    ensures Get(Play(AfterCuts(copy, runs), more).value.receiver.files, p) == Merged(copy, p) <==>
            !OnceLeftOpen(copy, runs, p)
  {
    hide Play, Merged, OnceLeftOpen, Cuts, AfterCuts;
    CutsSame(copy, runs, p);
    Converges(AfterCuts(copy, runs), more, p);
  }

  /** In particular, always when times are kept. */
  lemma {:induction false} RerunKeepsTimes(copy: Copy, runs: seq<seq<Act>>, p: Path)
    requires copy.opts.keepTimes && Cuts(copy, runs)
    ensures !OnceLeftOpen(copy, runs, p)
    decreases |runs|
  {
    hide Play;
    if runs != [] { RerunKeepsTimes(AfterCut(copy, runs[0]), runs[1..], p); }
  }

  // ---- going on from a part ------------------------------------------------------------------------------

  /** In every run, bytes are taken as sent before only where the part there is how the source's file begins: whenever
      a file's bytes are to come from byte `from` on, the part holds the ones before. */
  lemma GoesOnFromPrefix(copy: Copy, acts: seq<Act>)
    requires Starts(copy) && Play(copy, acts).Some? && !copy.opts.dryRun
    requires var y := Play(copy, acts).value; y.receiver.Running? && y.pipe != [] && y.pipe[0].DataItem?
    ensures var y, files := Play(copy, acts).value, FilesAt(copy, FarOf(copy, acts));
            var id, from := y.pipe[0].id, y.pipe[0].from;
            && id < |files| && files[id].FileHead? && files[id].path != []
            && SentFile(copy, files[id].path) && Look(copy, files[id].path).value.content == files[id].content
            && (from > 0 ==>
                  var part := Get(y.receiver.s.files, PartOf(files[id].path));
                  part.Some? && part.value.File? && from <= |files[id].content| && part.value.content == files[id].content[..from])
  {
    hide Play, IsAt, Reached, Sources, SenderAt, RepliesAre, AnswerOf, SendFrom, Leads;
    var y := Play(copy, acts).value;
    var far, pos := RunSound(copy, acts);
    assert (y.pipe + y.buf)[0] == y.pipe[0];
    LeadsTo(copy, far, y.pipe + y.buf, pos);
    PartIsPrefix(copy, far, y.receiver.s);
  }

  lemma PartIsPrefix(copy: Copy, far: Pos, s: State)
    requires Starts(copy) && IsAt(copy, far, s) && far.at.None? && HasFile(copy, far) && !copy.opts.dryRun
    ensures var h := FilesAt(copy, far)[far.m]; SentFile(copy, h.path) && Look(copy, h.path).value.content == h.content
    ensures var h := FilesAt(copy, far)[far.m];
            var from := SendFrom(h.content, AnswerOf(copy, h, far.m));
            from > 0 ==>
              && PartOf(h.path) in s.files && s.files[PartOf(h.path)].File?
              && s.files[PartOf(h.path)].content == h.content[..from]
  {
    hide Reached, Good, Logged, Sources, SetUp, OpensOk, SeenOk, PendingOk, ClosingOk, EntriesOk, Tallies;
    NextFileIs(copy, far.k, far.m);
    assert Stands(copy, far, s);
    PartBegins(copy, Reached(copy, far.k), far.m, s);
  }
}
