/** Closing what can close brings the state to what it should be, whatever ended or came before. */
module Settling {
  import opened Bytes
  import opened Files
  import opened Walk
  import opened Course
  import opened Receive
  import opened Closing
  import opened Landing
  import opened LandFacts

  /** Whether the directory at `p` waits to close. */
  predicate Waiting(s: State, p: Path) {
    exists f :: f in s.closing && f.path == p
  }

  /** The directories waiting, some of which can close. */
  ghost predicate ClosingPre(copy: Copy, w: Walk, m: nat, s: State) {
    if copy.opts.dryRun then s.closing == []
    else
      && DistinctPaths(s.closing)
      && (forall f :: f in s.closing ==> Ended(copy, w, f.path) && f == FolderFor(copy, f.path))
      && (forall d :: Ended(copy, w, d) && !Closed(copy, w, m, d) ==> FolderFor(copy, d) in s.closing)
  }

  ghost predicate FilePre(copy: Copy, w: Walk, m: nat, s: State, p: Path) {
    Plain(p) ==> Get(s.files, p) == ExpectedWith(copy, w, m, p, Closed(copy, w, m, p) && !Waiting(s, p))
  }

  ghost predicate TimePre(copy: Copy, w: Walk, m: nat, s: State, d: Path) {
    if copy.opts.keepTimes && Closed(copy, w, m, d) && !Waiting(s, d) && Look(copy, d).value.mtime.Some?
    then TimeAt(s.times, d) == Some(At(Look(copy, d).value.mtime.value))
    else !TimeSet(s.times, d)
  }

  ghost predicate EntriesPre(copy: Copy, w: Walk, m: nat, s: State) {
    if copy.opts.dryRun then s.files == copy.there
    else
      && Whole(s.files)
      && (forall p :: FilePre(copy, w, m, s, p))
      && (forall p :: PartOk(copy, w, m, s.files, p))
      && (forall d :: TimePre(copy, w, m, s, d))
  }

  /** The state it should be, but that some directories can close. */
  ghost predicate InvPre(copy: Copy, w: Walk, m: nat, s: State) {
    && m <= |w.files| && s.landing.None?
    && SetUp(copy, s) && OpensOk(copy, w, s) && (forall i :: SeenOk(copy, w, m, s, i))
    && PendingOk(copy, w, m, s) && ClosingPre(copy, w, m, s) && EntriesPre(copy, w, m, s)
  }

  /** The walk and the receiver, as far as closing looks at them. */
  ghost predicate Under(copy: Copy, w: Walk, m: nat, s: State) {
    && Sources(copy) && Good(copy, w) && Logged(copy, w) && m <= |w.files| && s.opts == copy.opts
    && OpensOk(copy, w, s) && PendingOk(copy, w, m, s)
  }

  /** A directory that ended is held by something under way exactly if a file under it is. */
  lemma BusyIs(copy: Copy, w: Walk, m: nat, s: State, d: Path)
    requires Under(copy, w, m, s) && Ended(copy, w, d)
    ensures Busy(s, FolderFor(copy, d)) <==> !Closed(copy, w, m, d)
  {
    forall i | 0 <= i < |s.open| ensures !Within(s.open[i].folder, FolderFor(copy, d)) {
      FoldersWithin(copy, w.frames[i].path, d);
      SentLength(copy, d);
      if d <= w.frames[i].path { AboveOpen(copy, w, d, i); }
    }
    forall i | m <= i < |w.files|
      ensures i in s.pending && (Within(s.pending[i].folder, FolderFor(copy, d)) <==> d <= w.files[i].path)
    {
      PendingWithin(copy, w, m, s, i, d);
    }
  }

  lemma PendingWithin(copy: Copy, w: Walk, m: nat, s: State, i: nat, d: Path)
    requires Logged(copy, w) && PendingOk(copy, w, m, s) && m <= i < |w.files| && SentDir(copy, d)
    ensures Within(s.pending[i].folder, FolderFor(copy, d)) <==> d <= w.files[i].path
  {
    assert GoodLog(copy, w, i);
    InFolder(copy, w.files[i].path, d);
  }

  lemma ClosedPlain(copy: Copy, w: Walk, d: Path)
    requires Sources(copy) && Ended(copy, w, d)
    ensures Plain(d)
  {
    SentProper(copy, d);
  }

  /** What a directory that closes turns into. */
  lemma ClosesInto(copy: Copy, w: Walk, m: nat, d: Path)
    requires Starts(copy) && Closed(copy, w, m, d) && !copy.opts.dryRun
    ensures ExpectedWith(copy, w, m, d, true) == ClosedEntry(FolderFor(copy, d), ExpectedWith(copy, w, m, d, false))
  {
  }

  lemma SettlesIs(copy: Copy, w: Walk, m: nat, s: State, p: Path)
    requires Under(copy, w, m, s) && ClosingPre(copy, w, m, s) && !copy.opts.dryRun
    ensures Settles(s, p) <==> Closed(copy, w, m, p) && Waiting(s, p)
  {
    if f :| f in s.closing && f.path == p {
      BusyIs(copy, w, m, s, p);
      forall g | g in s.closing && g.path == p ensures g == f {}
    }
  }

  lemma PathSettled(copy: Copy, w: Walk, m: nat, s: State, p: Path)
    requires Starts(copy) && Under(copy, w, m, s) && ClosingPre(copy, w, m, s) && !copy.opts.dryRun
    requires FilePre(copy, w, m, s, p)
    ensures FileOk(copy, w, m, CloseReady(s).files, p)
    ensures !Settles(s, p) ==> Get(CloseReady(s).files, p) == Get(s.files, p)
    ensures Get(CloseReady(s).files, p).Some? <==> Get(s.files, p).Some?
    ensures IsDir(CloseReady(s).files, p) <==> IsDir(s.files, p)
  {
    SettlesIs(copy, w, m, s, p);
    if Settles(s, p) {
      BusyIs(copy, w, m, s, p);
      CloseReadyIs(s, FolderFor(copy, p), p);
      ClosesInto(copy, w, m, p);
    } else {
      CloseReadyIs(s, TOP, p);
    }
  }

  lemma TimeSettled(copy: Copy, w: Walk, m: nat, s: State, d: Path)
    requires Under(copy, w, m, s) && ClosingPre(copy, w, m, s) && !copy.opts.dryRun
    requires TimePre(copy, w, m, s, d)
    ensures TimeOk(copy, w, m, CloseReady(s), d)
  {
    SettlesIs(copy, w, m, s, d);
    if Settles(s, d) {
      BusyIs(copy, w, m, s, d);
      CloseReadyIs(s, FolderFor(copy, d), d);
    } else {
      CloseReadyIs(s, TOP, d);
    }
  }

  lemma WaitingSettled(copy: Copy, w: Walk, m: nat, s: State)
    requires Under(copy, w, m, s) && ClosingPre(copy, w, m, s) && !copy.opts.dryRun
    ensures ClosingOk(copy, w, m, CloseReady(s))
  {
    var t := CloseReady(s);
    CloseReadyIs(s, TOP, []);
    forall i | 0 <= i < |t.closing|
      ensures Ended(copy, w, t.closing[i].path) && !Closed(copy, w, m, t.closing[i].path)
      ensures t.closing[i] == FolderFor(copy, t.closing[i].path)
    {
      var f := t.closing[i];
      CloseReadyIs(s, f, []);
      BusyIs(copy, w, m, s, f.path);
    }
    forall d | Ended(copy, w, d) && !Closed(copy, w, m, d) ensures FolderFor(copy, d) in t.closing {
      BusyIs(copy, w, m, s, d);
      CloseReadyIs(s, FolderFor(copy, d), []);
    }
  }

  lemma DrySettled(s: State)
    requires s.closing == []
    ensures CloseReady(s) == s
  {
  }

  lemma PartSettled(copy: Copy, w: Walk, m: nat, s: State, p: Path)
    requires Under(copy, w, m, s) && ClosingPre(copy, w, m, s) && !copy.opts.dryRun
    requires PartOk(copy, w, m, s.files, p)
    ensures PartOk(copy, w, m, CloseReady(s).files, p)
  {
    if p != [] {
      PartsDiffer(p, p);
      SettlesIs(copy, w, m, s, PartOf(p));
      if Closed(copy, w, m, PartOf(p)) {
        ClosedPlain(copy, w, PartOf(p));
      } else {
        CloseReadyIs(s, TOP, PartOf(p));
      }
    }
  }

  /** The tree stays whole: closing makes and removes nothing. */
  lemma WholeSettled(s: State)
    requires DistinctPaths(s.closing) && Whole(s.files)
    ensures Whole(CloseReady(s).files)
  {
    forall p
      ensures Get(CloseReady(s).files, p).Some? <==> Get(s.files, p).Some?
      ensures IsDir(CloseReady(s).files, p) <==> IsDir(s.files, p)
    {
      SameThere(s, p);
    }
    forall p | p in CloseReady(s).files && p != [] ensures IsDir(CloseReady(s).files, Parent(p)) {
      assert Get(CloseReady(s).files, p).Some? <==> Get(s.files, p).Some?;
    }
  }

  lemma SameThere(s: State, p: Path)
    requires DistinctPaths(s.closing)
    ensures Get(CloseReady(s).files, p).Some? <==> Get(s.files, p).Some?
    ensures IsDir(CloseReady(s).files, p) <==> IsDir(s.files, p)
  {
    if Settles(s, p) {
      var f :| f in s.closing && !Busy(s, f) && f.path == p;
      CloseReadyIs(s, f, p);
    } else {
      CloseReadyIs(s, TOP, p);
    }
  }

  /** Closing what can close: the entries are as expected, and the directories that wait are those
      that should. */
  lemma AfterClosing(copy: Copy, w: Walk, m: nat, s: State)
    requires Starts(copy) && Under(copy, w, m, s) && ClosingPre(copy, w, m, s) && EntriesPre(copy, w, m, s)
    ensures ClosingOk(copy, w, m, CloseReady(s)) && EntriesOk(copy, w, m, CloseReady(s))
    ensures var t := CloseReady(s); t == s.(closing := t.closing, files := t.files, times := t.times)
  {
    if copy.opts.dryRun {
      DrySettled(s);
    } else {
      CloseReadyIs(s, TOP, []);
      WaitingSettled(copy, w, m, s);
      WholeSettled(s);
      forall p ensures FileOk(copy, w, m, CloseReady(s).files, p) && PartOk(copy, w, m, CloseReady(s).files, p) {
        assert FilePre(copy, w, m, s, p) && PartOk(copy, w, m, s.files, p);
        PathSettled(copy, w, m, s, p);
        PartSettled(copy, w, m, s, p);
      }
      forall d ensures TimeOk(copy, w, m, CloseReady(s), d) {
        assert TimePre(copy, w, m, s, d);
        TimeSettled(copy, w, m, s, d);
      }
    }
  }

  lemma SettledKeeps(copy: Copy, k: nat, m: nat, t: State)
    requires InvPre(copy, Reached(copy, k), m, t)
    requires ClosingOk(copy, Reached(copy, k), m, CloseReady(t)) && EntriesOk(copy, Reached(copy, k), m, CloseReady(t))
    requires var u := CloseReady(t); u == t.(closing := u.closing, files := u.files, times := u.times)
    ensures Inv(copy, k, m, CloseReady(t))
  {
    forall i ensures SeenOk(copy, Reached(copy, k), m, CloseReady(t), i) {
      assert SeenOk(copy, Reached(copy, k), m, t, i);
    }
  }

  /** Once what can close closed, the state is what it should be. */
  lemma ClosingKeeps(copy: Copy, k: nat, m: nat, t: State)
    requires Starts(copy) && InvPre(copy, Reached(copy, k), m, t)
    ensures Inv(copy, k, m, CloseReady(t))
  {
    ReachedGood(copy, k);
    AfterClosing(copy, Reached(copy, k), m, t);
    SettledKeeps(copy, k, m, t);
  }
}
