/** A header received keeps the state what it should be: one lemma for each kind. */
module HeadSteps {
  import opened Bytes
  import opened Files
  import opened Walk
  import opened Course
  import opened Receive
  import opened Closing
  import opened Landing
  import opened LandFacts
  import opened Heads

  /** A step of the walk from `w` that sends an entry's header. */
  ghost predicate SendsHead(copy: Copy, w: Walk, m: nat) {
    && Starts(copy) && Good(copy, w) && Logged(copy, w) && Goes(copy, w) && m <= |w.files|
    && !NextHead(copy, w).EndHead?
  }

  lemma HeadClosing(copy: Copy, w: Walk, m: nat, s: State, t: State)
    requires SendsHead(copy, w, m) && ClosingOk(copy, w, m, s) && t.closing == s.closing
    ensures ClosingOk(copy, Next(copy, w), m, t)
  {
    forall d ensures (Ended(copy, Next(copy, w), d) <==> Ended(copy, w, d))
                     && (Closed(copy, Next(copy, w), m, d) <==> Closed(copy, w, m, d))
    {
      StepEnded(copy, w, d);
      HeadClosed(copy, w, m, d);
    }
  }

  lemma HeadPendingSame(copy: Copy, w: Walk, m: nat, s: State, t: State)
    requires SendsHead(copy, w, m) && PendingOk(copy, w, m, s) && t.pending == s.pending
    requires !NextHead(copy, w).FileHead?
    ensures PendingOk(copy, Next(copy, w), m, t)
  {
    NextFiles(copy, w);
  }

  /** The directory an entry is sent in has not closed. */
  lemma InNotClosed(copy: Copy, w: Walk, m: nat)
    requires SendsHead(copy, w, m) && NextHead(copy, w).path != []
    ensures !Closed(copy, w, m, Parent(NextHead(copy, w).path))
  {
    HeadSays(copy, w);
    if w.frames != [] {
      assert w.frames[|w.frames| - 1].path == Parent(NextHead(copy, w).path);
    }
  }

  lemma HeadPart(copy: Copy, w: Walk, m: nat, files: Files, after: Files, p: Path)
    requires SendsHead(copy, w, m) && PartOk(copy, w, m, files, p)
    requires p != [] ==> Get(after, PartOf(p)) == Get(files, PartOf(p))
    ensures PartOk(copy, Next(copy, w), m, after, p)
  {
    var e := Next(copy, w);
    StepGone(copy, w, p);
    StepDone(copy, w, m, p);
    NextFiles(copy, w);
    if Gone(copy, w, p) {
      if j :| m <= j < |e.files| && e.files[j].path == p && NeedsPart(copy, e, j) {
        StepGone(copy, w, NextHead(copy, w).path);
        assert j < |w.files| && NeedsPart(copy, w, j);
      }
    }
  }

  /** A head that changes no entry. */
  lemma HeadLeaves(copy: Copy, w: Walk, m: nat, s: State, t: State)
    requires SendsHead(copy, w, m) && EntriesOk(copy, w, m, s) && s.opts == copy.opts
    requires t.files == s.files && t.times == s.times
    requires !copy.opts.dryRun ==>
               Expected(copy, Next(copy, w), m, NextHead(copy, w).path) == Get(copy.there, NextHead(copy, w).path)
    ensures EntriesOk(copy, Next(copy, w), m, t)
  {
    if !copy.opts.dryRun {
      var e, q := Next(copy, w), NextHead(copy, w).path;
      forall p ensures FileOk(copy, e, m, t.files, p) {
        assert FileOk(copy, w, m, s.files, p);
        if p == q { HeadLands(copy, w, m); } else { HeadExpected(copy, w, m, p); }
      }
      forall p ensures PartOk(copy, e, m, t.files, p) {
        assert PartOk(copy, w, m, s.files, p);
        HeadPart(copy, w, m, s.files, t.files, p);
      }
      forall d ensures TimeOk(copy, e, m, t, d) {
        assert TimeOk(copy, w, m, s, d);
        HeadClosed(copy, w, m, d);
      }
    }
  }

  /** A head that puts its entry at its path, and changes no other. */
  lemma HeadPuts(copy: Copy, w: Walk, m: nat, s: State, t: State)
    requires SendsHead(copy, w, m) && EntriesOk(copy, w, m, s) && !copy.opts.dryRun
    requires Whole(t.files) && NextHead(copy, w).path != []
    requires Get(t.files, NextHead(copy, w).path) == Expected(copy, Next(copy, w), m, NextHead(copy, w).path)
    requires forall p :: Plain(p) && p != NextHead(copy, w).path ==> Get(t.files, p) == Get(s.files, p)
    requires forall p :: SentFile(copy, p) && p != [] ==> Get(t.files, PartOf(p)) == Get(s.files, PartOf(p))
    requires TouchedAt(s.times, t.times, Parent(NextHead(copy, w).path))
    ensures EntriesOk(copy, Next(copy, w), m, t)
  {
    var e, q := Next(copy, w), NextHead(copy, w).path;
    forall p ensures FileOk(copy, e, m, t.files, p) {
      assert FileOk(copy, w, m, s.files, p);
      if p != q { HeadExpected(copy, w, m, p); }
    }
    forall p ensures PartOk(copy, e, m, t.files, p) {
      assert PartOk(copy, w, m, s.files, p);
      if SentFile(copy, p) && p != [] { HeadPart(copy, w, m, s.files, t.files, p); }
    }
    forall d ensures TimeOk(copy, e, m, t, d) {
      assert TimeOk(copy, w, m, s, d);
      TimeKept(s.times, t.times, Parent(q), d);
      HeadClosed(copy, w, m, d);
      InNotClosed(copy, w, m);
    }
  }

  /** All that a head keeps, from its parts. */
  lemma HeadKeeps(copy: Copy, k: nat, m: nat, s: State, t: State, names: set<Name>)
    requires Inv(copy, k, m, s) && Steps(copy, k) && SendsHead(copy, Reached(copy, k), m)
    requires Sent(copy, NextHead(copy, Reached(copy, k)).path)
    requires t.landing.None? && SetUp(copy, t)
    requires OpensAs(copy, Reached(copy, k), s, t, names)
    requires OpensOk(copy, Reached(copy, k + 1), t)
    requires PendingOk(copy, Reached(copy, k + 1), m, t)
    requires t.closing == s.closing
    requires EntriesOk(copy, Reached(copy, k + 1), m, t)
    ensures Inv(copy, k + 1, m, t)
  {
    var w := Reached(copy, k);
    assert Reached(copy, k + 1) == Next(copy, w);
    NextFiles(copy, w);
    HeadClosing(copy, w, m, s, t);
    forall i ensures SeenOk(copy, Next(copy, w), m, t, i) {
      assert SeenOk(copy, w, m, s, i);
      HeadSeen(copy, w, m, s, t, names, i);
    }
  }

  // ---- a directory ---------------------------------------------------------------------------------

  lemma EnterTargetStep(copy: Copy, k: nat, m: nat, s: State)
    requires Inv(copy, k, m, s) && Steps(copy, k) && SendsHead(copy, Reached(copy, k), m)
    requires NextHead(copy, Reached(copy, k)).ContentsHead? && copy.named.None?
    ensures var head := NextHead(copy, Reached(copy, k));
            Inv(copy, k + 1, m, EnterTarget(s, head.mtime))
  {
    var w := Reached(copy, k);
    var head := NextHead(copy, w);
    var t := EnterTarget(s, head.mtime);
    HeadSays(copy, w);
    HeadLands(copy, w, m);
    assert Reached(copy, k + 1) == Next(copy, w);
    assert w.frames == [] && head.path == [];
    assert Noting(s.open, {}) == s.open == [];
    assert FolderFor(copy, []) == Folder([], true, None, if copy.opts.keepTimes then head.mtime else None, Inside(TOP));
    assert t.open == Noting(s.open, {}) + PushedOn(copy, head.path);
    HeadOpens(copy, w, s, t, {});
    HeadPendingSame(copy, w, m, s, t);
    HeadLeaves(copy, w, m, s, t);
    HeadKeeps(copy, k, m, s, t, {});
  }

  /** Nothing is under what is no directory. */
  lemma NothingUnder(files: Files, q: Path, p: Path)
    requires Whole(files) && q <= p && q != p && !IsDir(files, q)
    ensures p !in files
  {
    if p in files { WholeAbove(files, q, p); }
  }

  /** An entry put where its directory is keeps the tree whole. */
  lemma PutWhole(files: Files, q: Path, entry: Entry)
    requires Whole(files) && q != [] && IsDir(files, Parent(q))
    requires IsDir(files, q) ==> entry.Dir?
    ensures Whole(files[q := entry])
  {
    var after := files[q := entry];
    forall p | p in after && p != [] ensures IsDir(after, Parent(p)) {
      assert p != q ==> IsDir(files, Parent(p));
    }
  }

  /** The directory an entry is sent in is there. */
  lemma InIsThere(copy: Copy, w: Walk, m: nat, s: State)
    requires SendsHead(copy, w, m) && EntriesOk(copy, w, m, s) && !copy.opts.dryRun
    requires NextHead(copy, w).path != []
    ensures IsDir(s.files, Parent(NextHead(copy, w).path))
  {
    var q := NextHead(copy, w).path;
    HeadSays(copy, w);
    if w.frames == [] {
      assert |q| == Base(copy);
      assert Parent(q) == [];
    } else {
      var d := Parent(q);
      assert d == Last(w.frames).path;
      assert GoodFrame(copy, w.frames[|w.frames| - 1]);
      OpenGone(copy, w);
      SentProper(copy, d);
      assert FileOk(copy, w, m, s.files, d);
    }
  }

  lemma EnterStep(copy: Copy, k: nat, m: nat, s: State, mode: nat, mtime: Option<nat>)
    requires Inv(copy, k, m, s) && Steps(copy, k) && SendsHead(copy, Reached(copy, k), m)
    requires var head := NextHead(copy, Reached(copy, k));
             && (head.DirHead? || (head.ContentsHead? && copy.named.Some?))
             && head.path != [] && Sent(copy, head.path) && mode == head.mode && mtime == head.mtime
             && Enter(PlacedIn(s), FolderIn(copy, head.path), Leaf(head.path), mode, mtime).Ok?
    ensures var head := NextHead(copy, Reached(copy, k));
            Inv(copy, k + 1, m, Enter(PlacedIn(s), FolderIn(copy, head.path), Leaf(head.path), mode, mtime).value)
  {
    hide Good, Logged, Sources, Goes, EntriesOk, ClosingOk, SeenOk, Steps, OpensOk, PendingOk;
    var w := Reached(copy, k);
    var q := NextHead(copy, w).path;
    var t := Enter(PlacedIn(s), FolderIn(copy, q), Leaf(q), mode, mtime).value;
    var saw := Saw(PlacedIn(s), Leaf(q)).value;
    HeadSays(copy, w);
    SawNotes(PlacedIn(s), Leaf(q));
    StepGone(copy, w, q);
    StatsThere(copy, k, m, s, q);
    assert t == Entering(saw, FolderIn(copy, q), Leaf(q), mode, mtime, Get(copy.there, q));
    EnteringIs(copy, q, saw, mode, mtime);
    EnteredKeeps(copy, k, m, s, saw, t);
  }

  lemma EnteredKeeps(copy: Copy, k: nat, m: nat, s: State, saw: State, t: State)
    requires Inv(copy, k, m, s) && Steps(copy, k) && SendsHead(copy, Reached(copy, k), m)
    requires var q := NextHead(copy, Reached(copy, k)).path;
             && q != [] && SentDir(copy, q)
             && saw == PlacedIn(s).(open := Noting(s.open, {Leaf(q)}), seen := saw.seen)
             && Enters(copy, q, saw, t)
             && (FolderIn(copy, q).present ==> Get(s.files, q) == Get(copy.there, q))
    ensures Inv(copy, k + 1, m, t)
  {
    hide Good, Logged, Sources, EntriesOk, PendingOk, ClosingOk, OpensOk, SeenOk;
    var w := Reached(copy, k);
    var q := NextHead(copy, w).path;
    assert Reached(copy, k + 1) == Next(copy, w);
    HeadSays(copy, w);
    assert t.open == Noting(s.open, {Leaf(q)}) + PushedOn(copy, q);
    HeadOpens(copy, w, s, t, {Leaf(q)});
    HeadPendingSame(copy, w, m, s, t);
    if !copy.opts.dryRun { assert FolderIn(copy, q).present; }
    EnterEntries(copy, w, m, s, saw, t);
    HeadKeeps(copy, k, m, s, t, {Leaf(q)});
  }

  /** What entering the directory `q` does, there or not. */
  ghost predicate Enters(copy: Copy, q: Path, s: State, t: State)
    requires SentDir(copy, q) && q != []
  {
    && t == Opened(s, FolderFor(copy, q)).(files := t.files, times := t.times, summary := t.summary)
    && (copy.opts.dryRun || IsDir(copy.there, q) ==> t.files == s.files && t.times == s.times)
    && (!copy.opts.dryRun && !IsDir(copy.there, q) ==>
          && TouchedAt(s.times, t.times, Parent(q))
          && t.files == (if q in copy.there then WithoutAll(s.files, {q}) else s.files)[q := Dir(0x1c0)])
  }

  lemma FolderEntered(copy: Copy, q: Path)
    requires Starts(copy) && SentDir(copy, q) && q != []
    ensures var node := Look(copy, q).value;
            EnteredFolder(copy.opts, FolderIn(copy, q), Leaf(q), node.mode, node.mtime, Made(copy, q)) == FolderFor(copy, q)
  {
    PathInFolder(copy, q, Leaf(q));
    if q in copy.there { PresentAbove(copy, q); }
  }

  lemma EnteringIs(copy: Copy, q: Path, s: State, mode: nat, mtime: Option<nat>)
    requires Starts(copy) && SentDir(copy, q) && q != [] && s.opts == copy.opts
    requires Look(copy, q).value.mode == mode && Look(copy, q).value.mtime == mtime
    ensures Enters(copy, q, s, Entering(s, FolderIn(copy, q), Leaf(q), mode, mtime, Get(copy.there, q)))
  {
    FolderEntered(copy, q);
    PathInFolder(copy, q, Leaf(q));
    InFolderPath(copy, q);
    if Made(copy, q) { MakingIs(copy, q, s); }
  }

  lemma MakingIs(copy: Copy, q: Path, s: State)
    requires Starts(copy) && SentDir(copy, q) && q != [] && s.opts == copy.opts
    ensures var t := Making(s, FolderIn(copy, q), q, Get(copy.there, q));
            && t == s.(files := t.files, times := t.times, summary := t.summary)
            && (copy.opts.dryRun ==> t.files == s.files && t.times == s.times)
            && (!copy.opts.dryRun ==>
                  && TouchedAt(s.times, t.times, Parent(q))
                  && t.files == (if q in copy.there then WithoutAll(s.files, {q}) else s.files)[q := Dir(0x1c0)])
  {
    InFolderPath(copy, q);
  }

  lemma PresentAbove(copy: Copy, q: Path)
    requires Starts(copy) && Sent(copy, q) && q != [] && q in copy.there
    ensures FolderIn(copy, q).present
  {
    if |q| > Base(copy) { UpIsSent(copy, q); }
  }

  lemma EnterEntries(copy: Copy, w: Walk, m: nat, s: State, saw: State, t: State)
    requires SendsHead(copy, w, m) && EntriesOk(copy, w, m, s) && s.opts == copy.opts
    requires SentDir(copy, NextHead(copy, w).path) && NextHead(copy, w).path != []
    requires !copy.opts.dryRun ==> Get(s.files, NextHead(copy, w).path) == Get(copy.there, NextHead(copy, w).path)
    requires saw.files == s.files && saw.times == s.times
    requires Enters(copy, NextHead(copy, w).path, saw, t)
    ensures EntriesOk(copy, Next(copy, w), m, t)
  {
    var q := NextHead(copy, w).path;
    HeadLands(copy, w, m);
    if copy.opts.dryRun || IsDir(copy.there, q) {
      HeadLeaves(copy, w, m, s, t);
    } else {
      MadeEntries(copy, w, m, s, t, if q in copy.there then WithoutAll(s.files, {q}) else s.files);
    }
  }

  lemma MadeEntries(copy: Copy, w: Walk, m: nat, s: State, t: State, cleared: Files)
    requires SendsHead(copy, w, m) && EntriesOk(copy, w, m, s) && !copy.opts.dryRun
    requires NextHead(copy, w).path != []
    requires var q := NextHead(copy, w).path;
             && !IsDir(s.files, q) && Expected(copy, Next(copy, w), m, q) == Some(Dir(0x1c0))
             && (cleared == s.files || cleared == WithoutAll(s.files, {q}))
             && t.files == cleared[q := Dir(0x1c0)]
             && TouchedAt(s.times, t.times, Parent(q))
    ensures EntriesOk(copy, Next(copy, w), m, t)
  {
    var q := NextHead(copy, w).path;
    InIsThere(copy, w, m, s);
    ClearedSame(s.files, cleared, q);
    ClearedWhole(s.files, cleared, q);
    PutWhole(cleared, q, Dir(0x1c0));
    HeadLands(copy, w, m);
    PartsElsewhere(copy, q);
    forall p | p != q ensures Get(t.files, p) == Get(s.files, p) {}
    HeadPuts(copy, w, m, s, t);
  }

  lemma PartsElsewhere(copy: Copy, q: Path)
    requires Plain(q)
    ensures forall p :: SentFile(copy, p) && p != [] ==> PartOf(p) != q
  {
    forall p | SentFile(copy, p) && p != [] ensures PartOf(p) != q { PartsDiffer(p, p); }
  }

  lemma ClearedSame(files: Files, cleared: Files, q: Path)
    requires Whole(files) && !IsDir(files, q) && q != []
    requires cleared == files || cleared == WithoutAll(files, {q})
    ensures forall p :: p != q ==> Get(cleared, p) == Get(files, p)
    ensures q !in cleared || Get(cleared, q) == Get(files, q)
    ensures !IsDir(cleared, q) && IsDir(cleared, Parent(q)) == IsDir(files, Parent(q))
  {
    forall p | p != q ensures Get(cleared, p) == Get(files, p) {
      if q <= p { NothingUnder(files, q, p); }
      assert Below({q}, p) <==> q <= p;
    }
    assert Parent(q) != q;
    assert Get(cleared, Parent(q)) == Get(files, Parent(q));
  }

  lemma ClearedWhole(files: Files, cleared: Files, q: Path)
    requires Whole(files) && q != [] && !IsDir(files, q)
    requires forall p :: p != q ==> Get(cleared, p) == Get(files, p)
    requires q !in cleared || Get(cleared, q) == Get(files, q)
    ensures Whole(cleared)
  {
    assert Get(cleared, []) == Get(files, []);
    forall p | p in cleared && p != [] ensures IsDir(cleared, Parent(p)) {
      assert Get(cleared, p) == Get(files, p);
      assert IsDir(files, Parent(p));
      assert Get(cleared, Parent(p)) == Get(files, Parent(p));
    }
  }
}
