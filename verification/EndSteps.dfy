/** A directory's End received: what the sender did not send goes, and what can close closes. */
module EndSteps {
  import opened Bytes
  import opened Files
  import opened Walk
  import opened Course
  import opened Receive
  import opened Closing
  import opened Landing
  import opened Settling

  /** A step of the walk from `w` that ends a directory. */
  ghost predicate SendsEnd(copy: Copy, w: Walk, m: nat) {
    && Starts(copy) && Good(copy, w) && Logged(copy, w) && Goes(copy, w) && m <= |w.files|
    && NextHead(copy, w).EndHead?
  }

  lemma EndIs(copy: Copy, w: Walk, m: nat)
    requires SendsEnd(copy, w, m)
    ensures w.frames != [] && Last(w.frames).rest == []
    ensures NextHead(copy, w).path == Last(w.frames).path && Next(copy, w) == w.(frames := Front(w.frames))
    ensures SentDir(copy, Last(w.frames).path) && !Ended(copy, w, Last(w.frames).path) && Plain(Last(w.frames).path)
    ensures Gone(copy, w, Last(w.frames).path) && |Last(w.frames).path| >= Base(copy)
  {
    NextIs(copy, w);
    OpenGone(copy, w);
    StepEnded(copy, w, Last(w.frames).path);
    SentProper(copy, Last(w.frames).path);
  }

  /** All that is sent into the directory ending has gone. */
  lemma SentIntoGone(copy: Copy, w: Walk, m: nat, n: Name)
    requires SendsEnd(copy, w, m) && w.frames != [] && Sent(copy, Last(w.frames).path + [n])
    ensures Gone(copy, w, Last(w.frames).path + [n])
  {
    EndIs(copy, w, m);
    var d := Last(w.frames).path;
    var q := d + [n];
    assert q[..Base(copy)] == d[..Base(copy)];
    forall i | 0 <= i < |w.frames| ensures !Owes(w.frames[i], q) {
      if i < |w.frames| - 1 {
        assert |w.frames[i].path| < |d| && q[|w.frames[i].path|] == d[|w.frames[i].path|];
      }
    }
  }

  lemma EndGone(copy: Copy, w: Walk, m: nat, p: Path)
    requires SendsEnd(copy, w, m)
    ensures Gone(copy, Next(copy, w), p) <==> Gone(copy, w, p)
    ensures FileDone(Next(copy, w), m, p) <==> FileDone(w, m, p)
    ensures Next(copy, w).files == w.files
  {
    StepGone(copy, w, p);
    NextFiles(copy, w);
  }

  lemma EndClosed(copy: Copy, w: Walk, m: nat, d: Path)
    requires SendsEnd(copy, w, m)
    ensures d != NextHead(copy, w).path ==>
              && (Ended(copy, Next(copy, w), d) <==> Ended(copy, w, d))
              && (Closed(copy, Next(copy, w), m, d) <==> Closed(copy, w, m, d))
    ensures d == NextHead(copy, w).path ==> Ended(copy, Next(copy, w), d) && !Ended(copy, w, d)
  {
    StepEnded(copy, w, d);
    NextFiles(copy, w);
  }

  // ---- what the directory loses ------------------------------------------------------------------

  /** What goes with the directory ending. */
  ghost predicate Goner(copy: Copy, d: Path, p: Path) {
    && copy.opts.delete && d <= p && d != p && !Sent(copy, p[..|d| + 1])
    && !Skips(copy.opts, p[|d|], RelOf(copy, p[..|d| + 1]))
  }

  lemma EndSwept(copy: Copy, w: Walk, m: nat, p: Path)
    requires SendsEnd(copy, w, m)
    ensures Swept(copy, Next(copy, w), p) <==> Swept(copy, w, p) || Goner(copy, NextHead(copy, w).path, p)
  {
    var d := NextHead(copy, w).path;
    forall n: nat | n < |p| && p[..n] != d ensures SweptAt(copy, Next(copy, w), p, n) <==> SweptAt(copy, w, p, n) {
      StepEnded(copy, w, p[..n]);
    }
    if d <= p && d != p {
      StepEnded(copy, w, d);
      assert p[..|d|] == d;
      assert !SweptAt(copy, w, p, |d|);
      assert Goner(copy, d, p) <==> copy.opts.delete && SweptAt(copy, Next(copy, w), p, |d|);
    }
    if n: nat :| SweptAt(copy, Next(copy, w), p, n) {
      assert n < |p|;
      if p[..n] == d { assert |d| == n; }
    }
    if n: nat :| SweptAt(copy, w, p, n) { assert p[..n] != d; }
  }

  /** The receiver's innermost directory is the one that ends, and it noted what came into it. */
  lemma LastOpen(copy: Copy, w: Walk, m: nat, s: State)
    requires SendsEnd(copy, w, m) && OpensOk(copy, w, s) && s.open != []
    ensures Last(s.open).folder.path == NextHead(copy, w).path && (Last(s.open).seen.Some? <==> copy.opts.delete)
  {
    hide Good, Goes, Logged, Starts, NextHead, Next, Gone;
    EndIs(copy, w, m);
    assert s.open[|w.frames| - 1].folder == FolderFor(copy, w.frames[|w.frames| - 1].path);
  }

  /** All that is sent into it, and nothing else, is noted. */
  lemma NotedIs(copy: Copy, w: Walk, m: nat, s: State, n: Name)
    requires SendsEnd(copy, w, m) && OpensOk(copy, w, s) && s.open != [] && SeenOk(copy, w, m, s, |w.frames| - 1)
    requires !IsPart(n) && Last(s.open).seen.Some?
    ensures n in Last(s.open).seen.value <==> Sent(copy, NextHead(copy, w).path + [n])
  {
    hide Good, Goes, Logged, Starts, NextHead, Next, NeedsPart;
    EndIs(copy, w, m);
    var q := NextHead(copy, w).path + [n];
    if Sent(copy, q) { SentIntoGone(copy, w, m, n); }
    assert n in s.open[|w.frames| - 1].seen.value <==> Gone(copy, w, q);
  }

  /** What the receiver removes as the directory ends is what should go. */
  lemma UnsentIs(copy: Copy, w: Walk, m: nat, s: State, q: Path)
    requires SendsEnd(copy, w, m) && OpensOk(copy, w, s) && s.opts == copy.opts && s.open != []
    requires SeenOk(copy, w, m, s, |w.frames| - 1)
    requires Last(s.open).folder.present && q in s.files && Plain(q)
    ensures q in Unsent(s, Last(s.open)) <==> |q| == |NextHead(copy, w).path| + 1 && Goner(copy, NextHead(copy, w).path, q)
  {
    hide Goes, Logged, Starts, Next, NextHead, NeedsPart, Ended, Closed, SeenOk, OpensOk, Good, Gone, Skips, RelTo, RelOf, Sent, FolderFor;
    EndIs(copy, w, m);
    LastOpen(copy, w, m, s);
    var d := NextHead(copy, w).path;
    if |q| == |d| + 1 && d <= q && copy.opts.delete {
      assert q == d + [q[|d|]] && q[..|d| + 1] == q;
      NotedIs(copy, w, m, s, q[|d|]);
      TreeIs(copy, w, s, q);
    }
  }

  lemma TreeIs(copy: Copy, w: Walk, s: State, q: Path)
    requires Good(copy, w) && OpensOk(copy, w, s) && w.frames != [] && Last(w.frames).path <= q
    ensures RelTo(s.tree, q) == RelOf(copy, q)
  {
    var last := |w.frames| - 1;
    assert |w.frames[0].path| == Base(copy);
    assert w.frames[0].path <= w.frames[last].path;
  }

  /** Of the entries outside the parts, exactly those that should go, go. */
  lemma BelowUnsent(copy: Copy, w: Walk, m: nat, s: State, p: Path)
    requires SendsEnd(copy, w, m) && OpensOk(copy, w, s) && s.opts == copy.opts && s.open != []
    requires SeenOk(copy, w, m, s, |w.frames| - 1) && Whole(s.files)
    requires Last(s.open).folder.present && p in s.files && Plain(p)
    ensures Below(Unsent(s, Last(s.open)), p) <==> Goner(copy, NextHead(copy, w).path, p)
  {
    hide Good, Goes, Logged, Sources, Starts, Next, NeedsPart, SeenOk, RelTo, RelOf, Gone;
    EndIs(copy, w, m);
    var d := NextHead(copy, w).path;
    var tops := Unsent(s, Last(s.open));
    assert s.open[|w.frames| - 1].folder == FolderFor(copy, d);
    if d <= p && d != p {
      var q := p[..|d| + 1];
      assert q[..|d| + 1] == q && q[|d|] == p[|d|] && d <= q;
      if q != p { WholeAbove(s.files, q, p); }
      UnsentIs(copy, w, m, s, q);
    }
    if t :| t in tops && t <= p {
      assert d <= t && |t| == |d| + 1;
      assert p[..|d|] == t[..|d|] == d;
      assert t == p[..|d| + 1];
    }
  }

  // ---- the parts that are kept -------------------------------------------------------------------

  /** A part that may be gone on from stays, and one that may not go. */
  lemma PartStays(copy: Copy, w: Walk, m: nat, s: State, p: Path)
    requires SendsEnd(copy, w, m) && OpensOk(copy, w, s) && s.opts == copy.opts && s.open != []
    requires SeenOk(copy, w, m, s, |w.frames| - 1)
    requires SentFile(copy, p) && p != [] && Spared(copy, w, m, p)
    ensures !Below(Unsent(s, Last(s.open)), PartOf(p))
  {
    hide Good, Goes, Logged, Sources, Starts, NextHead, Next, Gone, Look, PendingOk, AnswerOf, NeedsPart, SeenOk, MayGo, Skips, RelTo,
      RelOf, OpensOk;
    LastOpen(copy, w, m, s);
    EndIs(copy, w, m);
    var d := NextHead(copy, w).path;
    forall t | t in Unsent(s, Last(s.open)) ensures !(t <= PartOf(p)) {
      if t <= PartOf(p) {
        TreeIs(copy, w, s, t);
        if t == PartOf(p) && !MayGo(copy, p) {
          KeptPart(copy, p, d);
        } else if t == PartOf(p) {
          PartTop(copy, w, m, s, p);
        } else {
          assert t == p[..|t|];
          UpSeen(copy, w, m, s, p, t);
        }
      }
    }
  }

  lemma KeptPart(copy: Copy, p: Path, d: Path)
    requires p != [] && !MayGo(copy, p) && copy.opts.delete && |d| >= Base(copy) && |PartOf(p)| == |d| + 1
    ensures Skips(copy.opts, PartOf(p)[|d|], RelOf(copy, PartOf(p)))
  {
    hide Skips, RelOf;
  }

  lemma UpSeen(copy: Copy, w: Walk, m: nat, s: State, p: Path, t: Path)
    requires SendsEnd(copy, w, m) && OpensOk(copy, w, s) && s.open != [] && copy.opts.delete
    requires SeenOk(copy, w, m, s, |w.frames| - 1)
    requires Sent(copy, p) && t <= p && |t| == |NextHead(copy, w).path| + 1 && NextHead(copy, w).path <= t
    ensures Last(s.open).seen.Some? && t[|t| - 1] in Last(s.open).seen.value
  {
    EndIs(copy, w, m);
    UpName(copy, w, m, p, t);
    SeenIn(copy, w, m, s, Leaf(t));
  }

  lemma UpName(copy: Copy, w: Walk, m: nat, p: Path, t: Path)
    requires SendsEnd(copy, w, m)
    requires Sent(copy, p) && t <= p && |t| == |NextHead(copy, w).path| + 1 && NextHead(copy, w).path <= t
    ensures t == NextHead(copy, w).path + [Leaf(t)] && !IsPart(Leaf(t)) && Gone(copy, w, t)
  {
    hide Good, Logged, Sources, Goes, Gone, Look;
    EndIs(copy, w, m);
    var d := NextHead(copy, w).path;
    SentAbove(copy, d, p);
    assert t == d + [Leaf(t)] && p[|d|] == Leaf(t);
    SentIntoGone(copy, w, m, Leaf(t));
    SentProper(copy, t);
  }

  lemma SeenIn(copy: Copy, w: Walk, m: nat, s: State, n: Name)
    requires w.frames != [] && OpensOk(copy, w, s) && copy.opts.delete
    requires SeenOk(copy, w, m, s, |w.frames| - 1) && !IsPart(n) && Gone(copy, w, Last(w.frames).path + [n])
    ensures s.open != [] && Last(s.open).seen.Some? && n in Last(s.open).seen.value
  {
    assert s.open[|w.frames| - 1].seen.Some?;
  }

  lemma PartTop(copy: Copy, w: Walk, m: nat, s: State, p: Path)
    requires SendsEnd(copy, w, m) && OpensOk(copy, w, s) && s.open != []
    requires SeenOk(copy, w, m, s, |w.frames| - 1)
    requires SentFile(copy, p) && p != [] && copy.opts.delete
    requires Gone(copy, w, p) ==> exists j :: m <= j < |w.files| && w.files[j].path == p && NeedsPart(copy, w, j)
    requires |p| == |NextHead(copy, w).path| + 1 && NextHead(copy, w).path <= PartOf(p)
    ensures Last(s.open).seen.Some? && PartOf(p)[|p| - 1] in Last(s.open).seen.value
  {
    hide Good, Goes, Logged, Sources, Starts, NextHead, Next, Gone, PendingOk, Look, AnswerOf;
    EndIs(copy, w, m);
    var d := NextHead(copy, w).path;
    assert Parent(p) == d by { assert PartOf(p)[..|d|] == Parent(p)[..|d|]; }
    assert p == d + [Leaf(p)];
    SentIntoGone(copy, w, m, Leaf(p));
    assert s.open[|w.frames| - 1].seen.Some?;
  }

  lemma WithoutAllWhole(files: Files, tops: set<Path>)
    requires Whole(files) && [] !in tops
    ensures Whole(WithoutAll(files, tops))
  {
    var after := WithoutAll(files, tops);
    forall p | p in after && p != [] ensures IsDir(after, Parent(p)) {
      assert forall q :: q in tops && q <= Parent(p) ==> q <= p;
    }
    assert forall q :: q in tops && q <= [] ==> q == [];
  }

  // ---- the state once it is left ---------------------------------------------------------------------

  /** What leaving changes. */
  lemma LeavingIs(s: State)
    requires s.open != []
    ensures var t, d := Leaving(s), Last(s.open);
            && t == s.(open := Front(s.open), seen := t.seen, files := t.files, times := t.times,
                       closing := t.closing, summary := t.summary)
            && (s.opts.dryRun ==> t.files == s.files && t.closing == s.closing)
            && (!s.opts.dryRun ==> t.files == WithoutAll(s.files, Unsent(s, d)) && t.closing == s.closing + [d.folder])
            && TouchedAt(s.times, t.times, d.folder.path)
  {
    var d := Last(s.open);
    if Unsent(s, d) == {} { assert WithoutAll(s.files, Unsent(s, d)) == s.files; }
  }

  lemma LeavingOpens(copy: Copy, w: Walk, m: nat, s: State, t: State)
    requires SendsEnd(copy, w, m) && OpensOk(copy, w, s) && s.open != [] && t.open == Front(s.open)
    requires t.placed == s.placed && t.tree == s.tree
    ensures OpensOk(copy, Next(copy, w), t)
  {
    EndIs(copy, w, m);
    assert forall i :: 0 <= i < |t.open| ==> t.open[i] == s.open[i] && Next(copy, w).frames[i] == w.frames[i];
  }

  lemma LeavingSeen(copy: Copy, w: Walk, m: nat, s: State, t: State, i: int)
    requires SendsEnd(copy, w, m) && OpensOk(copy, w, s) && s.open != [] && t.open == Front(s.open)
    requires SeenOk(copy, w, m, s, i)
    ensures SeenOk(copy, Next(copy, w), m, t, i)
  {
    var e := Next(copy, w);
    EndIs(copy, w, m);
    EndGone(copy, w, m, []);
    if 0 <= i < |e.frames| && i < |t.open| && t.open[i].seen.Some? {
      assert t.open[i] == s.open[i] && e.frames[i] == w.frames[i];
      forall n ensures Gone(copy, e, w.frames[i].path + [n]) <==> Gone(copy, w, w.frames[i].path + [n]) {
        EndGone(copy, w, m, w.frames[i].path + [n]);
      }
      forall j | 0 <= j < |w.files| ensures NeedsPart(copy, e, j) <==> NeedsPart(copy, w, j) {}
    }
  }

  lemma LeavingPending(copy: Copy, w: Walk, m: nat, s: State, t: State)
    requires SendsEnd(copy, w, m) && PendingOk(copy, w, m, s) && t.pending == s.pending
    ensures PendingOk(copy, Next(copy, w), m, t)
  {
    EndGone(copy, w, m, []);
  }

  lemma OneMoreDistinct(closing: seq<Folder>, f: Folder)
    requires DistinctPaths(closing) && forall g :: g in closing ==> g.path != f.path
    ensures DistinctPaths(closing + [f])
  {
    var more := closing + [f];
    forall i, j | 0 <= i < j < |more| ensures more[i].path != more[j].path {
      assert i < |closing| && more[i] == closing[i];
      assert closing[i] in closing;
    }
  }

  lemma LeavingClosing(copy: Copy, w: Walk, m: nat, s: State, t: State)
    requires SendsEnd(copy, w, m) && ClosingOk(copy, w, m, s)
    requires copy.opts.dryRun ==> t.closing == s.closing
    requires !copy.opts.dryRun ==>
               SentDir(copy, NextHead(copy, w).path) && t.closing == s.closing + [FolderFor(copy, NextHead(copy, w).path)]
    ensures ClosingPre(copy, Next(copy, w), m, t)
  {
    if !copy.opts.dryRun {
      var e, d := Next(copy, w), NextHead(copy, w).path;
      EndIs(copy, w, m);
      EndClosed(copy, w, m, d);
      forall g | g in s.closing ensures g.path != d && Ended(copy, w, g.path) && g == FolderFor(copy, g.path) {
        var i :| 0 <= i < |s.closing| && s.closing[i] == g;
      }
      OneMoreDistinct(s.closing, FolderFor(copy, d));
      forall g | g in t.closing ensures Ended(copy, e, g.path) && g == FolderFor(copy, g.path) {
        EndClosed(copy, w, m, g.path);
      }
      forall c | Ended(copy, e, c) && !Closed(copy, e, m, c) ensures FolderFor(copy, c) in t.closing {
        EndClosed(copy, w, m, c);
      }
    }
  }

  lemma WaitingMore(s: State, t: State, f: Folder, p: Path)
    requires t.closing == s.closing + [f]
    ensures Waiting(t, p) <==> Waiting(s, p) || p == f.path
  {
    if Waiting(s, p) {
      var g :| g in s.closing && g.path == p;
      assert g in t.closing;
    }
    assert f in t.closing;
  }

  lemma NotWaiting(copy: Copy, w: Walk, m: nat, s: State, p: Path)
    requires ClosingOk(copy, w, m, s) && Closed(copy, w, m, p)
    ensures !Waiting(s, p)
  {
    forall f | f in s.closing ensures f.path != p {
      var i :| 0 <= i < |s.closing| && s.closing[i] == f;
    }
  }

  /** What is expected once the End went: as before, but for what goes. */
  lemma EndExpected(copy: Copy, w: Walk, m: nat, p: Path)
    requires SendsEnd(copy, w, m)
    ensures var d := NextHead(copy, w).path;
            && (Goner(copy, d, p) ==> !Gone(copy, w, p) && ExpectedWith(copy, Next(copy, w), m, p, false) == None)
            && (!Goner(copy, d, p) && p != d ==> Expected(copy, Next(copy, w), m, p) == Expected(copy, w, m, p))
            && (p == d ==> ExpectedWith(copy, Next(copy, w), m, p, false) == Expected(copy, w, m, p))
  {
    hide Good, Goes, Logged, Sources, Starts, NextHead, Next, Look;
    EndIs(copy, w, m);
    EndGone(copy, w, m, p);
    EndClosed(copy, w, m, p);
    EndSwept(copy, w, m, p);
    var d := NextHead(copy, w).path;
    if Goner(copy, d, p) {
      if Sent(copy, p) { GonerNotSent(copy, d, p); }
    }
  }

  lemma GonerNotSent(copy: Copy, d: Path, p: Path)
    requires d <= p && d != p && |d| >= Base(copy) && Sent(copy, p)
    ensures Sent(copy, p[..|d| + 1])
  {
    SentAbove(copy, d, p);
    assert d + [p[|d|]] == p[..|d| + 1];
  }

  lemma LeavingFile(copy: Copy, w: Walk, m: nat, s: State, t: State, p: Path)
    requires SendsEnd(copy, w, m) && OpensOk(copy, w, s) && s.opts == copy.opts && s.open != []
    requires SeenOk(copy, w, m, s, |w.frames| - 1) && ClosingOk(copy, w, m, s) && EntriesOk(copy, w, m, s)
    requires !copy.opts.dryRun && Last(s.open).folder == FolderFor(copy, Last(w.frames).path)
    requires t.files == WithoutAll(s.files, Unsent(s, Last(s.open)))
    requires t.closing == s.closing + [Last(s.open).folder]
    ensures FilePre(copy, Next(copy, w), m, t, p)
  {
    if Plain(p) {
      EndIs(copy, w, m);
      assert FileOk(copy, w, m, s.files, p);
      if p in s.files { BelowUnsent(copy, w, m, s, p); }
      EndExpected(copy, w, m, p);
      WaitingMore(s, t, Last(s.open).folder, p);
      LeavingFlag(copy, w, m, s, t, p);
    }
  }

  /** The directory ending waits; each other is as far as it was. */
  lemma LeavingFlag(copy: Copy, w: Walk, m: nat, s: State, t: State, p: Path)
    requires SendsEnd(copy, w, m) && ClosingOk(copy, w, m, s)
    requires Waiting(t, p) <==> Waiting(s, p) || p == NextHead(copy, w).path
    ensures p == NextHead(copy, w).path ==> Waiting(t, p)
    ensures p != NextHead(copy, w).path ==>
              (Closed(copy, Next(copy, w), m, p) && !Waiting(t, p) <==> Closed(copy, w, m, p))
              && (Closed(copy, Next(copy, w), m, p) <==> Closed(copy, w, m, p))
  {
    EndClosed(copy, w, m, p);
    if Closed(copy, w, m, p) { NotWaiting(copy, w, m, s, p); }
  }

  lemma SparedSame(copy: Copy, w: Walk, m: nat, p: Path)
    requires SendsEnd(copy, w, m) && p != []
    ensures Spared(copy, Next(copy, w), m, p) <==> Spared(copy, w, m, p)
  {
    hide Good, Logged, Sources, Goes, Look, MayGo, Gone, Next;
    EndGone(copy, w, m, p);
    forall j | 0 <= j < |w.files| ensures NeedsPart(copy, Next(copy, w), j) <==> NeedsPart(copy, w, j) {}
  }

  lemma LeavingPart(copy: Copy, w: Walk, m: nat, s: State, files: Files, p: Path)
    requires SendsEnd(copy, w, m) && OpensOk(copy, w, s) && s.opts == copy.opts && s.open != []
    requires SeenOk(copy, w, m, s, |w.frames| - 1) && PartOk(copy, w, m, s.files, p)
    requires files == WithoutAll(s.files, Unsent(s, Last(s.open)))
    ensures PartOk(copy, Next(copy, w), m, files, p)
  {
    hide Good, Logged, Sources, Goes, Look, Spared, Gone, Next, NextHead, SeenOk, OpensOk, Unsent;
    EndGone(copy, w, m, p);
    if SentFile(copy, p) && p != [] && !FileDone(w, m, p) {
      SparedSame(copy, w, m, p);
      if Spared(copy, w, m, p) { PartStays(copy, w, m, s, p); }
    }
  }

  lemma LeavingEntries(copy: Copy, w: Walk, m: nat, s: State, t: State)
    requires SendsEnd(copy, w, m) && OpensOk(copy, w, s) && s.opts == copy.opts && s.open != []
    requires SeenOk(copy, w, m, s, |w.frames| - 1) && ClosingOk(copy, w, m, s) && EntriesOk(copy, w, m, s)
    requires !copy.opts.dryRun && Last(s.open).folder == FolderFor(copy, Last(w.frames).path)
    requires t.files == WithoutAll(s.files, Unsent(s, Last(s.open)))
    requires t.closing == s.closing + [Last(s.open).folder]
    requires TouchedAt(s.times, t.times, Last(s.open).folder.path)
    ensures EntriesPre(copy, Next(copy, w), m, t)
  {
    EndIs(copy, w, m);
    WithoutAllWhole(s.files, Unsent(s, Last(s.open)));
    forall p ensures FilePre(copy, Next(copy, w), m, t, p) { LeavingFile(copy, w, m, s, t, p); }
    forall p ensures PartOk(copy, Next(copy, w), m, t.files, p) {
      assert PartOk(copy, w, m, s.files, p);
      LeavingPart(copy, w, m, s, t.files, p);
    }
    forall d ensures TimePre(copy, Next(copy, w), m, t, d) {
      assert TimeOk(copy, w, m, s, d);
      TimeKept(s.times, t.times, Last(s.open).folder.path, d);
      WaitingMore(s, t, Last(s.open).folder, d);
      LeavingFlag(copy, w, m, s, t, d);
    }
  }

  lemma EndFolder(copy: Copy, w: Walk, m: nat, s: State)
    requires SendsEnd(copy, w, m) && OpensOk(copy, w, s)
    ensures s.open != [] && w.frames != [] && Last(w.frames).path == NextHead(copy, w).path
    ensures SentDir(copy, Last(w.frames).path) && Last(s.open).folder == FolderFor(copy, Last(w.frames).path)
  {
    EndIs(copy, w, m);
    assert s.open[|w.frames| - 1].folder == FolderFor(copy, w.frames[|w.frames| - 1].path);
  }

  lemma LeavingKeeps(copy: Copy, k: nat, m: nat, s: State)
    requires SendsEnd(copy, Reached(copy, k), m) && s.open != []
    requires Last(s.open).folder == FolderFor(copy, NextHead(copy, Reached(copy, k)).path)
    requires Inv(copy, k, m, s)
    ensures InvPre(copy, Next(copy, Reached(copy, k)), m, Leaving(s))
  {
    var w := Reached(copy, k);
    var t := Leaving(s);
    EndIs(copy, w, m);
    LeavingIs(s);
    EndGone(copy, w, m, []);
    LeavingOpens(copy, w, m, s, t);
    LeavingPending(copy, w, m, s, t);
    LeavingClosing(copy, w, m, s, t);
    assert SeenOk(copy, w, m, s, |w.frames| - 1);
    if !copy.opts.dryRun { LeavingEntries(copy, w, m, s, t); }
    LeavingSeens(copy, w, m, s, t);
  }

  lemma LeavingSeens(copy: Copy, w: Walk, m: nat, s: State, t: State)
    requires SendsEnd(copy, w, m) && OpensOk(copy, w, s) && s.open != [] && t.open == Front(s.open)
    requires forall i :: SeenOk(copy, w, m, s, i)
    ensures forall i :: SeenOk(copy, Next(copy, w), m, t, i)
  {
    forall i ensures SeenOk(copy, Next(copy, w), m, t, i) { LeavingSeen(copy, w, m, s, t, i); }
  }

  lemma LeftKeeps(copy: Copy, k: nat, m: nat, s: State)
    requires Inv(copy, k, m, s) && SendsEnd(copy, Reached(copy, k), m) && s.open != []
    requires Last(s.open).folder == FolderFor(copy, NextHead(copy, Reached(copy, k)).path)
    ensures Inv(copy, k + 1, m, CloseReady(Leaving(s)))
  {
    LeavingKeeps(copy, k, m, s);
    assert Reached(copy, k + 1) == Next(copy, Reached(copy, k));
    ClosingKeeps(copy, k + 1, m, Leaving(s));
  }

  lemma EndReceived(s: State)
    requires s.landing.None? && s.open != []
    ensures Received(s, EndItem) == On(CloseReady(Leaving(s)), None)
  {
  }

  /** A directory's End: what is left is as expected, whatever order the files under it come in. */
  lemma EndStep(copy: Copy, k: nat, m: nat, s: State)
    requires Inv(copy, k, m, s) && Steps(copy, k) && SendsEnd(copy, Reached(copy, k), m)
    ensures Received(s, EndItem).On? && Received(s, EndItem).answer.None?
    ensures Inv(copy, k + 1, m, Received(s, EndItem).state)
  {
    EndFolder(copy, Reached(copy, k), m, s);
    EndReceived(s);
    LeftKeeps(copy, k, m, s);
  }
}
