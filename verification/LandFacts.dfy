/** What a step of the walk changes of what is expected. */
module LandFacts {
  import opened Bytes
  import opened Files
  import opened Walk
  import opened Course
  import opened Receive
  import opened Landing

  // ---- directories held ----------------------------------------------------------------------------

  lemma {:induction false} FoldersWithin(copy: Copy, f: Path, d: Path)
    requires SentDir(copy, f) && SentDir(copy, d)
    ensures Within(FolderFor(copy, f), FolderFor(copy, d)) <==> d <= f
    ensures !Within(TOP, FolderFor(copy, d))
    decreases |f|
  {
    var ff, fd := FolderFor(copy, f), FolderFor(copy, d);
    assert ff.path == f && fd.path == d;
    assert Within(ff, fd) <==> f == d || Within(ff.up.folder, fd);
    if |f| == Base(copy) {
      if d <= f { assert d == f; }
    } else {
      UpIsSent(copy, f);
      FoldersWithin(copy, Parent(f), d);
      assert d <= f <==> d == f || d <= Parent(f);
    }
  }

  lemma UpIsSent(copy: Copy, f: Path)
    requires Sent(copy, f) && |f| > Base(copy)
    ensures SentDir(copy, Parent(f))
  {
  }

  lemma InFolder(copy: Copy, p: Path, d: Path)
    requires Sent(copy, p) && p != [] && SentDir(copy, d)
    ensures Within(FolderIn(copy, p), FolderFor(copy, d)) <==> d <= p && d != p
    ensures |p| > Base(copy) ==> FolderIn(copy, p).path == Parent(p)
    ensures |p| == Base(copy) ==> Parent(p) == []
  {
    if |p| == Base(copy) {
      FoldersWithin(copy, d, d);
      SentLength(copy, d);
    } else {
      UpIsSent(copy, p);
      FoldersWithin(copy, Parent(p), d);
      assert d <= p && d != p <==> d <= Parent(p);
    }
  }

  lemma PathInFolder(copy: Copy, p: Path, n: Name)
    requires Sent(copy, p) && p != []
    ensures PathIn(FolderIn(copy, p), n) == Parent(p) + [n]
    ensures PathIn(FolderIn(copy, p), Leaf(p)) == p
  {
    InFolderPath(copy, p);
    assert Parent(p) + [Leaf(p)] == p;
  }

  lemma InFolderPath(copy: Copy, p: Path)
    requires Sent(copy, p) && p != []
    ensures FolderIn(copy, p).path == Parent(p)
  {
    if |p| == Base(copy) { assert Parent(p) == []; }
  }

  // ---- what is expected ----------------------------------------------------------------------------

  lemma SentNotSwept(copy: Copy, w: Walk, p: Path)
    requires Sent(copy, p)
    ensures !Swept(copy, w, p)
  {
    forall n: nat | n < |p| && Ended(copy, w, p[..n]) ensures !SweptAt(copy, w, p, n) {
      SentAbove(copy, p[..n], p);
      assert p[..n] + [p[n]] == p[..n + 1];
    }
  }

  /** An entry still to be sent is as it was. */
  lemma StillThere(copy: Copy, w: Walk, m: nat, p: Path)
    requires Sent(copy, p) && !Gone(copy, w, p)
    ensures Expected(copy, w, m, p) == Get(copy.there, p)
  {
    SentNotSwept(copy, w, p);
  }

  lemma StepDone(copy: Copy, w: Walk, m: nat, p: Path)
    requires Sources(copy) && Good(copy, w) && Goes(copy, w) && m <= |w.files|
    ensures FileDone(Next(copy, w), m, p) <==> FileDone(w, m, p)
  {
    var e := Next(copy, w);
    NextFiles(copy, w);
    if FileDone(w, m, p) {
      var i :| 0 <= i < m && i < |w.files| && w.files[i].path == p;
      assert e.files[i].path == p;
    }
    if FileDone(e, m, p) {
      var i :| 0 <= i < m && i < |e.files| && e.files[i].path == p;
      assert w.files[i].path == p;
    }
  }

  /** A head changes nothing of what closed or is swept. */
  lemma HeadClosed(copy: Copy, w: Walk, m: nat, d: Path)
    requires Sources(copy) && Good(copy, w) && Goes(copy, w) && m <= |w.files| && !NextHead(copy, w).EndHead?
    ensures Closed(copy, Next(copy, w), m, d) <==> Closed(copy, w, m, d)
  {
    var e, head := Next(copy, w), NextHead(copy, w);
    StepEnded(copy, w, d);
    NextFiles(copy, w);
    if Ended(copy, w, d) {
      NextPath(copy, w);
      StepGone(copy, w, head.path);
      if d <= head.path { EndedUnder(copy, w, d, head.path); }
      assert forall i :: 0 <= i < |w.files| ==> e.files[i] == w.files[i];
      assert forall i :: |w.files| <= i < |e.files| ==> e.files[i] == head;
    }
  }

  lemma HeadSwept(copy: Copy, w: Walk, p: Path)
    requires Sources(copy) && Good(copy, w) && Goes(copy, w) && !NextHead(copy, w).EndHead?
    ensures Swept(copy, Next(copy, w), p) <==> Swept(copy, w, p)
  {
    forall n: nat | n < |p| ensures SweptAt(copy, Next(copy, w), p, n) <==> SweptAt(copy, w, p, n) {
      StepEnded(copy, w, p[..n]);
    }
    assert forall n: nat :: n >= |p| ==> !SweptAt(copy, Next(copy, w), p, n) && !SweptAt(copy, w, p, n);
  }

  /** A head changes what is expected at its own path only. */
  lemma HeadExpected(copy: Copy, w: Walk, m: nat, p: Path)
    requires Sources(copy) && Good(copy, w) && Goes(copy, w) && m <= |w.files| && !NextHead(copy, w).EndHead?
    requires p != NextHead(copy, w).path
    ensures Expected(copy, Next(copy, w), m, p) == Expected(copy, w, m, p)
  {
    StepGone(copy, w, p);
    StepDone(copy, w, m, p);
    HeadClosed(copy, w, m, p);
    HeadSwept(copy, w, p);
  }

  /** What is expected at the head's own path. */
  lemma HeadLands(copy: Copy, w: Walk, m: nat)
    requires Sources(copy) && Good(copy, w) && Logged(copy, w) && Goes(copy, w) && m <= |w.files|
    requires !NextHead(copy, w).EndHead?
    ensures var q := NextHead(copy, w).path;
            && Sent(copy, q) && Plain(q)
            && Expected(copy, w, m, q) == Get(copy.there, q)
            && Expected(copy, Next(copy, w), m, q) ==
               match Look(copy, q).value
               case NDir(_, _, _) => Some(Dir(if Made(copy, q) then 0x1c0 else copy.there[q].mode))
               case NLink(target) => Some(Link(target))
               case NFile(_, _, _) => Get(copy.there, q)
               case NOther => Get(copy.there, q)
  {
    var q := NextHead(copy, w).path;
    HeadSays(copy, w);
    SentProper(copy, q);
    StepGone(copy, w, q);
    StillThere(copy, w, m, q);
    StepDone(copy, w, m, q);
    StepEnded(copy, w, q);
    forall i | 0 <= i < m && i < |w.files| ensures w.files[i].path != q { assert GoodLog(copy, w, i); }
  }

  /** Where an entry is, dry run or not: what was there while it is still to be sent. */
  lemma StatsThere(copy: Copy, k: nat, m: nat, s: State, q: Path)
    requires Starts(copy) && Inv(copy, k, m, s)
    requires Sent(copy, q) && q != [] && !Gone(copy, Reached(copy, k), q)
    ensures Stat(s, FolderIn(copy, q), Leaf(q)) == Get(copy.there, q)
    ensures FolderIn(copy, q).present ==> Get(s.files, q) == Get(copy.there, q)
  {
    var w := Reached(copy, k);
    PathInFolder(copy, q, Leaf(q));
    SentProper(copy, q);
    StillThere(copy, w, m, q);
    if copy.opts.dryRun {
      if !FolderIn(copy, q).present { NotUnderAbsent(copy, q, q); }
    } else {
      assert FileOk(copy, w, m, s.files, q);
    }
  }

  /** In a dry run, nothing is where a directory would be made. */
  lemma NotUnderAbsent(copy: Copy, q: Path, p: Path)
    requires Starts(copy) && Sent(copy, q) && q != [] && p != [] && Parent(p) == Parent(q)
    requires !FolderIn(copy, q).present
    ensures p !in copy.there
  {
    if |q| > Base(copy) {
      UpIsSent(copy, q);
      assert !IsDir(copy.there, Parent(q));
    }
  }
}
