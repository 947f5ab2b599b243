/** The course of a walk: after `k` of its steps, what went and what ended. */
module Course {
  import opened Bytes
  import opened Files
  import opened Walk

  ghost function Reached(copy: Copy, k: nat): Walk {
    if k == 0 then Walk([], 0, [])
    else
      var w := Reached(copy, k - 1);
      if Goes(copy, w) then Next(copy, w) else w
  }

  /** The walk takes `k` steps. */
  ghost predicate Steps(copy: Copy, k: nat) {
    k == 0 || (Steps(copy, k - 1) && Goes(copy, Reached(copy, k - 1)))
  }

  lemma {:induction false} ReachedGood(copy: Copy, k: nat)
    requires Sources(copy)
    ensures Good(copy, Reached(copy, k)) && Logged(copy, Reached(copy, k))
  {
    if k == 0 {
      assert !exists p :: Gone(copy, Reached(copy, 0), p) by {
        forall p ensures !Gone(copy, Reached(copy, 0), p) { NoneGone(copy, p); }
      }
    } else {
      ReachedGood(copy, k - 1);
      var w := Reached(copy, k - 1);
      if Goes(copy, w) {
        StepGood(copy, w);
        StepLogged(copy, w);
      }
    }
  }

  lemma {:induction false} NoneGone(copy: Copy, p: Path)
    requires Sources(copy)
    ensures !Gone(copy, Walk([], 0, []), p)
  {
    if Sent(copy, p) { TopSent(copy, p); }
  }

  lemma {:induction false} TopSent(copy: Copy, p: Path)
    requires Sources(copy) && Sent(copy, p)
    ensures |p| >= Base(copy) && TopFrom(copy, 0, p[..Base(copy)]).Some?
    decreases |p|
  {
    if |p| == Base(copy) {
      assert p[..Base(copy)] == p;
    } else {
      TopSent(copy, Parent(p));
      assert Parent(p)[..Base(copy)] == p[..Base(copy)];
    }
  }

  // ---- the files whose headers went ----------------------------------------------------------------

  ghost predicate SentFile(copy: Copy, p: Path) {
    Look(copy, p).Some? && Look(copy, p).value.NFile?
  }

  /** Whether a file's header went, by the walk's own log. */
  ghost predicate InLog(w: Walk, p: Path) {
    exists i :: 0 <= i < |w.files| && w.files[i].path == p
  }

  ghost predicate GoodLog(copy: Copy, w: Walk, i: int)
    requires 0 <= i < |w.files|
  {
    var h := w.files[i];
    && h.FileHead? && h.path != []
    && Look(copy, h.path) == Some(NFile(h.content, h.mode, h.mtime))
    && Gone(copy, w, h.path)
  }

  ghost predicate Logged(copy: Copy, w: Walk) {
    && (forall i :: 0 <= i < |w.files| ==> GoodLog(copy, w, i))
    && (forall i, j :: 0 <= i < j < |w.files| ==> w.files[i].path != w.files[j].path)
    && (forall p :: Gone(copy, w, p) && SentFile(copy, p) ==> InLog(w, p))
  }

  /** What a head says of its entry. */
  ghost predicate Says(head: Head, node: Node) {
    match node
    case NDir(mode, mtime, _) => (head.DirHead? || head.ContentsHead?) && head.mode == mode && head.mtime == mtime
    case NFile(content, mode, mtime) => head.FileHead? && head.content == content && head.mode == mode && head.mtime == mtime
    case NLink(target) => head.LinkHead? && head.target == target
    case NOther => head.SkipHead?
  }

  lemma HeadSays(copy: Copy, w: Walk)
    requires Sources(copy) && Good(copy, w) && Goes(copy, w) && !NextHead(copy, w).EndHead?
    ensures var head := NextHead(copy, w);
            && Sent(copy, head.path) && Says(head, Look(copy, head.path).value)
            && |head.path| == Base(copy) + |w.frames|
            && (head.FileHead? ==> head.path != [])
            && (w.frames != [] ==>
                  && head.path != [] && Parent(head.path) == Last(w.frames).path
                  && !head.ContentsHead? && head.name == Leaf(head.path))
  {
    NextPath(copy, w);
    if w.frames == [] {
      var source := copy.sources[w.begun];
      assert NodeOf(source) == NextNode(copy, w);
      assert source.Contents? ==> NodeOf(source).NDir?;
    }
  }

  lemma StepGone(copy: Copy, w: Walk, p: Path)
    requires Sources(copy) && Good(copy, w) && Goes(copy, w)
    ensures Gone(copy, Next(copy, w), p) <==>
            Gone(copy, w, p) || (!NextHead(copy, w).EndHead? && p == NextHead(copy, w).path)
    ensures !NextHead(copy, w).EndHead? ==> !Gone(copy, w, NextHead(copy, w).path)
  {
    if !NextHead(copy, w).EndHead? {
      NextPath(copy, w);
      StepTodo(copy, w, NextHead(copy, w).path);
    }
    if Sent(copy, p) { StepTodo(copy, w, p); }
  }

  lemma NextFiles(copy: Copy, w: Walk)
    requires Sources(copy) && Good(copy, w) && Goes(copy, w)
    ensures Next(copy, w).files ==
            if NextHead(copy, w).FileHead? then w.files + [NextHead(copy, w)] else w.files
  {
    NextIs(copy, w);
    if !NextHead(copy, w).EndHead? {
      HeadSays(copy, w);
      NextPath(copy, w);
    }
  }

  lemma StepLogged(copy: Copy, w: Walk)
    requires Sources(copy) && Good(copy, w) && Goes(copy, w) && Logged(copy, w)
    ensures Logged(copy, Next(copy, w))
  {
    var e, head := Next(copy, w), NextHead(copy, w);
    NextFiles(copy, w);
    if !head.EndHead? { HeadSays(copy, w); }
    forall i | 0 <= i < |e.files| ensures GoodLog(copy, e, i) {
      StepGone(copy, w, e.files[i].path);
      if i < |w.files| { assert GoodLog(copy, w, i); }
    }
    forall i, j | 0 <= i < j < |e.files| ensures e.files[i].path != e.files[j].path {
      if j == |w.files| {
        assert GoodLog(copy, w, i);
        StepGone(copy, w, head.path);
      }
    }
    forall p | Gone(copy, e, p) && SentFile(copy, p) ensures InLog(e, p) {
      StepGone(copy, w, p);
      if Gone(copy, w, p) {
        var i :| 0 <= i < |w.files| && w.files[i].path == p;
        assert e.files[i].path == p;
      } else {
        assert e.files[|w.files|].path == p;
      }
    }
  }

  // ---- directories ended -------------------------------------------------------------------------

  /** A directory above an open one is open. */
  lemma AboveOpen(copy: Copy, w: Walk, d: Path, i: nat)
    requires Good(copy, w) && |d| >= Base(copy) && i < |w.frames| && d <= w.frames[i].path
    ensures IsOpen(w, d)
  {
    var at := |d| - Base(copy);
    assert |w.frames[at].path| == |d|;
    if at < i { assert w.frames[at].path <= w.frames[i].path; }
    assert w.frames[at].path == w.frames[i].path[..|d|] == d;
  }

  /** A frame that owes what is in `d` owes `d`, or is in it. */
  lemma OwesAbove(copy: Copy, w: Walk, d: Path, p: Path, i: nat)
    requires Good(copy, w) && |d| >= Base(copy) && d <= p
    requires i < |w.frames| && Owes(w.frames[i], p)
    ensures Owes(w.frames[i], d) || IsOpen(w, d)
  {
    var f := w.frames[i];
    if |f.path| < |d| {
      assert f.path == p[..|f.path|] == d[..|f.path|];
      assert p[|f.path|] == d[|f.path|];
    } else {
      assert d == p[..|d|] == f.path[..|d|];
      AboveOpen(copy, w, d, i);
    }
  }

  /** Nothing in a directory that ended is still to be sent. */
  lemma EndedUnder(copy: Copy, w: Walk, d: Path, p: Path)
    requires Good(copy, w) && Ended(copy, w, d) && d <= p && |d| >= Base(copy)
    ensures !Todo(copy, w, p)
  {
    assert p[..Base(copy)] == d[..Base(copy)];
    if i :| 0 <= i < |w.frames| && Owes(w.frames[i], p) { OwesAbove(copy, w, d, p, i); }
  }

  lemma SentLength(copy: Copy, p: Path)
    requires Sent(copy, p)
    ensures |p| >= Base(copy)
  {
  }

  /** Only an End ends a directory: the one it names. */
  lemma StepEnded(copy: Copy, w: Walk, d: Path)
    requires Sources(copy) && Good(copy, w) && Goes(copy, w)
    ensures Ended(copy, Next(copy, w), d) <==>
            Ended(copy, w, d) || (NextHead(copy, w).EndHead? && d == NextHead(copy, w).path)
    ensures NextHead(copy, w).EndHead? ==> !Ended(copy, w, NextHead(copy, w).path)
  {
    if SentDir(copy, d) { StepGone(copy, w, d); }
    if NextHead(copy, w).EndHead? {
      NextIs(copy, w);
      EndOpen(copy, w, d);
      EndOpen(copy, w, Last(w.frames).path);
      OpenGone(copy, w);
    } else {
      HeadSays(copy, w);
      EnterOpen(copy, w, d);
    }
  }

  predicate PathsOpen(frames: seq<Frame>, d: Path) {
    exists i :: 0 <= i < |frames| && frames[i].path == d
  }

  lemma OneMoreOpen(frames: seq<Frame>, f: Frame, d: Path)
    ensures PathsOpen(frames + [f], d) <==> PathsOpen(frames, d) || d == f.path
  {
    var more := frames + [f];
    assert more[|frames|] == f;
    if PathsOpen(frames, d) {
      var i :| 0 <= i < |frames| && frames[i].path == d;
      assert more[i].path == d;
    }
  }

  lemma EndOpen(copy: Copy, w: Walk, d: Path)
    requires Good(copy, w) && w.frames != []
    ensures IsOpen(w, d) <==> PathsOpen(Front(w.frames), d) || d == Last(w.frames).path
    ensures !PathsOpen(Front(w.frames), Last(w.frames).path)
  {
    hide Find, GoodFrame, TopFrom;
    assert w.frames == Front(w.frames) + [Last(w.frames)];
    OneMoreOpen(Front(w.frames), Last(w.frames), d);
    assert IsOpen(w, d) <==> PathsOpen(w.frames, d);
  }

  lemma OpenGone(copy: Copy, w: Walk)
    requires Good(copy, w) && w.frames != []
    ensures SentDir(copy, Last(w.frames).path) && !Todo(copy, w, Last(w.frames).path)
  {
    var last := |w.frames| - 1;
    assert GoodFrame(copy, w.frames[last]);
    NotOwedAbove(copy, w, Last(w.frames).path);
    AnyOwesLast(w.frames, Last(w.frames).path);
  }

  lemma EnterOpen(copy: Copy, w: Walk, d: Path)
    requires Sources(copy) && Good(copy, w) && Goes(copy, w) && !NextHead(copy, w).EndHead?
    ensures IsOpen(Next(copy, w), d) <==>
            IsOpen(w, d) || (d == NextHead(copy, w).path && NextNode(copy, w).NDir?)
  {
    hide Sources, Good, Logged, Next;
    var t := Taken(copy, w);
    NextIs(copy, w);
    assert IsOpen(Next(copy, w), d) <==> PathsOpen(Next(copy, w).frames, d);
    assert IsOpen(w, d) <==> PathsOpen(w.frames, d);
    if w.frames != [] {
      var f := Last(w.frames);
      assert f.rest != [];
      OneMoreOpen(Front(w.frames), f.(rest := f.rest[1..]), d);
      OneMoreOpen(Front(w.frames), f, d);
      assert w.frames == Front(w.frames) + [f];
    }
    assert PathsOpen(t.frames, d) <==> PathsOpen(w.frames, d);
    if NextNode(copy, w).NDir? {
      OneMoreOpen(t.frames, Last(Next(copy, w).frames), d);
    }
  }

  /** Once all is sent, every directory ended and every file's header went. */
  lemma AllEnded(copy: Copy, w: Walk, p: Path)
    requires Sources(copy) && Good(copy, w) && Logged(copy, w) && AllSent(copy, w) && Sent(copy, p)
    ensures Gone(copy, w, p)
    ensures SentDir(copy, p) ==> Ended(copy, w, p)
    ensures SentFile(copy, p) ==> InLog(w, p)
  {
  }
}
