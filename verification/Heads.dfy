/** Each header of the walk, received, lands as expected. */
module Heads {
  import opened Bytes
  import opened Files
  import opened Walk
  import opened Course
  import opened Receive
  import opened Landing

  /** The item a head goes as. */
  function ItemFor(head: Head, id: nat): Item {
    match head
    case DirHead(_, name, mode, mtime) => DirItem(name, mode, mtime)
    case ContentsHead(_, mode, mtime) => ContentsItem(mode, mtime)
    case FileHead(_, name, content, mode, mtime) => FileItem(FileHeader(id, name, mode, mtime, |content|))
    case LinkHead(_, name, target) => LinkItem(name, target)
    case SkipHead(_, name) => SkippedItem(name)
    case EndHead(_) => EndItem
  }

  /** The state the copy begins in. */
  function Begin(copy: Copy): State {
    State(copy.there, map[], copy.opts, TOP, copy.named, 0, [], [], map[], [], 0, NOTHING, None)
  }

  // ---- where an entry goes ---------------------------------------------------------------------

  /** The name the receiver takes a head under. */
  function WireName(copy: Copy, head: Head): Name
    requires !head.EndHead? && (head.ContentsHead? ==> copy.named.Some?)
  {
    if head.ContentsHead? then copy.named.value else head.name
  }

  function PlacedIn(s: State): State {
    if s.open == [] then s.(placed := s.placed + 1) else s
  }

  lemma OneNamed(copy: Copy)
    requires Sources(copy) && copy.named.Some?
    ensures |copy.sources| <= 1
  {
    assert |copy.sources| > 1 ==> LandsAs(copy, copy.sources[0]) == LandsAs(copy, copy.sources[1]);
  }

  lemma Placed(copy: Copy, k: nat, m: nat, s: State)
    requires Starts(copy) && Inv(copy, k, m, s) && Good(copy, Reached(copy, k)) && Goes(copy, Reached(copy, k))
    requires var head := NextHead(copy, Reached(copy, k));
             !head.EndHead? && (head.ContentsHead? ==> copy.named.Some?)
    ensures var head := NextHead(copy, Reached(copy, k));
            && head.path != [] && Sent(copy, head.path)
            && Place(s, WireName(copy, head)) == Ok((PlacedIn(s), FolderIn(copy, head.path), Leaf(head.path)))
  {
    var w := Reached(copy, k);
    HeadSays(copy, w);
    if w.frames == [] {
      var source := copy.sources[w.begun];
      assert LandsAs(copy, source).Some?;
      if copy.named.Some? { OneNamed(copy); }
    } else {
      var last := |w.frames| - 1;
      assert s.open[last].folder == FolderFor(copy, w.frames[last].path);
    }
  }

  // ---- names noted ---------------------------------------------------------------------------------

  /** `open` with `names` noted in its last. */
  function Noting(open: seq<Open>, names: set<Name>): seq<Open> {
    if open == [] || Last(open).seen.None? then open
    else Front(open) + [Last(open).(seen := Some(Last(open).seen.value + names))]
  }

  lemma SawNotes(s: State, n: Name)
    requires Saw(s, n).Ok?
    ensures var t := Saw(s, n).value;
            t == s.(open := Noting(s.open, {n}), seen := t.seen)
  {
    if s.open != [] && Last(s.open).seen.Some? && n in Last(s.open).seen.value {
      assert Last(s.open).seen.value + {n} == Last(s.open).seen.value;
      assert Front(s.open) + [Last(s.open)] == s.open;
    }
  }

  lemma NotingTwice(open: seq<Open>, a: Name, b: Name)
    ensures Noting(Noting(open, {a}), {b}) == Noting(open, {a, b})
  {
    if open != [] && Last(open).seen.Some? {
      assert Last(open).seen.value + {a} + {b} == Last(open).seen.value + {a, b};
    }
  }

  ghost function PushedOn(copy: Copy, q: Path): seq<Open>
    requires Sent(copy, q)
  {
    if SentDir(copy, q) then [Open(FolderFor(copy, q), if copy.opts.delete then Some({}) else None)] else []
  }

  /** The receiver's open directories after a head, its names noted. */
  ghost predicate OpensAs(copy: Copy, w: Walk, s: State, t: State, names: set<Name>)
    requires Goes(copy, w) && !NextHead(copy, w).EndHead? && Sent(copy, NextHead(copy, w).path)
  {
    var head := NextHead(copy, w);
    && t.open == Noting(s.open, names) + PushedOn(copy, head.path)
    && (w.frames != [] ==> head.path != [] && Leaf(head.path) in names
                           && names <= {Leaf(head.path), PartName(Leaf(head.path))})
    && (head.FileHead? && head.path != [] && AnswerOf(copy, head, |w.files|).Want? ==>
          PartName(Leaf(head.path)) in names)
  }

  lemma NotingIs(open: seq<Open>, names: set<Name>, i: int)
    requires 0 <= i < |open|
    ensures |Noting(open, names)| == |open|
    ensures Noting(open, names)[i].folder == open[i].folder
    ensures Noting(open, names)[i].seen ==
            if i == |open| - 1 && open[i].seen.Some? then Some(open[i].seen.value + names) else open[i].seen
  {
  }

  lemma FramesAfter(copy: Copy, w: Walk, i: int)
    requires Sources(copy) && Good(copy, w) && Goes(copy, w) && !NextHead(copy, w).EndHead?
    requires 0 <= i < |Next(copy, w).frames|
    ensures i < |w.frames| ==> Next(copy, w).frames[i].path == w.frames[i].path
    ensures i >= |w.frames| ==> i == |w.frames| && Next(copy, w).frames[i].path == NextHead(copy, w).path
                                && SentDir(copy, NextHead(copy, w).path)
    ensures |Next(copy, w).frames| == |w.frames| + if SentDir(copy, NextHead(copy, w).path) then 1 else 0
    ensures Next(copy, w).begun == if w.frames == [] then w.begun + 1 else w.begun
  {
    hide Sources, Goes, Logged, Good, SentDir, NextHead, Next, Look, NextNode;
    NextOpens(copy, w);
    NextIs(copy, w);
  }

  /** The next entry is a directory where the sources have one. */
  lemma NextOpens(copy: Copy, w: Walk)
    requires Sources(copy) && Good(copy, w) && Goes(copy, w) && !NextHead(copy, w).EndHead?
    ensures SentDir(copy, NextHead(copy, w).path) <==> NextNode(copy, w).NDir?
    ensures w.frames != [] ==> Last(w.frames).rest != []
  {
    hide Sources, Look, Good;
    NextPath(copy, w);
  }

  lemma FrameCount(copy: Copy, w: Walk)
    requires Sources(copy) && Good(copy, w) && Goes(copy, w) && !NextHead(copy, w).EndHead?
    ensures |Next(copy, w).frames| == |w.frames| + if SentDir(copy, NextHead(copy, w).path) then 1 else 0
    ensures Next(copy, w).begun == if w.frames == [] then w.begun + 1 else w.begun
  {
    NextIs(copy, w);
    NextPath(copy, w);
  }

  lemma HeadOpens(copy: Copy, w: Walk, s: State, t: State, names: set<Name>)
    requires Sources(copy) && Good(copy, w) && Goes(copy, w) && !NextHead(copy, w).EndHead?
    requires Sent(copy, NextHead(copy, w).path)
    requires OpensOk(copy, w, s) && OpensAs(copy, w, s, t, names)
    requires copy.named.Some? ==> t.placed == PlacedIn(s).placed
    requires t.tree == if s.open == [] && SentDir(copy, NextHead(copy, w).path) then NextHead(copy, w).path else s.tree
    ensures OpensOk(copy, Next(copy, w), t)
  {
    hide Sources, Goes, Logged, Good, Look, Next, SentDir, Sent, FolderFor;
    var e, q := Next(copy, w), NextHead(copy, w).path;
    FrameCount(copy, w);
    assert |Noting(s.open, names)| == |s.open|;
    forall i | 0 <= i < |e.frames|
      ensures SentDir(copy, e.frames[i].path)
      ensures t.open[i].folder == FolderFor(copy, e.frames[i].path)
      ensures t.open[i].seen.Some? <==> copy.opts.delete
    {
      FramesAfter(copy, w, i);
      if i < |s.open| {
        NotingIs(s.open, names, i);
        assert t.open[i] == Noting(s.open, names)[i];
      }
    }
    if e.frames != [] { FramesAfter(copy, w, 0); }
  }

  /** In an entry not yet gone, nothing is. */
  lemma NoneGoneIn(copy: Copy, w: Walk, p: Path)
    requires Sources(copy) && Good(copy, w) && Goes(copy, w) && !NextHead(copy, w).EndHead?
    requires NextHead(copy, w).path <= p
    ensures !Gone(copy, w, p)
  {
    if Sent(copy, p) { TakenOwes(copy, w, p); }
  }

  lemma HeadSeen(copy: Copy, w: Walk, m: nat, s: State, t: State, names: set<Name>, i: int)
    requires Sources(copy) && Good(copy, w) && Logged(copy, w) && Goes(copy, w) && !NextHead(copy, w).EndHead?
    requires Sent(copy, NextHead(copy, w).path) && m <= |w.files|
    requires OpensOk(copy, w, s) && OpensAs(copy, w, s, t, names) && SeenOk(copy, w, m, s, i)
    ensures SeenOk(copy, Next(copy, w), m, t, i)
  {
    hide Good, Goes, Logged, Sources, Gone, Next, NeedsPart, SeenOk, NextHead;
    if 0 <= i < |Next(copy, w).frames| && i < |t.open| && t.open[i].seen.Some? {
      FramesAfter(copy, w, i);
      if i == |w.frames| {
        PushedSeen(copy, w, m, t);
      } else {
        StillSeen(copy, w, m, s, t, names, i);
      }
    } else {
      UnseenOk(copy, Next(copy, w), m, t, i);
    }
  }

  lemma UnseenOk(copy: Copy, w: Walk, m: nat, s: State, i: int)
    requires !(0 <= i < |w.frames| && i < |s.open| && s.open[i].seen.Some?)
    ensures SeenOk(copy, w, m, s, i)
  {
  }

  /** Nothing came into a directory that has only just been opened. */
  lemma PushedSeen(copy: Copy, w: Walk, m: nat, t: State)
    requires Sources(copy) && Good(copy, w) && Logged(copy, w) && Goes(copy, w) && !NextHead(copy, w).EndHead?
    requires Sent(copy, NextHead(copy, w).path) && |w.frames| < |Next(copy, w).frames| && |w.frames| < |t.open|
    requires t.open[|w.frames|].seen == Some({}) && Next(copy, w).frames[|w.frames|].path == NextHead(copy, w).path
    ensures SeenOk(copy, Next(copy, w), m, t, |w.frames|)
  {
    hide Good, Goes, Logged, Sources, Gone, Next;
    var e, head := Next(copy, w), NextHead(copy, w);
    forall n ensures !Gone(copy, e, head.path + [n]) {
      NoneGoneIn(copy, w, head.path + [n]);
      StepGone(copy, w, head.path + [n]);
    }
    forall j | m <= j < |e.files| && NeedsPart(copy, e, j) ensures Parent(e.files[j].path) != head.path {
      NotInPushed(copy, w, j);
    }
  }

  /** Into the directories open before, only the entry came, and its part is noted if it is needed. */
  lemma StillSeen(copy: Copy, w: Walk, m: nat, s: State, t: State, names: set<Name>, i: int)
    requires Sources(copy) && Good(copy, w) && Goes(copy, w) && !NextHead(copy, w).EndHead?
    requires Sent(copy, NextHead(copy, w).path) && m <= |w.files|
    requires OpensOk(copy, w, s) && OpensAs(copy, w, s, t, names) && SeenOk(copy, w, m, s, i)
    requires 0 <= i < |w.frames| && i < |t.open| && t.open[i].seen.Some? && i < |Next(copy, w).frames|
    requires Next(copy, w).frames[i].path == w.frames[i].path
    ensures SeenOk(copy, Next(copy, w), m, t, i)
  {
    hide Good, Goes, Logged, Sources, Gone, Next, Look, AnswerOf;
    var e, head := Next(copy, w), NextHead(copy, w);
    HeadSays(copy, w);
    NextFiles(copy, w);
    NotingIs(s.open, names, i);
    assert t.open[i] == Noting(s.open, names)[i];
    forall n | !IsPart(n) ensures n in t.open[i].seen.value <==> Gone(copy, e, w.frames[i].path + [n]) {
      SeenName(copy, w, m, s, names, i, n);
    }
    forall j | m <= j < |e.files| && NeedsPart(copy, e, j) && Parent(e.files[j].path) == w.frames[i].path
      ensures PartName(Leaf(e.files[j].path)) in t.open[i].seen.value
    {
      if j < |w.files| {
        assert NeedsPart(copy, w, j);
      } else {
        LastOnly(copy, w, i);
      }
    }
  }

  /** The entry sent next is in the innermost open directory, and in no other. */
  lemma LastOnly(copy: Copy, w: Walk, i: int)
    requires Sources(copy) && Good(copy, w) && Goes(copy, w) && !NextHead(copy, w).EndHead?
    requires 0 <= i < |w.frames|
    ensures NextHead(copy, w).path != []
    ensures Parent(NextHead(copy, w).path) == w.frames[i].path <==> i == |w.frames| - 1
  {
    HeadSays(copy, w);
    assert |w.frames[i].path| == Base(copy) + i;
  }

  lemma NotInPushed(copy: Copy, w: Walk, j: int)
    requires Sources(copy) && Good(copy, w) && Logged(copy, w) && Goes(copy, w) && !NextHead(copy, w).EndHead?
    requires 0 <= j < |Next(copy, w).files| && Next(copy, w).files[j].path != []
    ensures Parent(Next(copy, w).files[j].path) != NextHead(copy, w).path
  {
    NextFiles(copy, w);
    var q := NextHead(copy, w).path;
    if j < |w.files| {
      assert GoodLog(copy, w, j);
      var p := w.files[j].path;
      if Parent(p) == q { NoneGoneIn(copy, w, p); }
    }
  }

  lemma SeenName(copy: Copy, w: Walk, m: nat, s: State, names: set<Name>, i: int, n: Name)
    requires Sources(copy) && Good(copy, w) && Goes(copy, w) && !NextHead(copy, w).EndHead?
    requires Sent(copy, NextHead(copy, w).path) && !IsPart(n)
    requires OpensOk(copy, w, s) && SeenOk(copy, w, m, s, i) && 0 <= i < |w.frames| && s.open[i].seen.Some?
    requires var q := NextHead(copy, w).path;
             q != [] && Leaf(q) in names && names <= {Leaf(q), PartName(Leaf(q))}
    ensures n in Noting(s.open, names)[i].seen.value <==> Gone(copy, Next(copy, w), w.frames[i].path + [n])
  {
    var q, p := NextHead(copy, w).path, w.frames[i].path + [n];
    StepGone(copy, w, p);
    LastOnly(copy, w, i);
    NotingIs(s.open, names, i);
    PartNames(Leaf(q));
    ChildPath(w.frames[i].path, n);
    SamePath(p, q);
  }

  lemma SamePath(p: Path, q: Path)
    requires p != [] && q != []
    ensures p == q <==> Parent(p) == Parent(q) && Leaf(p) == Leaf(q)
  {
    assert p == Parent(p) + [Leaf(p)] && q == Parent(q) + [Leaf(q)];
  }
}
