/** What each step of a copy counts, as a function of the trees alone: the same for a dry run. */
module Counting {
  import opened Bytes
  import opened Files
  import opened Walk
  import opened Course
  import opened Receive
  import opened Closing
  import opened Landing
  import opened Heads
  import opened HeadSteps
  import opened Headers
  import opened EndSteps
  import opened FileSteps

  function Plus(a: Summary, b: Summary): Summary {
    Summary(a.added + b.added, a.replaced + b.replaced, a.same + b.same, a.resumed + b.resumed, a.bytes + b.bytes,
            a.dirs + b.dirs, a.links + b.links, a.deleted + b.deleted, a.skipped + b.skipped)
  }

  /** No file was left under way before. */
  predicate NoParts(files: Files) {
    forall p :: p in files ==> Plain(p)
  }

  /** How many entries go as directory `d` ends. */
  ghost function GonerCount(copy: Copy, d: Path): nat {
    |set p | p in copy.there && Goner(copy, d, p)|
  }

  /** What the walk's next step counts. */
  ghost function HeadCount(copy: Copy, w: Walk): Summary
    requires Goes(copy, w)
  {
    var head := NextHead(copy, w);
    var q := head.path;
    match head
    case FileHead(_, _, _, _, _) => NOTHING
    case SkipHead(_, _) => NOTHING.(skipped := 1)
    case LinkHead(_, _, target) => if Get(copy.there, q) == Some(Link(target)) then NOTHING else NOTHING.(links := 1)
    case EndHead(_) => NOTHING.(deleted := GonerCount(copy, q))
    case _ =>
      if q == [] || !Made(copy, q) then NOTHING
      else NOTHING.(dirs := 1, deleted := if q in copy.there then 1 else 0)
  }

  /** What a file counts once it is done. */
  ghost function FileCount(copy: Copy, head: Head, id: nat): Summary
    requires head.FileHead? && head.path != []
  {
    var answer := AnswerOf(copy, head, id);
    if IsSame(head.content, answer) then NOTHING.(same := 1)
    else
      var from := SendFrom(head.content, answer);
      NOTHING.(added := if head.path in copy.there then 0 else 1, replaced := if head.path in copy.there then 1 else 0,
               resumed := if from > 0 then 1 else 0, bytes := |head.content| - from)
  }

  // ---- the parts of a step -------------------------------------------------------------------------------

  lemma SawCounts(s: State, n: Name)
    requires Saw(s, n).Ok?
    ensures Saw(s, n).value.summary == s.summary && Saw(s, n).value.files == s.files
    ensures Saw(s, n).value.opts == s.opts
  {
  }

  lemma HeldAlone(files: Files, q: Path)
    requires Whole(files) && q in files && !files[q].Dir?
    ensures Held(files, {q}) == 1
  {
    var held := set p | p in files && Below({q}, p);
    forall p ensures p in held <==> p == q {
      if p in held {
        assert q <= p;
        if p != q { WholeAbove(files, q, p); }
      } else {
        assert q in {q} && q <= q;
      }
    }
    assert held == {q};
  }

  lemma EnterCounts(s: State, parent: Folder, n: Name, mode: nat, mtime: Option<nat>)
    requires Enter(s, parent, n, mode, mtime).Ok? && Whole(s.files)
    ensures var t, there, q := Enter(s, parent, n, mode, mtime).value, Stat(s, parent, n), PathIn(parent, n);
            && t.summary == Plus(s.summary,
                                 if there.Some? && there.value.Dir? then NOTHING
                                 else NOTHING.(dirs := 1, deleted := if there.Some? then 1 else 0))
            && forall p :: p in t.files ==> p in s.files || p == q
  {
    hide Whole;
    SawCounts(s, n);
    var there, q := Stat(s, parent, n), PathIn(parent, n);
    if there.Some? && !there.value.Dir? { HeldAlone(s.files, q); }
  }

  lemma SymlinkCounts(s: State, folder: Folder, n: Name, target: seq<byte>)
    requires Symlink(s, folder, n, target).Ok?
    ensures var t := Symlink(s, folder, n, target).value;
            && t.summary == Plus(s.summary, if Stat(s, folder, n) == Some(Link(target)) then NOTHING else NOTHING.(links := 1))
            && forall p :: p in t.files ==> p in s.files || p == PathIn(folder, n)
  {
    SawCounts(s, n);
  }

  lemma HeaderCounts(s: State, folder: Folder, header: FileHeader)
    requires Header(s, folder, header).Ok?
    ensures Header(s, folder, header).value.0.summary == s.summary && Header(s, folder, header).value.0.files == s.files
  {
    SawCounts(s, header.name);
    var saw := Saw(s, header.name).value;
    if Header(s, folder, header).value.1.Want? { SawCounts(saw, PartName(header.name)); }
  }

  lemma CloseCounts(s: State)
    requires DistinctPaths(s.closing)
    ensures CloseReady(s).summary == s.summary
    ensures forall p :: p in CloseReady(s).files ==> p in s.files
  {
    CloseReadyIs(s, TOP, []);
    forall p | p in CloseReady(s).files ensures p in s.files { Settling.SameThere(s, p); }
  }

  /** What happens to the entries and the counts at a step: no entry comes but those outside the
      parts, and the counts grow by `count`. */
  predicate Grows(s: State, t: State, count: Summary) {
    && t.summary == Plus(s.summary, count)
    && forall p :: p in t.files && !Plain(p) ==> p in s.files
  }

  lemma HeadCounts(copy: Copy, k: nat, m: nat, s: State)
    requires Inv(copy, k, m, s) && SendsHead(copy, Reached(copy, k), m)
    requires var w := Reached(copy, k); Received(s, ItemFor(NextHead(copy, w), |w.files|)).On?
    ensures var w := Reached(copy, k);
            Grows(s, Received(s, ItemFor(NextHead(copy, w), |w.files|)).state, HeadCount(copy, w))
  {
    hide Received, Inv, Good, Logged, Whole, Sources, Next, Goes, NextHead, Enter, Symlink, Header, Look, FolderIn;
    var w := Reached(copy, k);
    HeadSays(copy, w);
    ContentsPath(copy, w);
    ReceivedIs(copy, k, m, s);
    if NextHead(copy, w).path != [] {
      HeadWhere(copy, k, m, s);
      ComesCounts(copy, w, s);
    }
  }

  /** What is where the head lands, and that it lands outside the parts. */
  lemma HeadWhere(copy: Copy, k: nat, m: nat, s: State)
    requires Inv(copy, k, m, s) && SendsHead(copy, Reached(copy, k), m)
    requires NextHead(copy, Reached(copy, k)).path != [] && Sent(copy, NextHead(copy, Reached(copy, k)).path)
    ensures var q := NextHead(copy, Reached(copy, k)).path;
            && Whole(s.files) && Plain(q) && PathIn(FolderIn(copy, q), Leaf(q)) == q
            && Stat(PlacedIn(s), FolderIn(copy, q), Leaf(q)) == Get(copy.there, q)
  {
    hide Look, FolderIn, Stat;
    EntrySteps.HeadThere(copy, k, m, s);
    SentProper(copy, NextHead(copy, Reached(copy, k)).path);
  }

  lemma ComesCounts(copy: Copy, w: Walk, s: State)
    requires Goes(copy, w) && !NextHead(copy, w).EndHead? && Sent(copy, NextHead(copy, w).path)
    requires NextHead(copy, w).path != [] && Comes(copy, w, s).On? && Whole(s.files)
    requires var q := NextHead(copy, w).path;
             && Plain(q) && PathIn(FolderIn(copy, q), Leaf(q)) == q
             && Stat(PlacedIn(s), FolderIn(copy, q), Leaf(q)) == Get(copy.there, q)
    ensures Grows(s, Comes(copy, w, s).state, HeadCount(copy, w))
  {
    hide Goes, NextHead, Enter, Symlink, Header, Look, FolderIn, Whole, Saw;
    var head := NextHead(copy, w);
    var folder, n := FolderIn(copy, head.path), Leaf(head.path);
    match head
    case DirHead(_, _, mode, mtime) => EnterCounts(PlacedIn(s), folder, n, mode, mtime);
    case ContentsHead(_, mode, mtime) => EnterCounts(PlacedIn(s), folder, n, mode, mtime);
    case FileHead(_, _, _, _, _) => HeaderCounts(PlacedIn(s), folder, HeaderOf(head, |w.files|));
    case LinkHead(_, _, target) => SymlinkCounts(PlacedIn(s), folder, n, target);
    case SkipHead(_, _) => SawCounts(s, n);
  }

  // ---- a directory's end -----------------------------------------------------------------------------------

  /** What goes with a directory was there all along, and goes once. */
  lemma GonerThere(copy: Copy, w: Walk, m: nat, p: Path)
    requires SendsEnd(copy, w, m) && Goner(copy, NextHead(copy, w).path, p)
    ensures Expected(copy, w, m, p) == Get(copy.there, p)
  {
    var d := NextHead(copy, w).path;
    EndIs(copy, w, m);
    if Sent(copy, p) { GonerNotSent(copy, d, p); }
    forall n: nat | n < |p| && Ended(copy, w, p[..n]) && !Sent(copy, p[..n + 1]) ensures false {
      GoneOnce(copy, d, p, n);
    }
  }

  lemma GoneOnce(copy: Copy, d: Path, p: Path, n: nat)
    requires SentDir(copy, d) && d <= p && d != p && !Sent(copy, p[..|d| + 1])
    requires n < |p| && SentDir(copy, p[..n]) && !Sent(copy, p[..n + 1])
    ensures p[..n] == d
  {
    SentLength(copy, d);
    SentLength(copy, p[..n]);
    if n < |d| {
      assert d[..n + 1] == p[..n + 1];
      GonerNotSent(copy, p[..n], d);
    } else if n > |d| {
      assert p[..n][..|d| + 1] == p[..|d| + 1];
      GonerNotSent(copy, d, p[..n]);
    } else {
      assert p[..n] == d;
    }
  }

  /** The entries that go with a directory are as many as said, in a dry run or not. */
  lemma UnsentCount(copy: Copy, w: Walk, m: nat, s: State)
    requires SendsEnd(copy, w, m) && OpensOk(copy, w, s) && s.opts == copy.opts && s.open != []
    requires SeenOk(copy, w, m, s, |w.frames| - 1) && EntriesOk(copy, w, m, s) && Whole(s.files)
    requires NoParts(s.files) && NoParts(copy.there)
    requires Last(s.open).folder == FolderFor(copy, NextHead(copy, w).path)
    ensures Held(s.files, Unsent(s, Last(s.open))) == GonerCount(copy, NextHead(copy, w).path)
  {
    hide Good, Logged, Goes, NextHead, OpensOk, SeenOk, Unsent, FolderFor, Look;
    var d, tops := NextHead(copy, w).path, Unsent(s, Last(s.open));
    var held := set p | p in s.files && Below(tops, p);
    var goners := set p | p in copy.there && Goner(copy, d, p);
    forall p ensures p in held <==> p in goners { UnsentOne(copy, w, m, s, p); }
    assert held == goners;
  }

  lemma UnsentOne(copy: Copy, w: Walk, m: nat, s: State, p: Path)
    requires SendsEnd(copy, w, m) && OpensOk(copy, w, s) && s.opts == copy.opts && s.open != []
    requires SeenOk(copy, w, m, s, |w.frames| - 1) && EntriesOk(copy, w, m, s) && Whole(s.files)
    requires NoParts(s.files) && NoParts(copy.there)
    requires Last(s.open).folder == FolderFor(copy, NextHead(copy, w).path)
    ensures p in s.files && Below(Unsent(s, Last(s.open)), p) <==> p in copy.there && Goner(copy, NextHead(copy, w).path, p)
  {
    hide Good, Logged, Goes, NextHead, OpensOk, SeenOk, Look, Goner, Whole, Sources, Starts, Next, PartOk, TimeOk;
    var d := NextHead(copy, w).path;
    EndIs(copy, w, m);
    FolderPresent(copy, d);
    if p in s.files && Last(s.open).folder.present { BelowUnsent(copy, w, m, s, p); }
    if Goner(copy, d, p) {
      GonerThere(copy, w, m, p);
      if !copy.opts.dryRun && Plain(p) { assert FileOk(copy, w, m, s.files, p); }
      if p in copy.there && !Last(s.open).folder.present { NotThere(copy, d, p); }
    }
  }

  lemma FolderPresent(copy: Copy, d: Path)
    requires SentDir(copy, d)
    ensures FolderFor(copy, d).present <==> !copy.opts.dryRun || IsDir(copy.there, d)
  {
  }

  /** Nothing is in what is no directory. */
  lemma NotThere(copy: Copy, d: Path, p: Path)
    requires Starts(copy) && p in copy.there && Goner(copy, d, p)
    ensures IsDir(copy.there, d)
  {
    WholeAbove(copy.there, d, p);
  }

  lemma EndCounts(copy: Copy, k: nat, m: nat, s: State)
    requires Inv(copy, k, m, s) && SendsEnd(copy, Reached(copy, k), m) && NoParts(s.files) && NoParts(copy.there)
    ensures Received(s, EndItem).On?
    ensures Grows(s, Received(s, EndItem).state, HeadCount(copy, Reached(copy, k)))
  {
    hide Good, Logged, Goes, NextHead, OpensOk, SeenOk, Look, Unsent, Whole, Received, PendingOk, ClosingOk, EntriesOk;
    var w := Reached(copy, k);
    EndFolder(copy, w, m, s);
    EndReceived(s);
    assert SeenOk(copy, w, m, s, |w.frames| - 1);
    if !copy.opts.dryRun { NowWhole(copy, w, m, s); } else { DryWhole(copy, w, m, s); }
    UnsentCount(copy, w, m, s);
    LeavingCounts(s);
    LeavingDistinct(copy, k, m, s);
    CloseCounts(Leaving(s));
  }

  lemma NowWhole(copy: Copy, w: Walk, m: nat, s: State)
    requires EntriesOk(copy, w, m, s) && !copy.opts.dryRun
    ensures Whole(s.files)
  {
  }

  lemma DryWhole(copy: Copy, w: Walk, m: nat, s: State)
    requires EntriesOk(copy, w, m, s) && copy.opts.dryRun && Starts(copy)
    ensures Whole(s.files)
  {
  }

  lemma LeavingCounts(s: State)
    requires s.open != []
    ensures Leaving(s).summary == Plus(s.summary, NOTHING.(deleted := Held(s.files, Unsent(s, Last(s.open)))))
    ensures forall p :: p in Leaving(s).files ==> p in s.files
  {
    hide Unsent, Held;
  }

  lemma LeavingDistinct(copy: Copy, k: nat, m: nat, s: State)
    requires Inv(copy, k, m, s) && SendsEnd(copy, Reached(copy, k), m) && s.open != []
    requires var d := NextHead(copy, Reached(copy, k)).path; SentDir(copy, d) && Last(s.open).folder == FolderFor(copy, d)
    ensures DistinctPaths(Leaving(s).closing)
  {
    hide Good, Logged, NextHead, Look, Unsent, Leaving, Inv, Settling.InvPre, Next, DistinctPaths, FolderFor, Starts;
    LeavingKeeps(copy, k, m, s);
    PreDistinct(copy, Next(copy, Reached(copy, k)), m, Leaving(s));
  }

  lemma PreDistinct(copy: Copy, w: Walk, m: nat, t: State)
    requires Settling.InvPre(copy, w, m, t)
    ensures DistinctPaths(t.closing)
  {
  }
}
