/** How many names the receiver of a copy with `--delete` holds at once, said of the two trees. */
module Names {
  import opened Bytes
  import opened Files
  import opened Walk
  import opened Course
  import opened Receive
  import opened Landing
  import opened LandFacts
  import opened Heads
  import opened HeadSteps
  import opened Headers
  import opened EndSteps

  // ---- what the trees say ------------------------------------------------------------------------------

  /** A file of the source's size stands there: no part of its is looked at. */
  predicate SizeThere(copy: Copy, p: Path, size: nat) {
    p in copy.there && copy.there[p].File? && |copy.there[p].content| == size
  }

  /** The names noted for an entry: its own, and its part's if it may go on from one. */
  function NamesFor(copy: Copy, p: Path, node: Node): nat {
    if node.NFile? && !SizeThere(copy, p, |node.content|) then 2 else 1
  }

  function NamesIn(copy: Copy, d: Path, entries: seq<Named>): nat {
    if entries == [] then 0 else NamesFor(copy, d + [entries[0].name], entries[0].node) + NamesIn(copy, d, entries[1..])
  }

  /** Those noted for the entries of `d` up to the one named `n`. */
  function NamesUpto(copy: Copy, d: Path, entries: seq<Named>, n: Name): nat {
    if entries == [] then 0
    else NamesFor(copy, d + [entries[0].name], entries[0].node)
         + if entries[0].name == n then 0 else NamesUpto(copy, d, entries[1..], n)
  }

  /** The names held once the entry at `p` is sent: of each directory on its way, those of what was sent of it. */
  ghost function NamesAt(copy: Copy, p: Path): nat
    decreases |p|
  {
    if |p| <= Base(copy) || !SentDir(copy, Parent(p)) then 0
    else NamesAt(copy, Parent(p)) + NamesUpto(copy, Parent(p), KeptOf(copy, Parent(p)), Leaf(p))
  }

  lemma {:induction false} UptoIs(copy: Copy, d: Path, entries: seq<Named>, k: nat)
    requires Distinct(entries) && k < |entries|
    ensures NamesUpto(copy, d, entries, entries[k].name) + NamesIn(copy, d, entries[k + 1..]) == NamesIn(copy, d, entries)
    decreases k
  {
    var rest := entries[1..];
    if k > 0 {
      assert rest[k - 1] == entries[k] && rest[k..] == entries[k + 1..];
      assert forall i, j :: 0 <= i < j < |rest| ==> rest[i] == entries[i + 1] && rest[j] == entries[j + 1];
      UptoIs(copy, d, rest, k - 1);
    }
  }

  // ---- what the walk took --------------------------------------------------------------------------------

  /** The names noted for what the walk took of a frame. */
  ghost function Noted(copy: Copy, f: Frame): int
    requires SentDir(copy, f.path)
  {
    NamesIn(copy, f.path, KeptOf(copy, f.path)) - NamesIn(copy, f.path, f.rest)
  }

  ghost function NotedAll(copy: Copy, frames: seq<Frame>): int {
    if frames == [] then 0
    else NotedAll(copy, Front(frames)) + if SentDir(copy, Last(frames).path) then Noted(copy, Last(frames)) else 0
  }

  /** A frame has the last of its directory's entries left. */
  ghost predicate Tracks(copy: Copy, f: Frame) {
    SentDir(copy, f.path) && var kept := KeptOf(copy, f.path); |f.rest| <= |kept| && f.rest == kept[|kept| - |f.rest|..]
  }

  /** And the one before them is what the next frame is in. */
  ghost predicate GoesInto(copy: Copy, f: Frame, next: Path)
    requires Tracks(copy, f)
  {
    var kept := KeptOf(copy, f.path);
    |f.rest| < |kept| && next == f.path + [kept[|kept| - |f.rest| - 1].name]
  }

  ghost predicate AllTrack(copy: Copy, frames: seq<Frame>) {
    && (forall i :: 0 <= i < |frames| ==> Tracks(copy, frames[i]))
    && forall i, j :: 0 <= i && j == i + 1 && j < |frames| ==> GoesInto(copy, frames[i], frames[j].path)
  }

  lemma {:induction false} ReachedTracks(copy: Copy, k: nat)
    requires Sources(copy)
    ensures AllTrack(copy, Reached(copy, k).frames)
  {
    hide Tracks, GoesInto, Good, Logged, Sources, Next, Goes;
    if k > 0 {
      var w := Reached(copy, k - 1);
      ReachedTracks(copy, k - 1);
      ReachedGood(copy, k - 1);
      if Goes(copy, w) { StepTracks(copy, w); }
    }
  }

  lemma PushTracks(copy: Copy, frames: seq<Frame>, f: Frame)
    requires AllTrack(copy, frames) && Tracks(copy, f) && (frames != [] ==> GoesInto(copy, Last(frames), f.path))
    ensures AllTrack(copy, frames + [f])
  {
    hide Tracks, GoesInto;
    var more := frames + [f];
    forall i | 0 <= i < |more| ensures Tracks(copy, more[i]) { if i < |frames| { assert more[i] == frames[i]; } }
    forall i, j | 0 <= i && j == i + 1 && j < |more| ensures GoesInto(copy, more[i], more[j].path) {
      assert more[i] == frames[i];
      if j < |frames| { assert more[j] == frames[j]; }
    }
  }

  lemma FrontTracks(copy: Copy, frames: seq<Frame>)
    requires AllTrack(copy, frames) && frames != []
    ensures AllTrack(copy, Front(frames)) && Tracks(copy, Last(frames))
    ensures Front(frames) != [] ==> Tracks(copy, Last(Front(frames))) && GoesInto(copy, Last(Front(frames)), Last(frames).path)
  {
    hide Tracks, GoesInto;
    var front := Front(frames);
    forall i | 0 <= i < |front| ensures front[i] == frames[i] {}
    if front != [] { assert GoesInto(copy, frames[|frames| - 2], frames[|frames| - 1].path); }
  }

  lemma TakeTracks(copy: Copy, f: Frame)
    requires Tracks(copy, f) && f.rest != []
    ensures Tracks(copy, f.(rest := f.rest[1..])) && GoesInto(copy, f.(rest := f.rest[1..]), f.path + [f.rest[0].name])
    ensures Noted(copy, f.(rest := f.rest[1..])) == Noted(copy, f) + NamesFor(copy, f.path + [f.rest[0].name], f.rest[0].node)
  {
    var kept := KeptOf(copy, f.path);
    assert f.rest[0] == kept[|kept| - |f.rest|];
  }

  lemma StepTracks(copy: Copy, w: Walk)
    requires Sources(copy) && Good(copy, w) && Goes(copy, w) && AllTrack(copy, w.frames)
    ensures AllTrack(copy, Next(copy, w).frames)
  {
    hide Good, Look, Sources, Tracks, GoesInto, AllTrack, SentDir;
    NextIs(copy, w);
    if NextHead(copy, w).EndHead? {
      FrontTracks(copy, w.frames);
    } else {
      var q, t := NextHead(copy, w).path, Taken(copy, w);
      NextPath(copy, w);
      TakenTracks(copy, w);
      if NextNode(copy, w).NDir? {
        NewTracks(copy, q);
        PushTracks(copy, t.frames, Frame(q, KeptOf(copy, q)));
      }
    }
  }

  lemma NewTracks(copy: Copy, q: Path)
    requires SentDir(copy, q)
    ensures Tracks(copy, Frame(q, KeptOf(copy, q))) && Noted(copy, Frame(q, KeptOf(copy, q))) == 0
  {
  }

  lemma TakenTracks(copy: Copy, w: Walk)
    requires Sources(copy) && Good(copy, w) && Goes(copy, w) && AllTrack(copy, w.frames) && !NextHead(copy, w).EndHead?
    ensures AllTrack(copy, Taken(copy, w).frames)
    ensures Taken(copy, w).frames != [] ==> GoesInto(copy, Last(Taken(copy, w).frames), NextHead(copy, w).path)
  {
    hide Good, Look, Sources, Tracks, GoesInto, AllTrack, SentDir;
    if w.frames != [] {
      var f := Last(w.frames);
      FrontTracks(copy, w.frames);
      NextPath(copy, w);
      TakeTracks(copy, f);
      PushTracks(copy, Front(w.frames), f.(rest := f.rest[1..]));
    }
  }

  /** The names noted in the open directories, by the path of the innermost. */
  lemma {:induction false} NotedIs(copy: Copy, frames: seq<Frame>)
    requires Sources(copy) && AllTrack(copy, frames) && frames != [] && |frames[0].path| == Base(copy)
    ensures SentDir(copy, Last(frames).path)
    ensures NotedAll(copy, frames) == NamesAt(copy, Last(frames).path) + Noted(copy, Last(frames))
    decreases |frames|
  {
    hide Sources, Look, SentDir, NamesUpto, NamesIn, AllTrack, GoesInto;
    FrontTracks(copy, frames);
    var front, last := Front(frames), Last(frames);
    if front != [] {
      NotedIs(copy, front);
      IntoNames(copy, Last(front), last.path);
    }
  }

  lemma IsSent(copy: Copy, p: Path)
    requires SentDir(copy, p)
    ensures Sent(copy, p)
  {
  }

  lemma IntoNames(copy: Copy, f: Frame, p: Path)
    requires Sources(copy) && Tracks(copy, f) && GoesInto(copy, f, p) && SentDir(copy, f.path)
    ensures NamesAt(copy, p) == NamesAt(copy, f.path) + Noted(copy, f)
  {
    hide Look, Sources, SentDir, NamesUpto, NamesIn, KeptOf, NamesFor;
    var kept := KeptOf(copy, f.path);
    var k := |kept| - |f.rest| - 1;
    ChildPath(f.path, kept[k].name);
    PushedFrame(copy, f.path);
    UptoIs(copy, f.path, kept, k);
    assert kept[k + 1..] == f.rest;
    IsSent(copy, f.path);
    SentLength(copy, f.path);
  }

  // ---- what the receiver noted -----------------------------------------------------------------------------

  /** The receiver's count is of the names it holds, those of each open directory for what the walk took of it. */
  ghost predicate Counts(copy: Copy, w: Walk, s: State) {
    copy.opts.delete ==>
      && |s.open| == |w.frames| && s.seen == NotedAll(copy, w.frames)
      && forall i :: 0 <= i < |w.frames| ==> CountsAt(copy, w, s, i)
  }

  ghost predicate CountsAt(copy: Copy, w: Walk, s: State, i: int)
    requires 0 <= i < |w.frames| && i < |s.open|
  {
    && s.open[i].seen.Some? && SentDir(copy, w.frames[i].path) && |s.open[i].seen.value| == Noted(copy, w.frames[i])
    && forall n :: PartName(n) in s.open[i].seen.value ==> Gone(copy, w, w.frames[i].path + [n])
  }

  /** `n` is not noted yet. */
  predicate New(s: State, n: Name) {
    s.open != [] && Last(s.open).seen.Some? && n !in Last(s.open).seen.value
  }

  lemma SawNew(s: State, n: Name)
    requires New(s, n)
    ensures Saw(s, n) == if s.seen + 1 > MAX_SEEN then Err(TooMany, s.files)
                         else Ok(s.(open := Noting(s.open, {n}), seen := s.seen + 1))
  {
  }

  lemma SawNothing(s: State, n: Name)
    requires s.open == [] || Last(s.open).seen.None?
    ensures Saw(s, n) == Ok(s)
  {
  }

  lemma EnterNames(s: State, parent: Folder, n: Name, mode: nat, mtime: Option<nat>)
    requires New(s, n) && s.opts.delete
    ensures var r := Enter(s, parent, n, mode, mtime);
            && (r.Ok? ==> && s.seen + 1 <= MAX_SEEN && r.value.seen == s.seen + 1
                          && |r.value.open| == |s.open| + 1 && r.value.open[..|s.open|] == Noting(s.open, {n})
                          && r.value.open[|s.open|].seen == Some({}))
            && (r.Err? && r.fail == TooMany ==> s.seen + 1 > MAX_SEEN)
  {
    hide Making, EnteredFolder;
    SawNew(s, n);
    if Saw(s, n).Ok? { MakingOpen(Saw(s, n).value, parent, PathIn(parent, n), Stat(s, parent, n)); }
  }

  lemma MakingOpen(s: State, parent: Folder, path: Path, there: Option<Entry>)
    ensures var t := Making(s, parent, path, there); t.open == s.open && t.seen == s.seen && t.opts == s.opts
  {
  }

  lemma SymlinkNames(s: State, folder: Folder, n: Name, target: seq<byte>)
    requires New(s, n)
    ensures var r := Symlink(s, folder, n, target);
            && (r.Ok? ==> s.seen + 1 <= MAX_SEEN && r.value.seen == s.seen + 1 && r.value.open == Noting(s.open, {n}))
            && (r.Err? && r.fail == TooMany ==> s.seen + 1 > MAX_SEEN)
  {
    SawNew(s, n);
  }

  lemma HeaderNames(s: State, folder: Folder, header: FileHeader)
    requires New(s, header.name) && New(s, PartName(header.name)) && !IsPart(header.name)
    ensures var r := Header(s, folder, header);
            var there := Stat(s, folder, header.name);
            var sized := there.Some? && there.value.File? && |there.value.content| == header.size;
            var names := if sized then {header.name} else {header.name, PartName(header.name)};
            var count := if sized then 1 else 2;
            && (r.Ok? ==> s.seen + count <= MAX_SEEN && r.value.0.seen == s.seen + count && r.value.0.open == Noting(s.open, names))
            && (r.Err? && r.fail == TooMany ==> s.seen + count > MAX_SEEN)
  {
    PartNames(header.name);
    SawNew(s, header.name);
    if Saw(s, header.name).Ok? {
      var saw := Saw(s, header.name).value;
      assert New(saw, PartName(header.name));
      SawNew(saw, PartName(header.name));
      NotingTwice(s.open, header.name, PartName(header.name));
    }
  }

  // ---- a header's names ------------------------------------------------------------------------------------

  /** The names held with the next entry's are those held and its own. */
  lemma AtIs(copy: Copy, w: Walk)
    requires Sources(copy) && Good(copy, w) && Goes(copy, w) && AllTrack(copy, w.frames) && !NextHead(copy, w).EndHead?
    ensures var q := NextHead(copy, w).path;
            NamesAt(copy, q) == if w.frames == [] then 0 else NotedAll(copy, w.frames) + NamesFor(copy, q, NextNode(copy, w))
  {
    hide Look, Sources, Tracks, GoesInto, AllTrack, SentDir, NamesFor;
    NextPath(copy, w);
    if w.frames != [] {
      var f := Last(w.frames);
      FrontTracks(copy, w.frames);
      assert |w.frames[0].path| == Base(copy) + 0;
      NotedIs(copy, w.frames);
      TakeTracks(copy, f);
      IntoNames(copy, f.(rest := f.rest[1..]), NextHead(copy, w).path);
    }
  }

  lemma EntryIsNew(copy: Copy, w: Walk, m: nat, s: State)
    requires SendsHead(copy, w, m) && w.frames != [] && copy.opts.delete
    requires SeenOk(copy, w, m, s, |w.frames| - 1) && Counts(copy, w, s)
    ensures var q := NextHead(copy, w).path;
            q != [] && !IsPart(Leaf(q)) && New(s, Leaf(q)) && New(s, PartName(Leaf(q)))
  {
    hide Look, Sources, Good, Goes, Gone, NextHead, Logged, NeedsPart, Whole, KeptOf, SentDir, Noted, NotedAll;
    HeadSays(copy, w);
    var q := NextHead(copy, w).path;
    StepGone(copy, w, q);
    SentProper(copy, q);
    PlainLeaf(q);
    var last := |w.frames| - 1;
    assert CountsAt(copy, w, s, last);
    assert w.frames[last].path + [Leaf(q)] == q;
  }

  lemma PlainLeaf(q: Path)
    requires Plain(q) && q != []
    ensures !IsPart(Leaf(q))
  {
  }

  /** The names noted, counted. */
  ghost predicate NotesOn(copy: Copy, q: Path, node: Node, s: State, t: State, names: set<Name>)
    requires q != [] && s.open != []
  {
    && (names == {Leaf(q)} || names == {Leaf(q), PartName(Leaf(q))}) && |names| == NamesFor(copy, q, node)
    && t.seen == s.seen + NamesFor(copy, q, node)
    && |t.open| == |s.open| + (if node.NDir? then 1 else 0) && t.open[..|s.open|] == Noting(s.open, names)
    && (node.NDir? ==> t.open[|s.open|].seen == Some({}))
  }

  lemma TwoNames(n: Name)
    requires !IsPart(n)
    ensures |{n}| == 1 && |{n, PartName(n)}| == 2
  {
    PartNames(n);
  }

  /** The names noted are new, so all counted, and each part's is of an entry gone. */
  lemma LastNotes(copy: Copy, w: Walk, s: State, t: State, names: set<Name>)
    requires w.frames != [] && |s.open| == |w.frames| && CountsAt(copy, w, s, |w.frames| - 1)
    requires Sources(copy) && Good(copy, w) && Goes(copy, w) && !NextHead(copy, w).EndHead? && NextHead(copy, w).path != []
    requires var q := NextHead(copy, w).path;
             && Parent(q) == Last(w.frames).path && !IsPart(Leaf(q)) && New(s, Leaf(q)) && New(s, PartName(Leaf(q)))
             && NotesOn(copy, q, NextNode(copy, w), s, t, names)
    ensures var last, was := |w.frames| - 1, Last(s.open).seen.value;
            && last < |t.open| && t.open[last].seen == Some(was + names) && |was + names| == |was| + |names|
            && forall n :: PartName(n) in was + names ==> Gone(copy, Next(copy, w), Last(w.frames).path + [n])
  {
    hide Look, Sources, Gone, KeptOf, NamesFor, SentDir, Good, Goes, NextHead, Next, Noted;
    var last, q := |w.frames| - 1, NextHead(copy, w).path;
    var was := Last(s.open).seen.value;
    NotingIs(s.open, names, last);
    assert t.open[last] == Noting(s.open, names)[last];
    assert was !! names;
    forall n | PartName(n) in was + names ensures Gone(copy, Next(copy, w), Last(w.frames).path + [n]) {
      StepGone(copy, w, Last(w.frames).path + [n]);
      PartNames(n);
      PartNames(Leaf(q));
      assert Parent(q) + [Leaf(q)] == q;
    }
  }

  lemma LastCounts(copy: Copy, w: Walk, s: State, t: State, names: set<Name>)
    requires Sources(copy) && Good(copy, w) && Goes(copy, w) && AllTrack(copy, w.frames) && !NextHead(copy, w).EndHead? && w.frames != []
    requires copy.opts.delete && Counts(copy, w, s)
    requires var q := NextHead(copy, w).path;
             && q != [] && !IsPart(Leaf(q)) && New(s, Leaf(q)) && New(s, PartName(Leaf(q)))
             && NotesOn(copy, q, NextNode(copy, w), s, t, names)
    ensures |w.frames| <= |Next(copy, w).frames| && CountsAt(copy, Next(copy, w), t, |w.frames| - 1)
  {
    hide Look, Sources, AllTrack, Tracks, GoesInto, Gone, KeptOf, NamesFor, SentDir, Good, Goes, NextHead, NextNode, New;
    var last := |w.frames| - 1;
    var f := Last(w.frames);
    assert CountsAt(copy, w, s, last);
    FrontTracks(copy, w.frames);
    NextPath(copy, w);
    LastFrame(copy, w);
    TakeTracks(copy, f);
    LastNotes(copy, w, s, t, names);
  }

  lemma LastFrame(copy: Copy, w: Walk)
    requires Sources(copy) && Good(copy, w) && Goes(copy, w) && !NextHead(copy, w).EndHead? && w.frames != []
    ensures var f := Last(w.frames);
            && f.rest != [] && NextHead(copy, w).path == f.path + [f.rest[0].name] && NextNode(copy, w) == f.rest[0].node
            && |w.frames| <= |Next(copy, w).frames| && Next(copy, w).frames[|w.frames| - 1] == f.(rest := f.rest[1..])
  {
    hide Sources, Good, Look;
    NextIs(copy, w);
  }

  lemma AboveCounts(copy: Copy, w: Walk, s: State, t: State, names: set<Name>, i: nat)
    requires Sources(copy) && Good(copy, w) && Goes(copy, w) && !NextHead(copy, w).EndHead? && i < |w.frames| - 1
    requires |s.open| == |w.frames| && CountsAt(copy, w, s, i)
    requires NextHead(copy, w).path != [] && NotesOn(copy, NextHead(copy, w).path, NextNode(copy, w), s, t, names)
    ensures i < |Next(copy, w).frames| && CountsAt(copy, Next(copy, w), t, i)
  {
    hide Look, Sources, Gone, KeptOf, NamesFor, SentDir, Good;
    NextPath(copy, w);
    NextIs(copy, w);
    NotingIs(s.open, names, i);
    assert t.open[i] == Noting(s.open, names)[i] == s.open[i];
    assert Next(copy, w).frames[i] == w.frames[i];
    forall n | PartName(n) in s.open[i].seen.value ensures Gone(copy, Next(copy, w), w.frames[i].path + [n]) {
      StepGone(copy, w, w.frames[i].path + [n]);
    }
  }

  lemma NewCounts(copy: Copy, w: Walk, t: State)
    requires Sources(copy) && Good(copy, w) && Goes(copy, w) && !NextHead(copy, w).EndHead? && NextNode(copy, w).NDir?
    requires |w.frames| < |t.open| && t.open[|w.frames|].seen == Some({})
    ensures |w.frames| < |Next(copy, w).frames| && CountsAt(copy, Next(copy, w), t, |w.frames|)
    ensures Last(Next(copy, w).frames) == Next(copy, w).frames[|w.frames|] && SentDir(copy, Last(Next(copy, w).frames).path)
    ensures Noted(copy, Last(Next(copy, w).frames)) == 0
  {
    hide Sources, Gone, NamesFor, Good;
    NextPath(copy, w);
    NextIs(copy, w);
    NewTracks(copy, NextHead(copy, w).path);
  }

  lemma NotedOn(copy: Copy, w: Walk, s: State, t: State, names: set<Name>)
    requires Sources(copy) && Good(copy, w) && Goes(copy, w) && AllTrack(copy, w.frames) && !NextHead(copy, w).EndHead? && w.frames != []
    requires copy.opts.delete && Counts(copy, w, s)
    requires var q := NextHead(copy, w).path;
             && q != [] && !IsPart(Leaf(q)) && New(s, Leaf(q)) && New(s, PartName(Leaf(q)))
             && NotesOn(copy, q, NextNode(copy, w), s, t, names)
    ensures Counts(copy, Next(copy, w), t)
  {
    hide Look, Sources, AllTrack, Tracks, GoesInto, Gone, KeptOf, NamesFor, SentDir, Good, CountsAt, New;
    var e, last := Next(copy, w), |w.frames| - 1;
    NextPath(copy, w);
    NextIs(copy, w);
    LastCounts(copy, w, s, t, names);
    forall i: nat | i < last ensures i < |e.frames| && CountsAt(copy, e, t, i) { AboveCounts(copy, w, s, t, names, i); }
    if NextNode(copy, w).NDir? { NewCounts(copy, w, t); }
    AllNoted(copy, w);
  }

  lemma OneMoreNoted(copy: Copy, frames: seq<Frame>, f: Frame)
    requires SentDir(copy, f.path)
    ensures NotedAll(copy, frames + [f]) == NotedAll(copy, frames) + Noted(copy, f)
  {
    hide SentDir, Noted;
    assert Front(frames + [f]) == frames && Last(frames + [f]) == f;
  }

  lemma TakenIs(copy: Copy, w: Walk)
    requires Goes(copy, w) && !NextHead(copy, w).EndHead? && w.frames != []
    ensures var f := Last(w.frames);
            && f.rest != [] && Taken(copy, w).frames == Front(w.frames) + [f.(rest := f.rest[1..])]
            && NextHead(copy, w).path == f.path + [f.rest[0].name] && NextNode(copy, w) == f.rest[0].node
  {
  }

  lemma TakenNoted(copy: Copy, w: Walk)
    requires Goes(copy, w) && AllTrack(copy, w.frames) && !NextHead(copy, w).EndHead? && w.frames != []
    ensures NotedAll(copy, Taken(copy, w).frames) ==
            NotedAll(copy, w.frames) + NamesFor(copy, NextHead(copy, w).path, NextNode(copy, w))
  {
    hide AllTrack, NamesFor, Noted, NotedAll, KeptOf, SentDir, Goes, NextHead, NextNode, Taken;
    var f := Last(w.frames);
    TakenIs(copy, w);
    FrontTracks(copy, w.frames);
    TakeTracks(copy, f);
    OneMoreNoted(copy, Front(w.frames), f);
    OneMoreNoted(copy, Front(w.frames), f.(rest := f.rest[1..]));
    assert Front(w.frames) + [f] == w.frames;
  }

  lemma AllNoted(copy: Copy, w: Walk)
    requires Sources(copy) && Good(copy, w) && Goes(copy, w) && AllTrack(copy, w.frames) && !NextHead(copy, w).EndHead?
    ensures var q := NextHead(copy, w).path;
            NotedAll(copy, Next(copy, w).frames) ==
            NotedAll(copy, w.frames) + if w.frames == [] then 0 else NamesFor(copy, q, NextNode(copy, w))
  {
    hide Look, Sources, AllTrack, NamesFor, Good, Noted, NotedAll, KeptOf, SentDir, Goes, NextHead, NextNode, Taken;
    var t, q := Taken(copy, w), NextHead(copy, w).path;
    NextPath(copy, w);
    NextIs(copy, w);
    if w.frames != [] {
      TakenNoted(copy, w);
    } else {
      assert t.frames == [] by { NoneTaken(copy, w); }
    }
    if NextNode(copy, w).NDir? {
      IsSentDir(copy, q);
      NewTracks(copy, q);
      OneMoreNoted(copy, t.frames, Frame(q, KeptOf(copy, q)));
      KeptIsOf(copy, w);
    }
  }

  lemma NoneTaken(copy: Copy, w: Walk)
    requires Goes(copy, w) && !NextHead(copy, w).EndHead? && w.frames == []
    ensures Taken(copy, w).frames == []
  {
  }

  lemma IsSentDir(copy: Copy, q: Path)
    requires Look(copy, q).Some? && Look(copy, q).value.NDir?
    ensures SentDir(copy, q)
  {
  }

  lemma KeptIsOf(copy: Copy, w: Walk)
    requires Sources(copy) && Good(copy, w) && Goes(copy, w) && !NextHead(copy, w).EndHead? && NextNode(copy, w).NDir?
    requires SentDir(copy, NextHead(copy, w).path)
    ensures var q := NextHead(copy, w).path; Next(copy, w).frames == Taken(copy, w).frames + [Frame(q, KeptOf(copy, q))]
  {
    hide Sources, Good, Look;
    NextPath(copy, w);
    NextIs(copy, w);
  }

  // ---- a header received -----------------------------------------------------------------------------------

  /** What a header comes to, by its names: it is noted and counted, within the bound; or refused past it. */
  ghost predicate Bounded(copy: Copy, w: Walk, r: Step)
    requires Goes(copy, w)
  {
    var q := NextHead(copy, w).path;
    && (r.On? ==> Counts(copy, Next(copy, w), r.state) && NamesAt(copy, q) <= MAX_SEEN)
    && (r.Over? && r.fail == Some(TooMany) ==> NamesAt(copy, q) > MAX_SEEN)
  }

  /** At the top, nothing is noted. */
  lemma TopNoted(copy: Copy, w: Walk, s: State, r: Step)
    requires Sources(copy) && Good(copy, w) && Goes(copy, w) && AllTrack(copy, w.frames) && !NextHead(copy, w).EndHead? && w.frames == []
    requires Counts(copy, w, s) && s.seen == 0
    requires r.On? ==> r.state.seen == 0 && |r.state.open| == (if NextNode(copy, w).NDir? then 1 else 0)
                       && (NextNode(copy, w).NDir? ==> r.state.open[0].seen == Some({}))
    requires r.Over? ==> r.fail != Some(TooMany)
    ensures Bounded(copy, w, r)
  {
    hide Look, Sources, NamesFor, Good, KeptOf, Goes, NextHead, NextNode, Taken, Noted, SentDir, AllTrack;
    AtIs(copy, w);
    AllNoted(copy, w);
    NextIs(copy, w);
    NoneTaken(copy, w);
    if r.On? && NextNode(copy, w).NDir? { NewCounts(copy, w, r.state); }
  }

  lemma TopNames(copy: Copy, w: Walk, s: State)
    requires Sources(copy) && Good(copy, w) && Goes(copy, w) && AllTrack(copy, w.frames) && !NextHead(copy, w).EndHead? && w.frames == []
    requires s.open == [] && s.seen == 0 && s.opts == copy.opts && copy.opts.delete && Sent(copy, NextHead(copy, w).path)
    requires NextHead(copy, w).path == [] ==> NextHead(copy, w).ContentsHead?
    ensures Bounded(copy, w, Comes(copy, w, s))
  {
    hide Look, Sources, NamesFor, Good, KeptOf, Goes, NextHead, NextNode, Taken, Noted, SentDir, AllTrack, Bounded, Making, EnteredFolder;
    HeadSays(copy, w);
    NextPath(copy, w);
    var head := NextHead(copy, w);
    var r := Comes(copy, w, s);
    if head.path != [] {
      var placed, folder, name := PlacedIn(s), FolderIn(copy, head.path), Leaf(head.path);
      SawNothing(placed, name);
      SawNothing(placed, PartName(name));
      if head.DirHead? || head.ContentsHead? { MakingOpen(placed, folder, PathIn(folder, name), Stat(placed, folder, name)); }
    }
    TopNoted(copy, w, s, r);
  }

  /** In a directory, the entry's names are noted. */
  lemma InsideNoted(copy: Copy, w: Walk, s: State, r: Step, names: set<Name>)
    requires Sources(copy) && Good(copy, w) && Goes(copy, w) && AllTrack(copy, w.frames) && !NextHead(copy, w).EndHead? && w.frames != []
    requires copy.opts.delete && Counts(copy, w, s)
    requires var q := NextHead(copy, w).path;
             && q != [] && !IsPart(Leaf(q)) && New(s, Leaf(q)) && New(s, PartName(Leaf(q)))
             && (r.On? ==> NotesOn(copy, q, NextNode(copy, w), s, r.state, names) && r.state.seen <= MAX_SEEN)
             && (r.Over? && r.fail == Some(TooMany) ==> s.seen + NamesFor(copy, q, NextNode(copy, w)) > MAX_SEEN)
    ensures Bounded(copy, w, r)
  {
    hide Look, Sources, NamesFor, Good, KeptOf, Goes, NextHead, NextNode, Taken, Noted, SentDir, AllTrack, New, CountsAt;
    AtIs(copy, w);
    if r.On? { NotedOn(copy, w, s, r.state, names); }
  }

  /** An entry of one name. */
  lemma OneInside(copy: Copy, w: Walk, s: State, r: Step)
    requires Sources(copy) && Good(copy, w) && Goes(copy, w) && AllTrack(copy, w.frames) && !NextHead(copy, w).EndHead? && w.frames != []
    requires copy.opts.delete && Counts(copy, w, s) && !NextNode(copy, w).NFile?
    requires var q := NextHead(copy, w).path;
             && q != [] && !IsPart(Leaf(q)) && New(s, Leaf(q)) && New(s, PartName(Leaf(q)))
             && (r.On? ==>
                   && r.state.seen == s.seen + 1 <= MAX_SEEN
                   && |r.state.open| == |s.open| + (if NextNode(copy, w).NDir? then 1 else 0)
                   && r.state.open[..|s.open|] == Noting(s.open, {Leaf(q)})
                   && (NextNode(copy, w).NDir? ==> r.state.open[|s.open|].seen == Some({})))
             && (r.Over? && r.fail == Some(TooMany) ==> s.seen + 1 > MAX_SEEN)
    ensures Bounded(copy, w, r)
  {
    hide Look, Sources, Good, KeptOf, Goes, NextHead, NextNode, Noted, AllTrack, Bounded, CountsAt;
    TwoNames(Leaf(NextHead(copy, w).path));
    InsideNoted(copy, w, s, r, {Leaf(NextHead(copy, w).path)});
  }

  lemma DirInside(copy: Copy, w: Walk, s: State)
    requires Sources(copy) && Good(copy, w) && Goes(copy, w) && AllTrack(copy, w.frames) && NextHead(copy, w).DirHead? && w.frames != []
    requires copy.opts.delete && s.opts == copy.opts && Counts(copy, w, s) && Sent(copy, NextHead(copy, w).path)
    requires var q := NextHead(copy, w).path;
             q != [] && !IsPart(Leaf(q)) && New(s, Leaf(q)) && New(s, PartName(Leaf(q)))
    ensures Bounded(copy, w, Comes(copy, w, s))
  {
    hide Look, Sources, Good, KeptOf, Goes, Noted, AllTrack, Bounded, CountsAt, Counts, Enter;
    HeadSays(copy, w);
    NextPath(copy, w);
    var head := NextHead(copy, w);
    EnterNames(s, FolderIn(copy, head.path), Leaf(head.path), head.mode, head.mtime);
    OneInside(copy, w, s, Comes(copy, w, s));
  }

  lemma LinkInside(copy: Copy, w: Walk, s: State)
    requires Sources(copy) && Good(copy, w) && Goes(copy, w) && AllTrack(copy, w.frames) && w.frames != []
    requires NextHead(copy, w).LinkHead? || NextHead(copy, w).SkipHead?
    requires copy.opts.delete && s.opts == copy.opts && Counts(copy, w, s) && Sent(copy, NextHead(copy, w).path)
    requires var q := NextHead(copy, w).path;
             q != [] && !IsPart(Leaf(q)) && New(s, Leaf(q)) && New(s, PartName(Leaf(q)))
    ensures Bounded(copy, w, Comes(copy, w, s))
  {
    hide Look, Sources, Good, KeptOf, Goes, Noted, AllTrack, Bounded, CountsAt, Counts, Symlink;
    HeadSays(copy, w);
    NextPath(copy, w);
    var head := NextHead(copy, w);
    if head.LinkHead? {
      SymlinkNames(s, FolderIn(copy, head.path), Leaf(head.path), head.target);
    } else {
      SawNew(s, Leaf(head.path));
    }
    OneInside(copy, w, s, Comes(copy, w, s));
  }

  lemma FileInside(copy: Copy, w: Walk, s: State)
    requires Sources(copy) && Good(copy, w) && Goes(copy, w) && AllTrack(copy, w.frames) && NextHead(copy, w).FileHead? && w.frames != []
    requires copy.opts.delete && Counts(copy, w, s) && Sent(copy, NextHead(copy, w).path)
    requires var q := NextHead(copy, w).path;
             && q != [] && !IsPart(Leaf(q)) && New(s, Leaf(q)) && New(s, PartName(Leaf(q)))
             && Stat(s, FolderIn(copy, q), Leaf(q)) == Get(copy.there, q)
    ensures Bounded(copy, w, Comes(copy, w, s))
  {
    hide Look, Sources, Good, KeptOf, Goes, Noted, AllTrack, Bounded, CountsAt, Counts, Header, Stat;
    HeadSays(copy, w);
    NextPath(copy, w);
    var head := NextHead(copy, w);
    var q := head.path;
    TwoNames(Leaf(q));
    HeaderNames(s, FolderIn(copy, q), HeaderOf(head, |w.files|));
    var sized := SizeThere(copy, q, |head.content|);
    InsideNoted(copy, w, s, Comes(copy, w, s), if sized then {Leaf(q)} else {Leaf(q), PartName(Leaf(q))});
  }

  lemma HeadNames(copy: Copy, k: nat, m: nat, s: State)
    requires Inv(copy, k, m, s) && Steps(copy, k) && SendsHead(copy, Reached(copy, k), m)
    requires copy.opts.delete && Counts(copy, Reached(copy, k), s)
    ensures var w := Reached(copy, k);
            && Sent(copy, NextHead(copy, w).path) && (NextHead(copy, w).path == [] ==> NextHead(copy, w).ContentsHead?)
            && Bounded(copy, w, Comes(copy, w, s))
  {
    hide Look, Sources, Good, Goes, NextHead, AllTrack, Bounded, CountsAt, Logged, Whole, PendingOk, ClosingOk, EntriesOk, SeenOk, Comes,
      Steps, New;
    var w := Reached(copy, k);
    var q := NextHead(copy, w).path;
    HeadSays(copy, w);
    ContentsPath(copy, w);
    ReachedTracks(copy, k);
    if w.frames == [] {
      TopNames(copy, w, s);
    } else {
      assert SeenOk(copy, w, m, s, |w.frames| - 1);
      EntryIsNew(copy, w, m, s);
      if NextHead(copy, w).DirHead? {
        DirInside(copy, w, s);
      } else if NextHead(copy, w).FileHead? {
        StepGone(copy, w, q);
        StatsThere(copy, k, m, s, q);
        FileInside(copy, w, s);
      } else {
        LinkInside(copy, w, s);
      }
    }
  }

  // ---- a directory's End -----------------------------------------------------------------------------------

  lemma {:induction false} NotedNat(copy: Copy, frames: seq<Frame>)
    requires forall i :: 0 <= i < |frames| ==> SentDir(copy, frames[i].path) && Noted(copy, frames[i]) >= 0
    ensures NotedAll(copy, frames) >= 0
    decreases |frames|
  {
    hide SentDir, Noted;
    if frames != [] { NotedNat(copy, Front(frames)); }
  }

  lemma {:induction false} ClosesOnly(s: State)
    ensures var t := CloseReady(s);
            && t.open == s.open && t.seen == s.seen && t.pending == s.pending && t.opts == s.opts && t.landing == s.landing
            && t.files.Keys == s.files.Keys
    decreases |s.closing|
  {
    hide Ready;
    var at := FirstReady(s, 0);
    if at.Some? { ClosesOnly(CloseOne(s, at.value)); }
  }

  /** What leaving a directory leaves of the names. */
  lemma LeavingNames(copy: Copy, s: State)
    requires s.open != [] && Last(s.open).seen.Some? && |Last(s.open).seen.value| <= s.seen
    ensures var t := CloseReady(Leaving(s));
            t.open == Front(s.open) && t.seen == s.seen - |Last(s.open).seen.value|
  {
    hide Unsent;
    ClosesOnly(Leaving(s));
  }

  lemma AboveEnd(copy: Copy, w: Walk, m: nat, s: State, t: State, i: nat)
    requires SendsEnd(copy, w, m) && w.frames != [] && i < |w.frames| - 1 && |s.open| == |w.frames|
    requires CountsAt(copy, w, s, i) && t.open == Front(s.open)
    ensures i < |Next(copy, w).frames| && CountsAt(copy, Next(copy, w), t, i)
  {
    hide Look, Sources, Good, Goes, NextHead, Gone, Noted, SentDir;
    EndIs(copy, w, m);
    forall n ensures Gone(copy, Next(copy, w), w.frames[i].path + [n]) <==> Gone(copy, w, w.frames[i].path + [n]) {
      EndGone(copy, w, m, w.frames[i].path + [n]);
    }
  }

  lemma NotedLast(copy: Copy, w: Walk, s: State)
    requires Counts(copy, w, s) && copy.opts.delete && w.frames != []
    ensures s.open != [] && Last(s.open).seen.Some? && |Last(s.open).seen.value| <= s.seen
    ensures s.seen - |Last(s.open).seen.value| == NotedAll(copy, Front(w.frames))
  {
    hide Noted, SentDir, Gone;
    var front := Front(w.frames);
    assert CountsAt(copy, w, s, |w.frames| - 1);
    forall i | 0 <= i < |front| ensures SentDir(copy, front[i].path) && Noted(copy, front[i]) >= 0 {
      assert CountsAt(copy, w, s, i);
    }
    NotedNat(copy, front);
  }

  lemma EndNames(copy: Copy, k: nat, m: nat, s: State)
    requires Inv(copy, k, m, s) && Steps(copy, k) && SendsEnd(copy, Reached(copy, k), m)
    requires Counts(copy, Reached(copy, k), s) && copy.opts.delete
    ensures Received(s, EndItem).On? && Counts(copy, Next(copy, Reached(copy, k)), Received(s, EndItem).state)
  {
    hide Look, Sources, Good, Goes, NextHead, Logged, Whole, PendingOk, ClosingOk, EntriesOk, SeenOk, Received, Gone, Noted, CountsAt,
      NotedAll, CloseReady, Leaving;
    var w := Reached(copy, k);
    EndIs(copy, w, m);
    NotedLast(copy, w, s);
    EndReceived(s);
    LeavingNames(copy, s);
    var t := Received(s, EndItem).state;
    forall i: nat | i < |w.frames| - 1 ensures i < |Next(copy, w).frames| && CountsAt(copy, Next(copy, w), t, i) {
      AboveEnd(copy, w, m, s, t, i);
    }
  }

  // ---- an item ---------------------------------------------------------------------------------------------

  /** An item of a file changes no name. */
  lemma FileNames(s: State, item: Item)
    requires Received(s, item).On?
    requires item.SameItem? || item.DiffersItem? || item.DataItem? || item.ChunkItem? || item.SentItem?
    ensures Received(s, item).state.open == s.open && Received(s, item).state.seen == s.seen
  {
    hide CloseReady;
    match item
    case SameItem(id) => SameNames(s, id);
    case SentItem => if s.landing.Some? { SentNames(s); }
    case _ =>
  }

  lemma SameNames(s: State, id: nat)
    ensures Same(s, id).Ok? ==> Same(s, id).value.open == s.open && Same(s, id).value.seen == s.seen
  {
    hide CloseReady;
    if Same(s, id).Ok? && !s.opts.dryRun {
      var p := s.pending[id];
      var t := s.(pending := s.pending - {id}, summary := s.summary.(same := s.summary.same + 1));
      var path := PathIn(p.folder, p.header.name);
      var was := s.files[path];
      var time := if s.opts.keepTimes && p.header.mtime.Some? then At(p.header.mtime.value) else was.time;
      ClosesOnly(t.(files := s.files[path := File(was.content, Landed(p.header.mode), time)]));
    }
  }

  lemma SentNames(s: State)
    requires s.landing.Some?
    ensures Finished(s).Ok? ==> Finished(s).value.open == s.open && Finished(s).value.seen == s.seen
  {
    hide CloseReady;
    if Finished(s).Ok? {
      var l := s.landing.value;
      var part := PartPath(l.p);
      var path := PathIn(l.p.folder, l.p.header.name);
      var time := if s.opts.keepTimes && l.p.header.mtime.Some? then At(l.p.header.mtime.value) else Arrived;
      var entry := s.files[part].(mode := Landed(l.p.header.mode), time := time);
      ClosesOnly(Touched(s.(files := (s.files - {part})[path := entry], summary := Counted(s.summary, l.p, l.from),
                            landing := None), l.p.folder));
    }
  }
}
