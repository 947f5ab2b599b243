/** The sender's walk of its sources: the header it sends at each step, and what is still to be
    sent. */
module Walk {
  import opened Bytes
  import opened Files

  const MAX_DEPTH := 128

  /** A copy: what is copied, the name its one item lands as if it has another, what is there before,
      and how it goes. */
  datatype Copy = Copy(sources: seq<Source>, named: Option<Name>, there: Files, opts: Opts)

  /** One step of what the sender sends of its tree, with where it lands. */
  datatype Head =
    | DirHead(path: Path, name: Name, mode: nat, mtime: Option<nat>)
    | ContentsHead(path: Path, mode: nat, mtime: Option<nat>)
    | FileHead(path: Path, name: Name, content: seq<byte>, mode: nat, mtime: Option<nat>)
    | LinkHead(path: Path, name: Name, target: seq<byte>)
    | SkipHead(path: Path, name: Name)
    | EndHead(path: Path)

  /** A directory being walked: where it lands, and its entries still to be sent. */
  datatype Frame = Frame(path: Path, rest: seq<Named>)

  /** The walk: the directories open, the sources begun, and the files whose headers went. */
  datatype Walk = Walk(frames: seq<Frame>, begun: nat, files: seq<Head>)

  /** What a source is landing as, in the target directory: `None` for what lands in the target
      itself. */
  function LandsAs(copy: Copy, source: Source): Option<Name> {
    match source
    case Contents(_) => copy.named
    case Entry(named) => if copy.named.Some? then copy.named else Some(named.name)
  }

  function NodeOf(source: Source): Node {
    match source
    case Contents(dir) => dir
    case Entry(named) => named.node
  }

  /** How many names of a path are above the tree that patterns read paths from. */
  function Base(copy: Copy): nat {
    if copy.sources != [] && LandsAs(copy, copy.sources[0]).None? then 0 else 1
  }

  /** Sources a copy can bring side by side: one, or several landing as different names. */
  predicate Sources(copy: Copy) {
    && (forall i :: 0 <= i < |copy.sources| ==>
          && Proper(NodeOf(copy.sources[i]))
          && (copy.sources[i].Contents? ==> NodeOf(copy.sources[i]).NDir?)
          && (LandsAs(copy, copy.sources[i]).Some? ==> !IsPart(LandsAs(copy, copy.sources[i]).value)))
    && (|copy.sources| > 1 ==>
          forall i :: 0 <= i < |copy.sources| ==> LandsAs(copy, copy.sources[i]).Some?)
    && forall i, j :: 0 <= i < j < |copy.sources| ==>
          LandsAs(copy, copy.sources[i]) != LandsAs(copy, copy.sources[j])
  }

  predicate Starts(copy: Copy) {
    Sources(copy) && Whole(copy.there)
  }

  function LandingOf(copy: Copy, source: Source): Path {
    match LandsAs(copy, source)
    case None => []
    case Some(n) => [n]
  }

  /** The source landing at the top as `p`, if one does. */
  function TopFrom(copy: Copy, i: nat, p: Path): Option<Node>
    requires i <= |copy.sources|
    decreases |copy.sources| - i
  {
    if i == |copy.sources| then None
    else if LandingOf(copy, copy.sources[i]) == p then Some(NodeOf(copy.sources[i]))
    else TopFrom(copy, i + 1, p)
  }

  /** A path as patterns read it: from the top of the tree copied. */
  function RelOf(copy: Copy, p: Path): Path {
    if |p| >= Base(copy) then p[Base(copy)..] else p
  }

  /** What the source has to land at `p`: nothing where it is excluded, or in what is. */
  ghost function Look(copy: Copy, p: Path): Option<Node>
    decreases |p|
  {
    if |p| < Base(copy) then None
    else if |p| == Base(copy) then TopFrom(copy, 0, p)
    else
      var above := Look(copy, Parent(p));
      if above.Some? && above.value.NDir?
      then Find(Kept(copy.opts, above.value.entries, RelOf(copy, Parent(p))), Leaf(p))
      else None
  }

  ghost predicate Sent(copy: Copy, p: Path) {
    Look(copy, p).Some?
  }

  ghost predicate SentDir(copy: Copy, p: Path) {
    Look(copy, p).Some? && Look(copy, p).value.NDir?
  }

  ghost function KeptOf(copy: Copy, d: Path): seq<Named>
    requires SentDir(copy, d)
  {
    Kept(copy.opts, Look(copy, d).value.entries, RelOf(copy, d))
  }

  lemma SentChild(copy: Copy, d: Path, n: Name)
    ensures |d| >= Base(copy) ==>
              Look(copy, d + [n]) == if SentDir(copy, d) then Find(KeptOf(copy, d), n) else None
    ensures Sent(copy, d + [n]) && |d| >= Base(copy) ==> SentDir(copy, d)
  {
    ChildPath(d, n);
  }

  lemma {:induction false} SentAbove(copy: Copy, d: Path, p: Path)
    requires Sent(copy, p) && d <= p && d != p && |d| >= Base(copy)
    ensures SentDir(copy, d)
    ensures Sent(copy, d + [p[|d|]])
    decreases |p|
  {
    var q := Parent(p);
    assert p == q + [Leaf(p)];
    SentChild(copy, q, Leaf(p));
    if d == q {
      assert p[|d|] == Leaf(p);
    } else {
      assert d <= q && q[|d|] == p[|d|];
      SentAbove(copy, d, q);
    }
  }

  // ---- the walk ------------------------------------------------------------------------------------

  function HeadOf(path: Path, name: Name, node: Node): Head {
    match node
    case NDir(mode, mtime, _) => DirHead(path, name, mode, mtime)
    case NFile(content, mode, mtime) => FileHead(path, name, content, mode, mtime)
    case NLink(target) => LinkHead(path, name, target)
    case NOther => SkipHead(path, name)
  }

  /** The head of the next source. */
  function TopHead(copy: Copy, source: Source): Head {
    var path := LandingOf(copy, source);
    match source
    case Contents(dir) => if dir.NDir? then ContentsHead(path, dir.mode, dir.mtime) else EndHead(path)
    case Entry(named) => HeadOf(path, named.name, named.node)
  }

  /** The walk once the entry `node` at `path` is sent: in it, if it is a directory. */
  ghost function Entered(copy: Copy, w: Walk, path: Path, head: Head, node: Node): Walk
  {
    match node
    case NDir(_, _, entries) => w.(frames := w.frames + [Frame(path, Kept(copy.opts, entries, RelOf(copy, path)))])
    case NFile(_, _, _) => w.(files := w.files + [head])
    case NLink(_) => w
    case NOther => w
  }

  function Last<T>(s: seq<T>): T
    requires s != []
  {
    s[|s| - 1]
  }

  function Front<T>(s: seq<T>): seq<T>
    requires s != []
  {
    s[..|s| - 1]
  }

  /** Whether the walk has a step to take: it has none once all is sent, nor at what the sender
      refuses (a fifo named as a source, a tree too deep). */
  predicate Goes(copy: Copy, w: Walk) {
    if w.frames == [] then w.begun < |copy.sources| && !NodeOf(copy.sources[w.begun]).NOther?
    else Last(w.frames).rest == [] || !Last(w.frames).rest[0].node.NDir? || |w.frames| < MAX_DEPTH
  }

  /** The head the walk sends next. */
  function NextHead(copy: Copy, w: Walk): Head
    requires Goes(copy, w)
  {
    if w.frames == [] then TopHead(copy, copy.sources[w.begun])
    else
      var f := Last(w.frames);
      if f.rest == [] then EndHead(f.path)
      else HeadOf(f.path + [f.rest[0].name], f.rest[0].name, f.rest[0].node)
  }

  ghost function Next(copy: Copy, w: Walk): Walk
    requires Goes(copy, w)
  {
    var head := NextHead(copy, w);
    if w.frames == [] then
      Entered(copy, w.(begun := w.begun + 1), head.path, head, NodeOf(copy.sources[w.begun]))
    else
      var f := Last(w.frames);
      if f.rest == [] then w.(frames := Front(w.frames))
      else
        var taken := Front(w.frames) + [f.(rest := f.rest[1..])];
        Entered(copy, w.(frames := taken), head.path, head, f.rest[0].node)
  }

  /** All was sent. */
  predicate AllSent(copy: Copy, w: Walk) {
    w.frames == [] && w.begun == |copy.sources|
  }

  // ---- what is still to be sent ------------------------------------------------------------------

  /** Whether `f` still has the entry that `p` is or is in to send. */
  ghost predicate Owes(f: Frame, p: Path) {
    && f.path <= p && f.path != p
    && Find(f.rest, p[|f.path|]).Some?
  }

  /** Whether the source at the top that `p` is or is in is not begun. */
  ghost predicate TopOwes(copy: Copy, w: Walk, p: Path) {
    && w.begun <= |copy.sources| && |p| >= Base(copy)
    && TopFrom(copy, w.begun, p[..Base(copy)]).Some?
  }

  ghost predicate AnyOwes(frames: seq<Frame>, p: Path) {
    exists i :: 0 <= i < |frames| && Owes(frames[i], p)
  }

  lemma AnyOwesOneMore(frames: seq<Frame>, f: Frame, p: Path)
    ensures AnyOwes(frames + [f], p) <==> AnyOwes(frames, p) || Owes(f, p)
  {
    var more := frames + [f];
    assert more[|frames|] == f;
    if AnyOwes(frames, p) {
      var i :| 0 <= i < |frames| && Owes(frames[i], p);
      assert more[i] == frames[i];
    }
  }

  lemma AnyOwesLast(frames: seq<Frame>, p: Path)
    requires frames != []
    ensures AnyOwes(frames, p) <==> AnyOwes(Front(frames), p) || Owes(Last(frames), p)
  {
    assert frames == Front(frames) + [Last(frames)];
    AnyOwesOneMore(Front(frames), Last(frames), p);
  }

  ghost predicate Todo(copy: Copy, w: Walk, p: Path) {
    TopOwes(copy, w, p) || AnyOwes(w.frames, p)
  }

  /** Whether the header of `p` went. */
  ghost predicate Gone(copy: Copy, w: Walk, p: Path) {
    Sent(copy, p) && !Todo(copy, w, p)
  }

  predicate IsOpen(w: Walk, d: Path) {
    exists i :: 0 <= i < |w.frames| && w.frames[i].path == d
  }

  /** Whether directory `d`'s End went. */
  ghost predicate Ended(copy: Copy, w: Walk, d: Path) {
    SentDir(copy, d) && !Todo(copy, w, d) && !IsOpen(w, d)
  }

  /** A frame has some of its directory's entries left, each once. */
  ghost predicate GoodFrame(copy: Copy, f: Frame) {
    && SentDir(copy, f.path)
    && Distinct(f.rest)
    && forall i :: 0 <= i < |f.rest| ==> Find(KeptOf(copy, f.path), f.rest[i].name) == Some(f.rest[i].node)
  }

  /** The walk is in a directory of each frame's, whose entry it took from the frame. */
  ghost predicate Good(copy: Copy, w: Walk) {
    && w.begun <= |copy.sources|
    && (forall i :: 0 <= i < |w.frames| ==> GoodFrame(copy, w.frames[i]))
    && (forall i :: 0 <= i < |w.frames| ==> |w.frames[i].path| == Base(copy) + i)
    && (forall i, j :: 0 <= i < j < |w.frames| ==>
          w.frames[i].path <= w.frames[j].path && Find(w.frames[i].rest, w.frames[j].path[|w.frames[i].path|]).None?)
    && (w.frames != [] ==> TopFrom(copy, w.begun, w.frames[0].path).None?)
  }

  // ---- a step of the walk ------------------------------------------------------------------------

  /** The walk with the entry it sends next taken out of its frame, or its source begun. */
  ghost function Taken(copy: Copy, w: Walk): Walk
    requires Goes(copy, w) && !NextHead(copy, w).EndHead?
  {
    if w.frames == [] then w.(begun := w.begun + 1)
    else
      var f := Last(w.frames);
      if f.rest == [] then w else w.(frames := Front(w.frames) + [f.(rest := f.rest[1..])])
  }

  ghost function NextNode(copy: Copy, w: Walk): Node
    requires Goes(copy, w) && !NextHead(copy, w).EndHead?
  {
    if w.frames == [] then NodeOf(copy.sources[w.begun])
    else if Last(w.frames).rest == [] then NOther
    else Last(w.frames).rest[0].node
  }

  lemma NextIs(copy: Copy, w: Walk)
    requires Sources(copy) && Good(copy, w) && Goes(copy, w)
    ensures !NextHead(copy, w).EndHead? ==>
              Next(copy, w) == Entered(copy, Taken(copy, w), NextHead(copy, w).path, NextHead(copy, w), NextNode(copy, w))
    ensures NextHead(copy, w).EndHead? ==>
              && w.frames != [] && Last(w.frames).rest == [] && NextHead(copy, w).path == Last(w.frames).path
              && Next(copy, w) == w.(frames := Front(w.frames))
  {
    if w.frames == [] {
      assert NodeOf(copy.sources[w.begun]) == NodeOf(copy.sources[w.begun]);
    }
  }

  lemma TopFromIs(copy: Copy, i: nat, k: nat)
    requires Sources(copy) && i <= k < |copy.sources|
    ensures TopFrom(copy, i, LandingOf(copy, copy.sources[k])) == Some(NodeOf(copy.sources[k]))
    ensures TopFrom(copy, k + 1, LandingOf(copy, copy.sources[k])).None?
    decreases k - i
  {
    if i < k {
      assert LandsAs(copy, copy.sources[i]) != LandsAs(copy, copy.sources[k]);
      TopFromIs(copy, i + 1, k);
    } else {
      TopFromNone(copy, k + 1, k);
    }
  }

  lemma {:induction false} TopFromNone(copy: Copy, i: nat, k: nat)
    requires Sources(copy) && k < i <= |copy.sources|
    ensures TopFrom(copy, i, LandingOf(copy, copy.sources[k])).None?
    decreases |copy.sources| - i
  {
    if i < |copy.sources| {
      assert LandsAs(copy, copy.sources[k]) != LandsAs(copy, copy.sources[i]);
      TopFromNone(copy, i + 1, k);
    }
  }

  lemma LandingLength(copy: Copy, k: nat)
    requires Sources(copy) && k < |copy.sources|
    ensures |LandingOf(copy, copy.sources[k])| == Base(copy)
  {
    assert LandsAs(copy, copy.sources[0]) == LandsAs(copy, copy.sources[0]);
    if k > 0 { assert LandsAs(copy, copy.sources[0]) != LandsAs(copy, copy.sources[k]); }
  }

  /** The entry sent next is the source's, and was still to be sent. */
  lemma NextPath(copy: Copy, w: Walk)
    requires Sources(copy) && Good(copy, w) && Goes(copy, w) && !NextHead(copy, w).EndHead?
    ensures var q := NextHead(copy, w).path;
            && |q| == Base(copy) + |w.frames|
            && Look(copy, q) == Some(NextNode(copy, w))
            && (w.frames != [] ==> q != [] && Parent(q) == Last(w.frames).path && Leaf(q) == Last(w.frames).rest[0].name)
  {
    var q := NextHead(copy, w).path;
    if w.frames == [] {
      LandingLength(copy, w.begun);
      TopFromIs(copy, 0, w.begun);
    } else {
      var f := Last(w.frames);
      assert GoodFrame(copy, f);
      assert f.rest != [];
      ChildPath(f.path, f.rest[0].name);
      SentChild(copy, f.path, f.rest[0].name);
    }
  }

  lemma {:induction false} FindTail(entries: seq<Named>, n: Name)
    requires Distinct(entries) && entries != []
    ensures Find(entries[1..], n) == if n == entries[0].name then None else Find(entries, n)
    ensures Distinct(entries[1..])
  {
    assert forall i, j :: 0 <= i < j < |entries[1..]| ==>
        entries[1..][i] == entries[i + 1] && entries[1..][j] == entries[j + 1];
    if n == entries[0].name {
      FindIs(entries[1..], n);
      forall i | 0 <= i < |entries[1..]| ensures entries[1..][i].name != n { assert entries[1..][i] == entries[i + 1]; }
    }
  }

  /** Taking the next entry leaves all owed but it and what is in it. */
  lemma TakenOwes(copy: Copy, w: Walk, p: Path)
    requires Sources(copy) && Good(copy, w) && Goes(copy, w) && !NextHead(copy, w).EndHead?
    requires Sent(copy, p)
    ensures Todo(copy, Taken(copy, w), p) <==> Todo(copy, w, p) && !(NextHead(copy, w).path <= p)
    ensures NextHead(copy, w).path <= p ==> Todo(copy, w, p)
  {
    var q, t := NextHead(copy, w).path, Taken(copy, w);
    NextPath(copy, w);
    if w.frames == [] {
      LandingLength(copy, w.begun);
      assert q <= p <==> p[..Base(copy)] == q;
      TopFromIs(copy, w.begun, w.begun);
      assert t.frames == [];
    } else {
      TakenFrame(copy, w, p);
    }
  }

  /** Taking the first of a frame's entries leaves it owing the rest. */
  lemma FirstTaken(f: Frame, p: Path)
    requires f.rest != [] && Distinct(f.rest)
    ensures Owes(f.(rest := f.rest[1..]), p) <==> Owes(f, p) && !(f.path + [f.rest[0].name] <= p)
    ensures f.path + [f.rest[0].name] <= p ==> Owes(f, p)
  {
    var q := f.path + [f.rest[0].name];
    if q <= p {
      assert p[|f.path|] == q[|f.path|] && f.path <= p;
    }
    if f.path <= p && f.path != p {
      FindTail(f.rest, p[|f.path|]);
      assert p[..|q|] == f.path + [p[|f.path|]];
    }
  }

  lemma TakenFrame(copy: Copy, w: Walk, p: Path)
    requires Good(copy, w) && w.frames != [] && Last(w.frames).rest != []
    requires Goes(copy, w)
    ensures !NextHead(copy, w).EndHead?
    ensures Todo(copy, Taken(copy, w), p) <==> Todo(copy, w, p) && !(NextHead(copy, w).path <= p)
    ensures NextHead(copy, w).path <= p ==> Todo(copy, w, p)
  {
    var f := Last(w.frames);
    assert GoodFrame(copy, f);
    FirstTaken(f, p);
    AnyOwesLast(w.frames, p);
    AnyOwesOneMore(Front(w.frames), f.(rest := f.rest[1..]), p);
    if f.path + [f.rest[0].name] <= p {
      assert f.path <= p;
      NotOwedAbove(copy, w, p);
    }
  }

  /** What is in the innermost open directory is owed by no other frame, nor by the top. */
  lemma NotOwedAbove(copy: Copy, w: Walk, p: Path)
    requires Good(copy, w) && w.frames != [] && Last(w.frames).path <= p
    ensures !TopOwes(copy, w, p) && !AnyOwes(Front(w.frames), p)
  {
    var last := |w.frames| - 1;
    forall i | 0 <= i < last ensures !Owes(w.frames[i], p) {
      assert w.frames[i].path <= w.frames[last].path && |w.frames[i].path| < |w.frames[last].path|;
      assert p[|w.frames[i].path|] == w.frames[last].path[|w.frames[i].path|];
    }
    if last > 0 { assert w.frames[0].path <= w.frames[last].path; }
    assert w.frames[0].path <= p && |w.frames[0].path| == Base(copy);
    assert p[..Base(copy)] == w.frames[0].path;
  }

  lemma TakenGood(copy: Copy, w: Walk)
    requires Sources(copy) && Good(copy, w) && Goes(copy, w) && !NextHead(copy, w).EndHead?
    ensures Good(copy, Taken(copy, w))
  {
    hide Look, KeptOf, SentDir, Sources, TopFrom;
    var t := Taken(copy, w);
    if w.frames != [] {
      var f, last := Last(w.frames), |w.frames| - 1;
      assert GoodFrame(copy, f);
      forall i | 0 <= i < last ensures t.frames[i] == w.frames[i] {}
      assert GoodFrame(copy, t.frames[last]) by {
        FindTail(f.rest, f.rest[0].name);
        forall i | 0 <= i < |f.rest[1..]| ensures Find(KeptOf(copy, f.path), f.rest[1..][i].name) == Some(f.rest[1..][i].node) {
          assert f.rest[1..][i] == f.rest[i + 1];
        }
      }
    }
  }

  /** What is in a directory just entered is owed by its frame. */
  lemma EnteredOwes(copy: Copy, w: Walk, q: Path, head: Head, p: Path)
    requires Sent(copy, q) && Sent(copy, p) && |q| >= Base(copy)
    ensures Todo(copy, Entered(copy, w, q, head, Look(copy, q).value), p)
            <==> Todo(copy, w, p) || (q <= p && q != p)
  {
    var e := Entered(copy, w, q, head, Look(copy, q).value);
    if q <= p && q != p { SentAbove(copy, q, p); SentChild(copy, q, p[|q|]); }
    if SentDir(copy, q) {
      var f := Frame(q, KeptOf(copy, q));
      assert e.frames == w.frames + [f];
      assert Owes(f, p) <==> q <= p && q != p;
      AnyOwesOneMore(w.frames, f, p);
    } else {
      assert e.frames == w.frames && e.begun == w.begun;
    }
  }

  /** A step of the walk sends the head of one entry, or ends a directory. */
  lemma StepTodo(copy: Copy, w: Walk, p: Path)
    requires Sources(copy) && Good(copy, w) && Goes(copy, w) && Sent(copy, p)
    ensures Todo(copy, Next(copy, w), p) <==>
            Todo(copy, w, p) && (NextHead(copy, w).EndHead? || p != NextHead(copy, w).path)
    ensures !NextHead(copy, w).EndHead? && p == NextHead(copy, w).path ==> Todo(copy, w, p)
  {
    NextIs(copy, w);
    if NextHead(copy, w).EndHead? {
      EndOwes(copy, w, p);
    } else {
      var q := NextHead(copy, w).path;
      NextPath(copy, w);
      TakenOwes(copy, w, p);
      EnteredOwes(copy, Taken(copy, w), q, NextHead(copy, w), p);
    }
  }

  lemma EndOwes(copy: Copy, w: Walk, p: Path)
    requires w.frames != [] && Last(w.frames).rest == []
    ensures Todo(copy, w.(frames := Front(w.frames)), p) <==> Todo(copy, w, p)
  {
    AnyOwesLast(w.frames, p);
  }

  lemma StepGood(copy: Copy, w: Walk)
    requires Sources(copy) && Good(copy, w) && Goes(copy, w)
    ensures Good(copy, Next(copy, w))
  {
    NextIs(copy, w);
    if NextHead(copy, w).EndHead? {
      EndGood(copy, w);
    } else {
      NextPath(copy, w);
      TakenGood(copy, w);
      if NextNode(copy, w).NDir? { PushGood(copy, w); }
    }
  }

  lemma EndGood(copy: Copy, w: Walk)
    requires Good(copy, w) && w.frames != []
    ensures Good(copy, w.(frames := Front(w.frames)))
  {
    var e := w.(frames := Front(w.frames));
    forall i | 0 <= i < |e.frames| ensures e.frames[i] == w.frames[i] {}
  }

  lemma TakenAbove(copy: Copy, w: Walk, i: nat)
    requires Good(copy, w) && Goes(copy, w) && !NextHead(copy, w).EndHead?
    requires i < |w.frames|
    ensures var f, q := Taken(copy, w).frames[i], NextHead(copy, w).path;
            f.path <= q && |f.path| < |q| && Find(f.rest, q[|f.path|]).None?
  {
    var d, last := Last(w.frames), |w.frames| - 1;
    assert GoodFrame(copy, d);
    var q := d.path + [d.rest[0].name];
    FindTail(d.rest, d.rest[0].name);
    if i < last {
      var f := w.frames[i];
      assert f.path <= d.path && |f.path| < |d.path|;
      assert q[|f.path|] == d.path[|f.path|];
    }
  }

  lemma PushIsGood(copy: Copy, t: Walk, f: Frame)
    requires Good(copy, t) && GoodFrame(copy, f) && |f.path| == Base(copy) + |t.frames|
    requires forall i :: 0 <= i < |t.frames| ==>
               t.frames[i].path <= f.path && Find(t.frames[i].rest, f.path[|t.frames[i].path|]).None?
    requires t.frames == [] ==> TopFrom(copy, t.begun, f.path).None?
    ensures Good(copy, t.(frames := t.frames + [f]))
  {
    var e := t.(frames := t.frames + [f]);
    assert forall i :: 0 <= i < |e.frames| ==> e.frames[i] == if i < |t.frames| then t.frames[i] else f;
  }

  lemma PushGood(copy: Copy, w: Walk)
    requires Sources(copy) && Good(copy, w) && Goes(copy, w) && !NextHead(copy, w).EndHead?
    requires Good(copy, Taken(copy, w)) && NextNode(copy, w).NDir?
    requires Look(copy, NextHead(copy, w).path) == Some(NextNode(copy, w))
    ensures Good(copy, Next(copy, w))
  {
    var q, t := NextHead(copy, w).path, Taken(copy, w);
    NextPath(copy, w);
    NextIs(copy, w);
    PushedFrame(copy, q);
    forall i | 0 <= i < |t.frames|
      ensures t.frames[i].path <= q && |t.frames[i].path| < |q| && Find(t.frames[i].rest, q[|t.frames[i].path|]).None?
    {
      TakenAbove(copy, w, i);
    }
    if w.frames == [] { TopFromIs(copy, w.begun, w.begun); }
    PushIsGood(copy, t, Frame(q, KeptOf(copy, q)));
  }

  lemma ProperEntry(node: Node, n: Name)
    requires Proper(node) && node.NDir? && Find(node.entries, n).Some?
    ensures !IsPart(n) && Proper(Find(node.entries, n).value)
  {
    FindIs(node.entries, n);
    var i :| 0 <= i < |node.entries| && node.entries[i] == Named(n, Find(node.entries, n).value);
  }

  /** What is sent is proper, as the sources are. */
  lemma {:induction false} SentProper(copy: Copy, p: Path)
    requires Sources(copy) && Sent(copy, p)
    ensures Proper(Look(copy, p).value) && Plain(p)
    decreases |p|
  {
    if |p| == Base(copy) {
      var i := TopIs(copy, 0, p);
    } else {
      ProperBelow(copy, Parent(p), Leaf(p));
      SentProper(copy, Parent(p));
      PlainBelow(p);
    }
  }

  lemma PlainBelow(p: Path)
    requires p != []
    ensures Plain(p) <==> Plain(Parent(p)) && !IsPart(Leaf(p))
  {
    assert forall k :: 0 <= k < |p| ==> p[k] == if k < |p| - 1 then Parent(p)[k] else Leaf(p);
  }

  lemma ProperBelow(copy: Copy, d: Path, n: Name)
    requires Sent(copy, d + [n]) && |d| >= Base(copy)
    ensures SentDir(copy, d)
    ensures Proper(Look(copy, d).value) ==> Proper(Look(copy, d + [n]).value) && !IsPart(n)
  {
    SentChild(copy, d, n);
    var node := Look(copy, d).value;
    KeptIs(copy.opts, node.entries, RelOf(copy, d), n);
    if Proper(node) { ProperEntry(node, n); }
  }

  lemma {:induction false} TopIs(copy: Copy, i: nat, p: Path) returns (k: nat)
    requires i <= |copy.sources| && TopFrom(copy, i, p).Some?
    ensures i <= k < |copy.sources| && LandingOf(copy, copy.sources[k]) == p
    ensures TopFrom(copy, i, p).value == NodeOf(copy.sources[k])
    decreases |copy.sources| - i
  {
    if LandingOf(copy, copy.sources[i]) == p { k := i; } else { k := TopIs(copy, i + 1, p); }
  }

  lemma PushedFrame(copy: Copy, d: Path)
    requires Sources(copy) && SentDir(copy, d)
    ensures GoodFrame(copy, Frame(d, KeptOf(copy, d)))
  {
    SentProper(copy, d);
    var kept := KeptOf(copy, d);
    KeptFrom(copy.opts, Look(copy, d).value.entries, RelOf(copy, d));
    forall i | 0 <= i < |kept| ensures Find(kept, kept[i].name) == Some(kept[i].node) {
      FindAt(kept, i);
    }
  }

  lemma {:induction false} FindAt(entries: seq<Named>, i: nat)
    requires Distinct(entries) && i < |entries|
    ensures Find(entries, entries[i].name) == Some(entries[i].node)
    decreases i
  {
    if i > 0 {
      FindTail(entries, entries[i].name);
      FindAt(entries[1..], i - 1);
    }
  }
}
