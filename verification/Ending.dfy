/** Every run ends: each step takes something off what is left to do. */
module Ending {
  import opened Bytes
  import opened Files
  import opened Walk
  import opened Course
  import opened Receive
  import opened Heads
  import opened FileSteps
  import opened Ends
  import opened Flow

  // ---- what is left of the walk ----------------------------------------------------------------------

  /** What a file owed an answer may still take: the answer, and its bytes, one at a time at worst. */
  function FileLeft(content: seq<byte>): nat {
    8 + 3 * |content|
  }

  function NodeLeft(node: Node): nat
    decreases node
  {
    match node
    case NDir(_, _, entries) => 8 + EntriesLeft(entries)
    case NFile(content, _, _) => 4 + FileLeft(content)
    case NLink(_) => 4
    case NOther => 4
  }

  function EntriesLeft(entries: seq<Named>): nat
    decreases entries
  {
    if entries == [] then 0 else NodeLeft(entries[0].node) + EntriesLeft(entries[1..])
  }

  function FramesLeft(frames: seq<Frame>): nat {
    if frames == [] then 0 else FramesLeft(Front(frames)) + 4 + EntriesLeft(Last(frames).rest)
  }

  function SourcesLeft(copy: Copy, i: nat): nat
    decreases |copy.sources| - i
  {
    if i >= |copy.sources| then 0 else NodeLeft(NodeOf(copy.sources[i])) + SourcesLeft(copy, i + 1)
  }

  function WalkLeft(copy: Copy, w: Walk): nat {
    FramesLeft(w.frames) + SourcesLeft(copy, w.begun)
  }

  lemma {:induction false} KeptLeft(opts: Opts, entries: seq<Named>, rel: Path)
    ensures EntriesLeft(Kept(opts, entries, rel)) <= EntriesLeft(entries)
  {
    if entries != [] {
      KeptLeft(opts, entries[1..], rel);
      assert ([entries[0]] + Kept(opts, entries[1..], rel))[1..] == Kept(opts, entries[1..], rel);
    }
  }

  lemma FramesMore(frames: seq<Frame>, f: Frame)
    ensures FramesLeft(frames + [f]) == FramesLeft(frames) + 4 + EntriesLeft(f.rest)
  {
    assert Front(frames + [f]) == frames;
  }

  lemma EnteredLeft(copy: Copy, w: Walk, path: Path, head: Head, node: Node)
    ensures WalkLeft(copy, Entered(copy, w, path, head, node)) + 4 + (if node.NFile? then FileLeft(node.content) else 0)
            <= WalkLeft(copy, w) + NodeLeft(node)
  {
    if node.NDir? {
      KeptLeft(copy.opts, node.entries, RelOf(copy, path));
      FramesMore(w.frames, Frame(path, Kept(copy.opts, node.entries, RelOf(copy, path))));
    }
  }

  /** A step of the walk leaves less of it, by what its entry may take. */
  lemma WalkGetsOn(copy: Copy, w: Walk)
    requires Sources(copy) && Good(copy, w) && Goes(copy, w)
    ensures var head := NextHead(copy, w);
            WalkLeft(copy, Next(copy, w)) + 4 + (if head.FileHead? then FileLeft(head.content) else 0) <= WalkLeft(copy, w)
  {
    hide Good;
    var head := NextHead(copy, w);
    if w.frames == [] {
      var node := NodeOf(copy.sources[w.begun]);
      EnteredLeft(copy, w.(begun := w.begun + 1), head.path, head, node);
    } else {
      var f := Last(w.frames);
      if f.rest != [] {
        var taken := Front(w.frames) + [f.(rest := f.rest[1..])];
        FramesMore(Front(w.frames), f.(rest := f.rest[1..]));
        EnteredLeft(copy, w.(frames := taken), head.path, head, f.rest[0].node);
      }
    }
  }

  // ---- what is left to do ----------------------------------------------------------------------------

  /** What the first `n` files may still take, those of them that are owed an answer. */
  function OwedLeft(files: seq<Head>, owed: set<nat>, n: nat): nat
    requires n <= |files|
  {
    if n == 0 then 0
    else OwedLeft(files, owed, n - 1)
         + if n - 1 in owed && files[n - 1].FileHead? then FileLeft(files[n - 1].content) else 0
  }

  lemma {:induction false} OwedSame(files: seq<Head>, more: seq<Head>, owed: set<nat>, owed': set<nat>, n: nat)
    requires n <= |files| && n <= |more| && forall i :: 0 <= i < n ==> more[i] == files[i] && (i in owed' <==> i in owed)
    ensures OwedLeft(more, owed', n) == OwedLeft(files, owed, n)
  {
    if n > 0 { OwedSame(files, more, owed, owed', n - 1); }
  }

  lemma {:induction false} OwedTaken(files: seq<Head>, owed: set<nat>, n: nat, id: nat)
    requires id < n <= |files| && id in owed && files[id].FileHead?
    ensures OwedLeft(files, owed - {id}, n) + FileLeft(files[id].content) == OwedLeft(files, owed, n)
  {
    if id == n - 1 { OwedSame(files, files, owed, owed - {id}, n - 1); } else { OwedTaken(files, owed, n - 1, id); }
  }

  ghost function SendingLeft(copy: Copy, n: Sender): nat {
    if n.sending.None? then 0
    else if n.sending.value.at >= |Content(copy, n)| then 3
    else 3 + 3 * (|Content(copy, n)| - n.sending.value.at)
  }

  function ModeLeft(mode: Mode): nat {
    match mode
    case Quit(_) => 0
    case Waiting => 2
    case Free => 3
    case Taking => 4
  }

  /** How many steps a copy may still take at most: what is left of the walk, of the files owed an answer and of the
      one whose bytes go, and the items still to be handed on and to be read. */
  ghost function Left(copy: Copy, y: Copying): nat {
    var w, n := Reached(copy, y.sender.k), y.sender;
    WalkLeft(copy, w) + OwedLeft(w.files, n.owed, |w.files|) + SendingLeft(copy, n) + ModeLeft(n.mode)
    + 2 * |y.buf| + |y.pipe| + if y.receiver.Running? then 1 else 0
  }

  // ---- each step takes some of it ----------------------------------------------------------------------

  lemma HeaderCounts(copy: Copy, y: Copying)
    requires Sources(copy) && Do(copy, y, SendHeader).Some?
    ensures Left(copy, Headed(copy, y)) < Left(copy, y)
  {
    hide Reached, Goes, Next, NextHead, Good, Sources, ItemFor, WalkLeft, FileLeft;
    var n := y.sender;
    var w := Reached(copy, n.k);
    ReachedGood(copy, n.k);
    WalkGetsOn(copy, w);
    NextFiles(copy, w);
    assert Reached(copy, n.k + 1) == Next(copy, w) by { ReachedOn(copy, n.k); }
    var files := Next(copy, w).files;
    OwedSame(w.files, files, n.owed, Headed(copy, y).sender.owed, |w.files|);
  }

  lemma ReachedOn(copy: Copy, k: nat)
    requires Goes(copy, Reached(copy, k))
    ensures Reached(copy, k + 1) == Next(copy, Reached(copy, k))
  {
  }

  lemma AnswerCounts(copy: Copy, y: Copying)
    requires Do(copy, y, TakeAnswer).Some?
    ensures Left(copy, Answered(copy, y)) < Left(copy, y)
  {
    hide Reached, Goes, WalkLeft, IsSame, SendFrom, OwedLeft;
    var w, n, id := Reached(copy, y.sender.k), y.sender, y.replies[0].id;
    if id in n.owed && id < |w.files| && w.files[id].FileHead? {
      OwedTaken(w.files, n.owed, |w.files|, id);
    }
  }

  /** Every step takes some of what is left, but handing on nothing. */
  lemma EveryStepCounts(copy: Copy, y: Copying, act: Act)
    requires Sources(copy) && Do(copy, y, act).Some? && act != Flush(0)
    ensures Left(copy, Do(copy, y, act).value) < Left(copy, y)
  {
    hide Reached, Goes, WalkLeft, OwedLeft, Headed, Answered, Received, AllSent, Sources;
    match act
    case SendHeader => HeaderCounts(copy, y);
    case TakeAnswer => AnswerCounts(copy, y);
    case _ =>
  }

  // ---- so every run ends -------------------------------------------------------------------------------

  /** A run is no longer than its sources give: with what is left, never more than there was to do at first. */
  lemma {:induction false} RunsEnd(copy: Copy, acts: seq<Act>)
    requires Starts(copy) && Play(copy, acts).Some? && Flush(0) !in acts
    ensures |acts| + Left(copy, Play(copy, acts).value) <= SourcesLeft(copy, 0) + 4
    decreases |acts|
  {
    hide Do, Left;
    if acts == [] {
      StartLeft(copy);
    } else {
      RunsEnd(copy, acts[..|acts| - 1]);
      EveryStepCounts(copy, Play(copy, acts[..|acts| - 1]).value, acts[|acts| - 1]);
    }
  }

  lemma StartLeft(copy: Copy)
    ensures Left(copy, Init(copy)) == SourcesLeft(copy, 0) + 4
  {
  }

  /** A step of either end that does not give up, or of a stream that does not break. */
  predicate Willing(act: Act) {
    !act.GiveUp? && !act.Cut? && act != Flush(0)
  }

  /** Nothing is under way, and the sender is at a source it refuses. */
  ghost predicate Refuses(copy: Copy, y: Copying) {
    var w := Reached(copy, y.sender.k);
    y.sender.mode == Free && !Goes(copy, w) && !AllSent(copy, w)
  }

  lemma PlayOn(copy: Copy, acts: seq<Act>, act: Act)
    requires Play(copy, acts).Some?
    ensures Play(copy, acts + [act]) == Do(copy, Play(copy, acts).value, act)
  {
    hide Do;
    assert (acts + [act])[..|acts|] == acts;
  }

  /** From wherever a run is, willing steps only bring the receiver to its stop, unless a source is one the sender
      refuses. */
  lemma {:induction false} ComesToEnd(copy: Copy, acts: seq<Act>) returns (more: seq<Act>)
    requires Starts(copy) && Play(copy, acts).Some?
    ensures Play(copy, acts + more).Some? && forall act :: act in more ==> Willing(act)
    ensures Play(copy, acts + more).value.receiver.Stopped? || Refuses(copy, Play(copy, acts + more).value)
    decreases Left(copy, Play(copy, acts).value)
  {
    hide Play, Do, Left, Reached, Goes, AllSent;
    var y := Play(copy, acts).value;
    more := [];
    assert acts + [] == acts;
    if y.receiver.Running? && !Refuses(copy, y) {
      var act := NeverStuck(copy, acts);
      EveryStepCounts(copy, y, act);
      PlayOn(copy, acts, act);
      var rest := ComesToEnd(copy, acts + [act]);
      more := [act] + rest;
      assert acts + [act] + rest == acts + more;
    }
  }
}
