/** The sender as it is written: it walks its sources by recursion, takes answers as they come, and keeps what is
    pending in a map. Whatever comes when, what it does is a run of the machine's sender. */
module Sending {
  import opened Bytes
  import opened Glob
  import opened Files
  import opened Walk
  import opened Course
  import opened Receive
  import opened Heads
  import opened FileSteps
  import Ends

  // ---- the machine's sender, alone ---------------------------------------------------------------------------------------

  /** A move of the sender: one of its steps in the machine, with the answer it takes if it takes one. */
  datatype Move = Header | Take(answer: Answer) | Chunk(n: nat) | Ended | NoMore | AtEnd | Stop

  function ActOf(move: Move): Ends.Act {
    match move
    case Header => Ends.SendHeader
    case Take(_) => Ends.TakeAnswer
    case Chunk(n) => Ends.SendChunk(n)
    case Ended => Ends.SendSent
    case NoMore => Ends.LookNoMore
    case AtEnd => Ends.EndWalk
    case Stop => Ends.GiveUp
  }

  /** What a move leads to, and the items it writes. */
  ghost function Moved(copy: Copy, n: Ends.Sender, move: Move): Option<(Ends.Sender, seq<Item>)> {
    var w := Reached(copy, n.k);
    match move
    case Header => if n.mode == Ends.Free && n.sending.None? && Goes(copy, w) then Some(HeaderMoved(copy, n)) else None
    case Take(answer) =>
      if (n.mode == Ends.Waiting || n.mode == Ends.Taking) && n.sending.None? then Some(TakeMoved(copy, n, answer)) else None
    case Chunk(len) =>
      if && !n.mode.Quit? && n.sending.Some? && 0 < len <= CHUNK && n.sending.value.at + len <= |Ends.Content(copy, n)|
      then
        var at := n.sending.value.at;
        Some((n.(sending := Some(n.sending.value.(at := at + len))), [ChunkItem(Ends.Content(copy, n)[at..at + len])]))
      else None
    case Ended =>
      if !n.mode.Quit? && n.sending.Some? && n.sending.value.at == |Ends.Content(copy, n)|
      then Some((n.(sending := None), [SentItem])) else None
    case NoMore => if n.mode == Ends.Taking && n.sending.None? then Some((n.(mode := Ends.Free), [])) else None
    case AtEnd =>
      if n.mode == Ends.Free && n.sending.None? && AllSent(copy, w)
      then Some(if n.owed == {} then (n.(mode := Ends.Quit(Finishing())), [DoneItem]) else (n.(mode := Ends.Waiting), []))
      else None
    case Stop => if !n.mode.Quit? then Some((n.(mode := Ends.Quit(Stopping())), [FailedItem])) else None
  }

  function Finishing(): Ends.Protocol.Ending {
    Ends.Protocol.Finished
  }

  function Stopping(): Ends.Protocol.Ending {
    Ends.Protocol.GaveUp
  }

  ghost function HeaderMoved(copy: Copy, n: Ends.Sender): (Ends.Sender, seq<Item>)
    requires Goes(copy, Reached(copy, n.k))
  {
    var w := Reached(copy, n.k);
    var head := NextHead(copy, w);
    var owed := if head.FileHead? then n.owed + {|w.files|} else n.owed;
    var mode := if head.FileHead? then if |owed| >= WINDOW then Ends.Waiting else Ends.Taking
                else if head.LinkHead? then Ends.Taking else Ends.Free;
    (n.(k := n.k + 1, owed := owed, mode := mode), [ItemFor(head, |w.files|)])
  }

  ghost function TakeMoved(copy: Copy, n: Ends.Sender, answer: Answer): (Ends.Sender, seq<Item>) {
    var w := Reached(copy, n.k);
    if answer.id !in n.owed || answer.id >= |w.files| || !w.files[answer.id].FileHead?
    then (n.(mode := Ends.Quit(Stopping())), [FailedItem])
    else
      var content := w.files[answer.id].content;
      var m := n.(owed := n.owed - {answer.id}, mode := Ends.Taking);
      var from := SendFrom(content, answer);
      if IsSame(content, answer) then (m, [SameItem(answer.id)])
      else if copy.opts.dryRun then (m, [DiffersItem(answer.id, from)])
      else (m.(sending := Some(Ends.Sending(answer.id, from))), [DataItem(answer.id, from)])
  }

  /** A move is a step of the machine, and a step of its sender is a move: the sender ends up the same, and what the
      move writes is what the step adds to what is on its way. */
  ghost predicate Agree(copy: Copy, y: Ends.Copying, move: Move) {
    var moved, did := Moved(copy, y.sender, move), Ends.Do(copy, y, ActOf(move));
    && (moved.Some? <==> did.Some?)
    && (moved.Some? ==>
          var (n, items) := moved.value;
          var t := did.value;
          && t.sender == n && t.receiver == y.receiver && t.pipe + t.buf == y.pipe + y.buf + items
          && t.replies == if move.Take? then y.replies[1..] else y.replies)
  }

  lemma MoveIsStep(copy: Copy, y: Ends.Copying, move: Move)
    requires move.Take? ==> y.replies != [] && y.replies[0] == move.answer
    ensures Agree(copy, y, move)
  {
    match move {
      case Header => HeaderIsStep(copy, y);
      case Take(answer) => TakeIsStep(copy, y, answer);
      case _ => OtherIsStep(copy, y, move);
    }
  }

  lemma HeaderIsStep(copy: Copy, y: Ends.Copying)
    ensures Agree(copy, y, Header)
  {
    hide Reached, ItemFor, NextHead;
    if Moved(copy, y.sender, Header).Some? {
      WrittenOn(y, Ends.Do(copy, y, Ends.SendHeader).value, Moved(copy, y.sender, Header).value.1);
    }
  }

  lemma TakeIsStep(copy: Copy, y: Ends.Copying, answer: Answer)
    requires y.replies != [] && y.replies[0] == answer
    ensures Agree(copy, y, Take(answer))
  {
    hide Reached, SendFrom, IsSame;
    if Moved(copy, y.sender, Take(answer)).Some? {
      WrittenOn(y, Ends.Do(copy, y, Ends.TakeAnswer).value, Moved(copy, y.sender, Take(answer)).value.1);
    }
  }

  lemma OtherIsStep(copy: Copy, y: Ends.Copying, move: Move)
    requires !move.Take? && !move.Header?
    ensures Agree(copy, y, move)
  {
    hide Reached, Ends.Content;
    if Moved(copy, y.sender, move).Some? {
      WrittenOn(y, Ends.Do(copy, y, ActOf(move)).value, Moved(copy, y.sender, move).value.1);
    }
  }

  /** Items written to the buffer, or handed on with it, come after what is on its way. */
  lemma WrittenOn(y: Ends.Copying, t: Ends.Copying, items: seq<Item>)
    requires (t.buf == [] && t.pipe == y.pipe + y.buf + items) || (t.pipe == y.pipe && t.buf == y.buf + items)
             || (items == [] && ((t.buf == [] && t.pipe == y.pipe + y.buf) || (t.buf == y.buf && t.pipe == y.pipe)))
    ensures t.pipe + t.buf == y.pipe + y.buf + items
  {
    Joins(y.pipe, y.buf, items);
    assert t.buf == [] ==> t.pipe + t.buf == t.pipe;
    assert items == [] ==> y.pipe + y.buf + items == y.pipe + y.buf;
  }

  lemma Joins(a: seq<Item>, b: seq<Item>, c: seq<Item>)
    ensures a + (b + c) == a + b + c
  {
  }

  /** The sender, and all it wrote, after its moves. */
  ghost function Played(copy: Copy, moves: seq<Move>): Option<(Ends.Sender, seq<Item>)> {
    if moves == [] then Some((Ends.Sender(0, {}, None, Ends.Free), []))
    else
      var before := Played(copy, moves[..|moves| - 1]);
      if before.None? then None
      else
        var next := Moved(copy, before.value.0, moves[|moves| - 1]);
        if next.None? then None else Some((next.value.0, before.value.1 + next.value.1))
  }

  predicate IsSenders(act: Ends.Act) {
    !act.Flush? && !act.Receive? && !act.Cut?
  }

  /** The move a step of the machine's sender is. */
  function MoveOf(y: Ends.Copying, act: Ends.Act): Move
    requires IsSenders(act) && (act.TakeAnswer? ==> y.replies != [])
  {
    match act
    case SendHeader => Header
    case TakeAnswer => Take(y.replies[0])
    case SendChunk(n) => Chunk(n)
    case SendSent => Ended
    case LookNoMore => NoMore
    case EndWalk => AtEnd
    case GiveUp => Stop
  }

  /** The sender's moves in a run of the machine. */
  ghost function MovesOf(copy: Copy, acts: seq<Ends.Act>): seq<Move>
    requires Ends.Play(copy, acts).Some?
  {
    if acts == [] then []
    else
      var init, act := acts[..|acts| - 1], acts[|acts| - 1];
      MovesOf(copy, init) + (if IsSenders(act) then [MoveOf(Ends.Play(copy, init).value, act)] else [])
  }

  /** In every run of the machine its sender is where its moves lead, and what is on its way is the last of what they
      write: so a sender that makes the same moves, as `Sender` does whatever comes when, may stand in its place. */
  lemma {:induction false} RunsAreMoves(copy: Copy, acts: seq<Ends.Act>)
    requires Ends.Play(copy, acts).Some?
    ensures var y := Ends.Play(copy, acts).value;
            var played := Played(copy, MovesOf(copy, acts));
            && played.Some? && played.value.0 == y.sender
            && exists read: seq<Item> :: played.value.1 == read + (y.pipe + y.buf)
    decreases |acts|
  {
    if acts == [] {
      var none: seq<Item> := [];
      assert Played(copy, MovesOf(copy, acts)).value.1 == none + (none + none);
    } else {
      hide Moved, Ends.Do, Played;
      var init, act := acts[..|acts| - 1], acts[|acts| - 1];
      RunsAreMoves(copy, init);
      var y, t := Ends.Play(copy, init).value, Ends.Play(copy, acts).value;
      var moves := MovesOf(copy, init);
      var written := Played(copy, moves).value.1;
      var read: seq<Item> :| written == read + (y.pipe + y.buf);
      if IsSenders(act) {
        TakesOne(copy, y, act);
        var move := MoveOf(y, act);
        MoveIsStep(copy, y, move);
        var items := Moved(copy, y.sender, move).value.1;
        PlayedMore(copy, moves, move);
        Joins(read, y.pipe + y.buf, items);
        assert written + items == read + (t.pipe + t.buf);
      } else {
        RestMoves(copy, y, act);
        assert MovesOf(copy, acts) == moves + [] == moves;
        if act.Receive? {
          Joins(read, [y.pipe[0]], t.pipe + t.buf);
          assert written == (read + [y.pipe[0]]) + (t.pipe + t.buf);
        } else {
          assert written == read + (t.pipe + t.buf);
        }
      }
    }
  }

  lemma TakesOne(copy: Copy, y: Ends.Copying, act: Ends.Act)
    requires Ends.Do(copy, y, act).Some? && IsSenders(act)
    ensures act.TakeAnswer? ==> y.replies != []
    ensures (act.TakeAnswer? ==> y.replies != []) && ActOf(MoveOf(y, act)) == act
  {
  }

  lemma PlayedMore(copy: Copy, moves: seq<Move>, move: Move)
    requires Played(copy, moves).Some? && Moved(copy, Played(copy, moves).value.0, move).Some?
    ensures var next := Moved(copy, Played(copy, moves).value.0, move).value;
            Played(copy, moves + [move]) == Some((next.0, Played(copy, moves).value.1 + next.1))
  {
    assert (moves + [move])[..|moves|] == moves;
  }

  /** What is not the sender's step leaves the sender, and all that is on its way but what is received. */
  lemma RestMoves(copy: Copy, y: Ends.Copying, act: Ends.Act)
    requires !IsSenders(act) && Ends.Do(copy, y, act).Some?
    ensures var t := Ends.Do(copy, y, act).value;
            && t.sender == y.sender
            && (act.Receive? ==> y.pipe != [] && y.pipe + y.buf == [y.pipe[0]] + (t.pipe + t.buf))
            && (!act.Receive? ==> t.pipe + t.buf == y.pipe + y.buf)
  {
    hide Received;
    if act.Flush? {
      assert y.buf == y.buf[..act.n] + y.buf[act.n..];
    }
  }

  // ---- what comes back ---------------------------------------------------------------------------------------------------

  datatype Reply = AnswerReply(answer: Answer) | EndReply

  /** The replies as they come: `None` where none is there yet. After the last, the stream is gone. */
  class Inbox {
    var coming: seq<Option<Reply>>

    constructor (coming: seq<Option<Reply>>) {
      this.coming := coming;
    }

    method TryReceive() returns (reply: Option<Reply>)
      modifies this
    {
      if coming == [] {
        return None;
      }
      reply := coming[0];
      coming := coming[1..];
    }

    method Receive() returns (reply: Reply)
      modifies this
    {
      while coming != []
        decreases |coming|
      {
        var next := coming[0];
        coming := coming[1..];
        if next.Some? {
          return next.value;
        }
      }
      return EndReply;
    }
  }

  // ---- the sender --------------------------------------------------------------------------------------------------------

  /** The walk's next entry is `node`, named `name`, landing at `path`. */
  ghost predicate ComesNext(copy: Copy, w: Walk, named: Named, path: Path) {
    if w.frames == [] then w.begun < |copy.sources| && copy.sources[w.begun] == Entry(named) && path == LandingOf(copy, copy.sources[w.begun])
    else Last(w.frames).rest != [] && Last(w.frames).rest[0] == named && path == Last(w.frames).path + [named.name]
  }

  /** The walk once its next entry, and all in it, is sent. */
  ghost predicate Past(w: Walk, e: Walk) {
    if w.frames == [] then e.frames == [] && e.begun == w.begun + 1
    else
      && e.begun == w.begun && Last(w.frames).rest != []
      && e.frames == Front(w.frames) + [Last(w.frames).(rest := Last(w.frames).rest[1..])]
  }

  lemma FirstKept(opts: Opts, entries: seq<Named>, rel: Path, i: nat)
    requires i < |entries|
    ensures entries[i..][1..] == entries[i + 1..] && entries[i..][0] == entries[i]
    ensures Kept(opts, entries[i..], rel) == (if Skips(opts, entries[i].name, rel + [entries[i].name]) then [] else [entries[i]])
                                             + Kept(opts, entries[i + 1..], rel)
  {
    var none: seq<Named> := [];
    assert none + Kept(opts, entries[i + 1..], rel) == Kept(opts, entries[i + 1..], rel);
  }

  lemma ChunkMoves(copy: Copy, n: Ends.Sender, id: nat, content: seq<byte>, at: nat, len: nat)
    requires n.sending == Some(Ends.Sending(id, at)) && !n.mode.Quit? && 0 < len <= CHUNK && at + len <= |content|
    requires id < |Reached(copy, n.k).files| && Reached(copy, n.k).files[id].FileHead? && Reached(copy, n.k).files[id].content == content
    ensures Moved(copy, n, Chunk(len)) == Some((n.(sending := Some(Ends.Sending(id, at + len))), [ChunkItem(content[at..at + len])]))
  {
    hide Reached, Goes, AllSent, HeaderMoved, TakeMoved;
  }

  lemma TakeMoves(copy: Copy, n: Ends.Sender, answer: Answer, content: seq<byte>)
    requires (n.mode == Ends.Waiting || n.mode == Ends.Taking) && n.sending.None? && answer.id in n.owed
    requires answer.id < |Reached(copy, n.k).files| && Reached(copy, n.k).files[answer.id].FileHead?
    requires Reached(copy, n.k).files[answer.id].content == content
    ensures Moved(copy, n, Take(answer)) == Some(TakeMoved(copy, n, answer))
    ensures var m := n.(owed := n.owed - {answer.id}, mode := Ends.Taking);
            var from := SendFrom(content, answer);
            TakeMoved(copy, n, answer) ==
              if IsSame(content, answer) then (m, [SameItem(answer.id)])
              else if copy.opts.dryRun then (m, [DiffersItem(answer.id, from)])
              else (m.(sending := Some(Ends.Sending(answer.id, from))), [DataItem(answer.id, from)])
  {
    hide Reached, Goes, AllSent, HeaderMoved;
  }

  lemma NoMoreMoves(copy: Copy, n: Ends.Sender)
    requires n.mode == Ends.Taking && n.sending.None?
    ensures Moved(copy, n, NoMore) == Some((n.(mode := Ends.Free), []))
  {
  }

  lemma WaitMoves(copy: Copy, n: Ends.Sender)
    requires n.mode == Ends.Free && n.sending.None? && AllSent(copy, Reached(copy, n.k)) && n.owed != {}
    ensures Moved(copy, n, AtEnd) == Some((n.(mode := Ends.Waiting), []))
  {
    hide Reached, Goes, AllSent, HeaderMoved, TakeMoved;
  }

  lemma EndMoves(copy: Copy, n: Ends.Sender, id: nat, content: seq<byte>)
    requires n.sending == Some(Ends.Sending(id, |content|)) && !n.mode.Quit?
    requires id < |Reached(copy, n.k).files| && Reached(copy, n.k).files[id].FileHead? && Reached(copy, n.k).files[id].content == content
    ensures Moved(copy, n, Ended) == Some((n.(sending := None), [SentItem]))
  {
    hide Reached, Goes, AllSent, HeaderMoved, TakeMoved;
  }

  /** The header of the entry that comes next, and where the walk goes from it. */
  lemma HeaderMoves(copy: Copy, n: Ends.Sender, named: Named, path: Path)
    requires n.mode == Ends.Free && n.sending.None? && ComesNext(copy, Reached(copy, n.k), named, path)
    requires named.node.NDir? ==> |Reached(copy, n.k).frames| < MAX_DEPTH
    requires named.node.NOther? ==> Reached(copy, n.k).frames != []
    ensures var w := Reached(copy, n.k);
            && Goes(copy, w) && NextHead(copy, w) == HeadOf(path, named.name, named.node)
            && Moved(copy, n, Header) == Some(HeaderMoved(copy, n)) && HeaderMoved(copy, n).0.k == n.k + 1
            && Reached(copy, n.k + 1) == Next(copy, w)
            && (!named.node.NDir? ==> Past(w, Next(copy, w)))
            && Next(copy, w).files == (if named.node.NFile? then w.files + [HeadOf(path, named.name, named.node)] else w.files)
  {
  }

  /** The walk's next source is what is in `node`. */
  /** What is kept of each file is its content. */
  predicate Keeps(pending: map<nat, seq<byte>>, files: seq<Head>) {
    forall id :: id in pending ==> id < |files| && files[id].FileHead? && files[id].content == pending[id]
  }

  lemma KeepsMore(pending: map<nat, seq<byte>>, files: seq<Head>, head: Head)
    requires Keeps(pending, files) && head.FileHead?
    ensures Keeps(pending[|files| := head.content], files + [head])
  {
  }

  /** A file's header: it is owed an answer, and waited for with a window's files owed one. */
  lemma FileMoves(copy: Copy, n: Ends.Sender, named: Named, path: Path)
    requires n.mode == Ends.Free && n.sending.None? && ComesNext(copy, Reached(copy, n.k), named, path) && named.node.NFile?
    ensures var w := Reached(copy, n.k);
            var owed := n.owed + {|w.files|};
            var after := n.(k := n.k + 1, owed := owed, mode := if |owed| >= WINDOW then Ends.Waiting else Ends.Taking);
            var NFile(content, mode, mtime) := named.node;
            && Moved(copy, n, Header) ==
               Some((after, [FileItem(Receive.FileHeader(|w.files|, named.name, mode, mtime, |content|))]))
            && Past(w, Reached(copy, n.k + 1))
            && Reached(copy, n.k + 1).files == w.files + [HeadOf(path, named.name, named.node)]
  {
    hide Reached, Next, NextHead, Goes, ComesNext, Past;
    HeaderMoves(copy, n, named, path);
  }

  ghost predicate ContentsNext(copy: Copy, w: Walk, node: Node, source: Source, path: Path) {
    && w.frames == [] && w.begun < |copy.sources| && copy.sources[w.begun] == source && source == Contents(node)
    && path == LandingOf(copy, source)
  }

  /** The walk is in the directory at `path`, entered from `w`, with `rest` of it still to be sent. */
  ghost predicate InDir(w: Walk, e: Walk, path: Path, rest: seq<Named>) {
    && (w.frames != [] ==> Last(w.frames).rest != [])
    && e.begun == (if w.frames == [] then w.begun + 1 else w.begun)
    && e.frames == (if w.frames == [] then [] else Front(w.frames) + [Last(w.frames).(rest := Last(w.frames).rest[1..])])
                   + [Frame(path, rest)]
  }

  lemma DirMoves(copy: Copy, n: Ends.Sender, named: Named, contents: Option<Source>, path: Path)
    requires n.mode == Ends.Free && n.sending.None? && named.node.NDir? && |Reached(copy, n.k).frames| < MAX_DEPTH
    requires if contents.None? then ComesNext(copy, Reached(copy, n.k), named, path)
             else ContentsNext(copy, Reached(copy, n.k), named.node, contents.value, path)
    ensures var w := Reached(copy, n.k);
            && Goes(copy, w)
            && NextHead(copy, w) == (if contents.None? then HeadOf(path, named.name, named.node)
                                     else ContentsHead(path, named.node.mode, named.node.mtime))
            && Moved(copy, n, Header) == Some(HeaderMoved(copy, n)) && HeaderMoved(copy, n).0.k == n.k + 1
            && Reached(copy, n.k + 1) == Next(copy, w) && Next(copy, w).files == w.files
            && InDir(w, Next(copy, w), path, Kept(copy.opts, named.node.entries, RelOf(copy, path)))
  {
  }

  lemma CloseMoves(copy: Copy, n: Ends.Sender, w: Walk, path: Path)
    requires n.mode == Ends.Free && n.sending.None? && InDir(w, Reached(copy, n.k), path, [])
    ensures var e := Reached(copy, n.k);
            && Goes(copy, e) && NextHead(copy, e) == EndHead(path)
            && Moved(copy, n, Header) == Some(HeaderMoved(copy, n)) && HeaderMoved(copy, n).0.k == n.k + 1
            && Reached(copy, n.k + 1) == Next(copy, e) && Next(copy, e).files == e.files && Past(w, Next(copy, e))
  {
    var e := Reached(copy, n.k);
    assert Last(e.frames) == Frame(path, []);
    assert Front(e.frames) == if w.frames == [] then [] else Front(w.frames) + [Last(w.frames).(rest := Last(w.frames).rest[1..])];
  }

  lemma StillInDir(w: Walk, before: Walk, after: Walk, path: Path, entry: Named, rest: seq<Named>)
    requires InDir(w, before, path, [entry] + rest) && Past(before, after)
    ensures InDir(w, after, path, rest)
  {
    assert Last(before.frames) == Frame(path, [entry] + rest);
    assert ([entry] + rest)[1..] == rest;
  }

  // ---- what an answer brings ---------------------------------------------------------------------------------------------

  predicate AllChunks(items: seq<Item>) {
    forall i :: 0 <= i < |items| ==> items[i].ChunkItem?
  }

  /** The bytes chunks carry. */
  function Carried(items: seq<Item>): seq<byte>
    requires AllChunks(items)
  {
    if items == [] then [] else Carried(items[..|items| - 1]) + items[|items| - 1].bytes
  }

  lemma NoneCarried()
    ensures AllChunks([]) && Carried([]) == []
  {
  }

  lemma CarriedMore(items: seq<Item>, bytes: seq<byte>)
    requires AllChunks(items)
    ensures AllChunks(items + [ChunkItem(bytes)]) && Carried(items + [ChunkItem(bytes)]) == Carried(items) + bytes
  {
    assert (items + [ChunkItem(bytes)])[..|items|] == items;
  }

  /** `items` are `bytes` in chunks, and the file's end. */
  predicate CarriesAll(items: seq<Item>, bytes: seq<byte>) {
    items != [] && items[|items| - 1] == SentItem && AllChunks(items[..|items| - 1]) && Carried(items[..|items| - 1]) == bytes
  }

  /** What the sender writes on an answer for a file of `content`: that it is the same; in a dry run that it differs;
      or its bytes from the first the answer did not have. */
  predicate Fulfils(items: seq<Item>, content: seq<byte>, answer: Receive.Answer, dryRun: bool) {
    var from := if answer.Want? && 0 < answer.have <= |content| && answer.prefix == Some(content[..answer.have])
                then answer.have else 0;
    if answer.Check? && answer.hash == content then items == [SameItem(answer.id)]
    else if dryRun then items == [DiffersItem(answer.id, from)]
    else items != [] && items[0] == DataItem(answer.id, from) && CarriesAll(items[1..], content[from..])
  }

  lemma OneFulfils(out: seq<Item>, item: Item, content: seq<byte>, answer: Receive.Answer, dryRun: bool)
    requires if IsSame(content, answer) then item == SameItem(answer.id)
             else dryRun && item == DiffersItem(answer.id, SendFrom(content, answer))
    ensures Fulfils((out + [item])[|out|..], content, answer, dryRun)
  {
    assert (out + [item])[|out|..] == [item];
  }

  lemma BytesFulfil(first: seq<Item>, out: seq<Item>, content: seq<byte>, answer: Receive.Answer)
    requires !IsSame(content, answer) && |first| < |out| && first + [DataItem(answer.id, SendFrom(content, answer))] <= out
    requires CarriesAll(out[|first| + 1..], content[SendFrom(content, answer)..])
    ensures first <= out && Fulfils(out[|first|..], content, answer, false)
  {
    hide CarriesAll;
    assert out[|first|..][1..] == out[|first| + 1..];
  }

  class Sender {
    const copy: Copy
    const inbox: Inbox
    var pending: map<nat, seq<byte>>
    var next: nat
    var tree: Path
    var out: seq<Item>
    var over: bool
    ghost var moves: seq<Move>
    ghost var now: Ends.Sender

    ghost function At(): Walk
      reads this`now
    {
      Reached(copy, now.k)
    }

    /** What the sender keeps is the machine's sender after its moves, and what it wrote is what they write. */
    ghost predicate Valid()
      reads this`moves, this`now, this`out, this`pending, this`next
    {
      && Sources(copy) && Played(copy, moves) == Some((now, out))
      && pending.Keys == now.owed && next == |At().files| && Keeps(pending, At().files)
      && !now.mode.Quit?
    }

    ghost predicate Between(mode: Ends.Mode)
      reads this`moves, this`now, this`out, this`pending, this`next
    {
      Valid() && now.sending.None? && now.mode == mode
    }

    constructor (copy: Copy, inbox: Inbox)
      requires Sources(copy)
      ensures Between(Ends.Free) && this.copy == copy && this.inbox == inbox && out == [] && At() == Walk([], 0, [])
    {
      this.copy, this.inbox := copy, inbox;
      pending, next, tree, out, over := map[], 0, [], [], false;
      moves, now := [], Ends.Sender(0, {}, None, Ends.Free);
    }

    /** Write what a move of the machine's sender writes. */
    method Write(item: Item, ghost move: Move, ghost after: Ends.Sender)
      requires Played(copy, moves) == Some((now, out)) && Moved(copy, now, move) == Some((after, [item]))
      modifies this`out, this`moves, this`now
      ensures Played(copy, moves) == Some((now, out)) && now == after && out == old(out) + [item]
    {
      assert (moves + [move])[..|moves|] == moves;
      moves, now := moves + [move], after;
      out := out + [item];
    }

    /** A move that writes nothing. */
    ghost method Pass(move: Move, after: Ends.Sender)
      requires Valid() && Moved(copy, now, move) == Some((after, [])) && after == now.(mode := after.mode) && !after.mode.Quit?
      modifies this`moves, this`now
      ensures Valid() && now == after
    {
      assert (moves + [move])[..|moves|] == moves;
      var none: seq<Item> := [];
      assert out + none == out;
      moves, now := moves + [move], after;
    }

    // ---- answers ---------------------------------------------------------------------------------------------------------

    /** Send the file's bytes from `at` on, as reads bring them, and its end. */
    method SendBytes(id: nat, content: seq<byte>, from: nat) returns (failed: bool)
      requires Valid() && now.sending == Some(Ends.Sending(id, from)) && from <= |content| && now.mode == Ends.Taking
      requires id < next && At().files[id].FileHead? && At().files[id].content == content
      modifies this`out, this`moves, this`now
      ensures Valid() && now.k == old(now.k)
      ensures !failed ==> Between(Ends.Taking) && old(out) <= out && CarriesAll(out[|old(out)|..], content[from..])
    {
      hide Moved, Played, Reached, Carried;
      var at := from;
      ghost var first, chunks: seq<Item> := out, [];
      NoneCarried();
      while at < |content|
        invariant from <= at <= |content|
        invariant Valid() && now == old(now).(sending := Some(Ends.Sending(id, at)))
        invariant out == first + chunks && AllChunks(chunks) && Carried(chunks) == content[from..at]
      {
        if * {
          return true;
        }
        var n: nat :| 0 < n <= CHUNK && at + n <= |content|;
        ChunkMoves(copy, now, id, content, at, n);
        Write(ChunkItem(content[at..at + n]), Chunk(n), now.(sending := Some(Ends.Sending(id, at + n))));
        CarriedMore(chunks, content[at..at + n]);
        chunks := chunks + [ChunkItem(content[at..at + n])];
        assert content[from..at + n] == content[from..at] + content[at..at + n];
        at := at + n;
      }
      EndMoves(copy, now, id, content);
      Write(SentItem, Ended, now.(sending := None));
      assert out[|first|..] == chunks + [SentItem] && (chunks + [SentItem])[..|chunks|] == chunks;
      assert content[from..at] == content[from..];
      failed := false;
    }

    /** Act on an answer: send the file's bytes, or say it is the same. */
    method Answer(answer: Answer) returns (failed: bool)
      requires Valid() && now.sending.None? && (now.mode == Ends.Waiting || now.mode == Ends.Taking)
      modifies this
      ensures Valid() && now.k == old(now.k) && over == old(over) && tree == old(tree)
      ensures !failed ==> Between(Ends.Taking) && |pending| < |old(pending)|
      ensures !failed ==> && answer.id in old(pending) && pending == old(pending) - {answer.id} && old(out) <= out
                          && Fulfils(out[|old(out)|..], old(pending)[answer.id], answer, copy.opts.dryRun)
    {
      hide Moved, Played, Reached, TakeMoved, IsSame, SendFrom, CarriesAll, Fulfils;
      var id := answer.id;
      if id !in pending {
        return true;
      }
      if * {
        return true;
      }
      var content := pending[id];
      TakeMoves(copy, now, answer, content);
      ghost var (after, items) := TakeMoved(copy, now, answer);
      var from := SendFrom(content, answer);
      if IsSame(content, answer) {
        OneFulfils(out, SameItem(id), content, answer, copy.opts.dryRun);
        TakeOut(answer, SameItem(id), after);
        return false;
      }
      if copy.opts.dryRun {
        OneFulfils(out, DiffersItem(id, from), content, answer, true);
        TakeOut(answer, DiffersItem(id, from), after);
        return false;
      }
      ghost var first := out;
      failed := TakeBytes(answer, content, from, after);
      if !failed { BytesFulfil(first, out, content, answer); }
    }

    /** The file answered is no longer pending, and its bytes go. */
    method TakeBytes(answer: Answer, content: seq<byte>, from: nat, ghost after: Ends.Sender) returns (failed: bool)
      requires Valid() && answer.id in pending && pending[answer.id] == content && from <= |content|
      requires Moved(copy, now, Take(answer)) == Some((after, [DataItem(answer.id, from)]))
      requires after == now.(owed := now.owed - {answer.id}, mode := Ends.Taking, sending := Some(Ends.Sending(answer.id, from)))
      modifies this`pending, this`out, this`moves, this`now
      ensures Valid() && now.k == old(now.k)
      ensures !failed ==> Between(Ends.Taking) && |pending| < |old(pending)| && pending == old(pending) - {answer.id}
      ensures !failed ==> && |old(out)| < |out| && old(out) + [DataItem(answer.id, from)] <= out
                          && CarriesAll(out[|old(out)| + 1..], content[from..])
    {
      hide Moved, Played, Reached, CarriesAll;
      TakeOut(answer, DataItem(answer.id, from), after);
      failed := SendBytes(answer.id, content, from);
    }

    /** The file answered is no longer pending, and `item` says what comes of it. */
    method TakeOut(answer: Answer, item: Item, ghost after: Ends.Sender)
      requires Valid() && answer.id in pending && Moved(copy, now, Take(answer)) == Some((after, [item]))
      requires after.owed == now.owed - {answer.id} && after.k == now.k && !after.mode.Quit?
      modifies this`pending, this`out, this`moves, this`now
      ensures Valid() && now == after && |pending| < |old(pending)|
      ensures pending == old(pending) - {answer.id} && out == old(out) + [item]
    {
      hide Moved, Played, Reached;
      ghost var before := pending;
      pending := map other | other in pending && other != answer.id :: pending[other];
      assert pending.Keys == before.Keys - {answer.id};
      assert |pending.Keys| < |before.Keys|;
      Write(item, Take(answer), after);
    }

    /** Take the answers there are, waiting for one if `wait`. */
    method Answers(wait: bool) returns (failed: bool)
      requires if wait then Between(Ends.Waiting) else Between(Ends.Taking)
      modifies this, inbox
      ensures Valid() && now.k == old(now.k) && tree == old(tree)
      ensures !failed ==> Between(Ends.Free) && (wait ==> |pending| < |old(pending)|)
    {
      hide Valid, Fulfils, Played, Reached, Moved;
      var reply: Option<Reply>;
      if wait {
        var r := inbox.Receive();
        reply := Some(r);
      } else {
        reply := inbox.TryReceive();
      }

      ghost var first := true;
      while reply.Some?
        invariant Valid() && now.sending.None? && now.k == old(now.k) && tree == old(tree)
        invariant now.mode == Ends.Taking || (now.mode == Ends.Waiting && reply.Some? && first)
        invariant if first then pending == old(pending) else |pending| < |old(pending)|
        invariant wait && first ==> reply.Some?
        decreases |pending|, if reply.Some? && reply.value.AnswerReply? then 1 else 0
      {
        if reply.value.EndReply? {
          over := true;
          return true;
        }
        failed := Answer(reply.value.answer);
        if failed {
          return;
        }
        first := false;
        reply := inbox.TryReceive();
      }
      NoMoreMoves(copy, now);
      Pass(NoMore, now.(mode := Ends.Free));
      failed := false;
    }

    // ---- the walk --------------------------------------------------------------------------------------------------------

    /** Send a file's header; its bytes go once it is answered. */
    method File(named: Named, ghost path: Path) returns (failed: bool)
      requires Between(Ends.Free) && ComesNext(copy, At(), named, path) && named.node.NFile?
      modifies this, inbox
      ensures Valid()
      ensures !failed ==> Between(Ends.Free) && Past(old(At()), At()) && tree == old(tree)
    {
      hide Valid, Moved, Played, Reached, Next, NextHead, Goes, ComesNext, LandingOf, Past, AllSent;
      FileHeader(named, path);
      var wait := |pending| >= WINDOW;
      failed := Answers(wait);
    }

    /** The file is pending, its header sent. */
    method FileHeader(named: Named, ghost path: Path)
      requires Between(Ends.Free) && ComesNext(copy, At(), named, path) && named.node.NFile?
      modifies this`next, this`pending, this`out, this`moves, this`now
      ensures Past(old(At()), At())
      ensures if |pending| >= WINDOW then Between(Ends.Waiting) else Between(Ends.Taking)
      ensures pending == old(pending)[old(next) := named.node.content]
      ensures out == old(out) + [FileItem(Receive.FileHeader(old(next), named.name, named.node.mode, named.node.mtime,
                                                             |named.node.content|))]
    {
      hide Moved, Played, Reached, Next, NextHead, Goes, ComesNext, Past, Sources, Keeps;
      FileMoves(copy, now, named, path);
      ghost var before := pending;
      var NFile(content, mode, mtime) := named.node;
      var id := next;
      ghost var owed := now.owed + {id};
      ghost var after := now.(k := now.k + 1, owed := owed, mode := if |owed| >= WINDOW then Ends.Waiting else Ends.Taking);
      KeepsMore(pending, At().files, HeadOf(path, named.name, named.node));
      next := next + 1;
      pending := pending[id := content];
      Write(FileItem(Receive.FileHeader(id, named.name, mode, mtime, |content|)), Header, after);
      assert pending.Keys == before.Keys + {id} == owed;
      assert |pending.Keys| == |owed|;
    }

    /** Send entry `named`, landing at `path`, `depth` deep. */
    method Entry(named: Named, path: Path, depth: nat) returns (failed: bool)
      requires Between(Ends.Free) && ComesNext(copy, At(), named, path) && depth == |At().frames| + 1
      requires depth > 1 ==> |tree| == Base(copy)
      requires |path| >= Base(copy) && (depth == 1 ==> |path| == Base(copy))
      modifies this, inbox
      ensures Valid()
      ensures !failed ==> Between(Ends.Free) && Past(old(At()), At()) && (depth > 1 ==> tree == old(tree))
      decreases named.node, 1
    {
      match named.node {
        case NDir(mode, mtime, entries) =>
          failed := Dir(named, None, path, depth);
        case NFile(_, _, _) =>
          failed := File(named, path);
        case NLink(target) =>
          failed := Leaf(named, path, LinkItem(named.name, target));
          if !failed {
            failed := Answers(false);
          }
        case NOther =>
          if depth == 1 {
            return true;
          }
          failed := Leaf(named, path, SkippedItem(named.name));
      }
    }

    /** An entry whose header is all of it: a symlink, or what is skipped. */
    method Leaf(named: Named, ghost path: Path, item: Item) returns (failed: bool)
      requires Between(Ends.Free) && ComesNext(copy, At(), named, path)
      requires named.node.NLink? || (named.node.NOther? && At().frames != [])
      requires item == if named.node.NLink? then LinkItem(named.name, named.node.target) else SkippedItem(named.name)
      modifies this`out, this`moves, this`now
      ensures Valid()
      ensures !failed ==> Between(if named.node.NLink? then Ends.Taking else Ends.Free) && Past(old(At()), At())
    {
      hide Moved, Played, Reached, Next, NextHead, Goes, ComesNext, LandingOf;
      HeaderMoves(copy, now, named, path);
      ghost var (after, items) := HeaderMoved(copy, now);
      Write(item, Header, after);
      failed := false;
    }

    /** Send a directory, landing at `path`, and what is in it; `contents` if it is what is in a source that goes. */
    method Dir(named: Named, contents: Option<Source>, path: Path, depth: nat) returns (failed: bool)
      requires Between(Ends.Free) && named.node.NDir? && depth == |At().frames| + 1
      requires if contents.None? then ComesNext(copy, At(), named, path) else ContentsNext(copy, At(), named.node, contents.value, path)
      requires depth > 1 ==> |tree| == Base(copy)
      requires |path| >= Base(copy) && (depth == 1 ==> |path| == Base(copy))
      modifies this, inbox
      ensures Valid()
      ensures !failed ==> Between(Ends.Free) && Past(old(At()), At()) && (depth > 1 ==> tree == old(tree))
      decreases named.node, 0
    {
      hide Moved, Played, Reached, Next, NextHead, Goes, Past, ContentsNext, HeaderMoved;
      if depth > MAX_DEPTH {
        return true;
      }

      ghost var w := At();
      var NDir(mode, mtime, entries) := named.node;
      Opens(named, contents, path, mode, mtime);
      if depth == 1 {
        tree := path;
      }

      ghost var rel := RelOf(copy, path);
      assert rel == path[|tree|..];
      var i := 0;
      assert entries[0..] == entries;
      while i < |entries|
        invariant 0 <= i <= |entries|
        invariant Between(Ends.Free) && InDir(w, At(), path, Kept(copy.opts, entries[i..], rel))
        invariant |tree| == Base(copy) && (depth > 1 ==> tree == old(tree))
      {
        var entry := entries[i];
        FirstKept(copy.opts, entries, rel, i);
        var below := path + [entry.name];
        assert below[|tree|..] == rel + [entry.name];
        var excluded := AnyExcludes(copy.opts.excludes, entry.name, Written(below[|tree|..]));
        if !excluded {
          ghost var before := At();
          failed := Entry(entry, below, depth + 1);
          if failed {
            return;
          }
          StillInDir(w, before, At(), path, entry, Kept(copy.opts, entries[i + 1..], rel));
        }
        i := i + 1;
      }
      Closes(w, path);
      failed := false;
    }

    /** The header of a directory. */
    method Opens(named: Named, contents: Option<Source>, ghost path: Path, mode: nat, mtime: Option<nat>)
      requires Between(Ends.Free) && named.node.NDir? && mode == named.node.mode && mtime == named.node.mtime
      requires if contents.None? then ComesNext(copy, At(), named, path) else ContentsNext(copy, At(), named.node, contents.value, path)
      requires |At().frames| < MAX_DEPTH
      modifies this`out, this`moves, this`now
      ensures Between(Ends.Free) && InDir(old(At()), At(), path, Kept(copy.opts, named.node.entries, RelOf(copy, path)))
    {
      hide Moved, Played, Reached, Next, NextHead, Goes, ComesNext, LandingOf, InDir, ContentsNext;
      DirMoves(copy, now, named, contents, path);
      ghost var (after, items) := HeaderMoved(copy, now);
      if contents.None? {
        Write(DirItem(named.name, mode, mtime), Header, after);
      } else {
        Write(ContentsItem(mode, mtime), Header, after);
      }
    }

    /** A directory's end, once all in it is sent. */
    method Closes(ghost w: Walk, ghost path: Path)
      requires Between(Ends.Free) && InDir(w, At(), path, [])
      modifies this`out, this`moves, this`now
      ensures Between(Ends.Free) && Past(w, At())
    {
      hide Moved, Played, Reached, Next, NextHead, Goes, LandingOf, InDir, Past;
      CloseMoves(copy, now, w, path);
      ghost var (after, items) := HeaderMoved(copy, now);
      Write(EndItem, Header, after);
    }

    /** Send `source`: as its own name, or what is in it. */
    method SendSource(i: nat) returns (failed: bool)
      requires Between(Ends.Free) && At().frames == [] && At().begun == i < |copy.sources|
      modifies this, inbox
      ensures Valid() && (!failed ==> Between(Ends.Free) && At().frames == [] && At().begun == i + 1)
    {
      var source := copy.sources[i];
      var path := LandingOf(copy, source);
      LandingLength(copy, i);
      match source {
        case Entry(named) => failed := Entry(named, path, 1);
        case Contents(dir) => failed := Dir(Named([], dir), Some(source), path, 1);
      }
    }

    /** Send every source, then wait for the answers owed. */
    method All() returns (failed: bool)
      requires Between(Ends.Free) && At() == Walk([], 0, [])
      modifies this, inbox
      ensures Valid() && (!failed ==> Between(Ends.Free) && AllSent(copy, At()) && pending == map[])
    {
      hide Moved, Played, Reached;
      var i := 0;
      while i < |copy.sources|
        invariant 0 <= i <= |copy.sources| && Between(Ends.Free) && At().frames == [] && At().begun == i
      {
        failed := SendSource(i);
        if failed {
          return;
        }
        i := i + 1;
      }
      while pending != map[]
        invariant Between(Ends.Free) && AllSent(copy, At())
        decreases |pending|
      {
        assert now.owed != {};
        WaitMoves(copy, now);
        Pass(AtEnd, now.(mode := Ends.Waiting));
        failed := Answers(true);
        if failed {
          return;
        }
      }
      failed := false;
    }

    /** Send it all, and say so; or that it failed, unless the receiver ended the copy. */
    method Send() returns (failed: bool)
      requires Between(Ends.Free) && At() == Walk([], 0, [])
      modifies this, inbox
      ensures Played(copy, moves) == Some((now, out))
      ensures !failed ==> now.mode == Ends.Quit(Finishing()) && AllSent(copy, At()) && now.owed == {}
      ensures failed && !over ==> now.mode == Ends.Quit(Stopping())
    {
      failed := All();
      if !failed {
        assert now.owed == {};
        Write(DoneItem, AtEnd, now.(mode := Ends.Quit(Finishing())));
      } else if !over {
        Write(FailedItem, Stop, now.(mode := Ends.Quit(Stopping())));
      }
    }
  }
}
