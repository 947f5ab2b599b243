/** The sender, the receiver and the two streams between them, as one machine, a step at a time. */
module Ends {
  import opened Bytes
  import opened Files
  import opened Walk
  import opened Course
  import opened Receive
  import opened Landing
  import opened Heads
  import opened FileSteps
  import opened Protocol
  import opened Tally

  /** What the sender is at: free to send the next header, waiting for an answer, taking the answers
      there are, or over. */
  datatype Mode = Free | Waiting | Taking | Quit(ending: Ending)

  /** A file whose bytes are going, those before `at` sent. */
  datatype Sending = Sending(id: nat, at: nat)

  datatype Sender = Sender(k: nat, owed: set<nat>, sending: Option<Sending>, mode: Mode)

  datatype Receiver = Running(s: State) | Stopped(files: Files, summary: Option<Summary>, fail: Option<Fail>)

  /** What the sender wrote waits in `buf` until a message is full or it waits; `pipe` and `replies`
      are on their way. */
  datatype Copying = Copying(sender: Sender, buf: seq<Item>, pipe: seq<Item>, replies: seq<Answer>, receiver: Receiver)

  /** A step of either end, or of what is between. */
  datatype Act =
    | SendHeader          // the walk goes on
    | TakeAnswer          // an answer comes
    | SendChunk(n: nat)   // the file's next bytes
    | SendSent            // the file's end
    | LookNoMore          // no more answers are there yet
    | EndWalk             // all was sent: wait for an answer owed, or be done
    | GiveUp              // an error here
    | Flush(n: nat)       // items handed to the stream
    | Receive             // the receiver's next item
    | Cut                 // the stream ends

  ghost function Init(copy: Copy): Copying {
    Copying(Sender(0, {}, None, Free), [], [], [], Running(Begin(copy)))
  }

  /** The sender over, its last item written and handed on. */
  function Quits(y: Copying, ending: Ending): Copying {
    var last := if ending == Finished then DoneItem else FailedItem;
    y.(sender := y.sender.(mode := Quit(ending)), buf := [], pipe := y.pipe + y.buf + [last])
  }

  /** What a header sent leaves: with a window's files unanswered, the sender waits. */
  ghost function Headed(copy: Copy, y: Copying): Copying
    requires Goes(copy, Reached(copy, y.sender.k))
  {
    var w, n := Reached(copy, y.sender.k), y.sender;
    var head := NextHead(copy, w);
    var item := ItemFor(head, |w.files|);
    if head.FileHead? then
      var owed := n.owed + {|w.files|};
      if |owed| >= WINDOW
      then y.(sender := n.(k := n.k + 1, owed := owed, mode := Waiting), buf := [], pipe := y.pipe + y.buf + [item])
      else y.(sender := n.(k := n.k + 1, owed := owed, mode := Taking), buf := y.buf + [item])
    else y.(sender := n.(k := n.k + 1, mode := if head.LinkHead? then Taking else Free), buf := y.buf + [item])
  }

  /** What an answer gets: that the file is the same, or its bytes. */
  ghost function Answered(copy: Copy, y: Copying): Copying
    requires y.replies != []
  {
    var w, n, answer := Reached(copy, y.sender.k), y.sender, y.replies[0];
    var t := y.(replies := y.replies[1..]);
    if answer.id !in n.owed || answer.id >= |w.files| || !w.files[answer.id].FileHead? then Quits(t, GaveUp)
    else
      var content := w.files[answer.id].content;
      var m := n.(owed := n.owed - {answer.id}, mode := Taking);
      var from := SendFrom(content, answer);
      if IsSame(content, answer) then t.(sender := m, buf := y.buf + [SameItem(answer.id)])
      else if copy.opts.dryRun then t.(sender := m, buf := y.buf + [DiffersItem(answer.id, from)])
      else t.(sender := m.(sending := Some(Sending(answer.id, from))), buf := y.buf + [DataItem(answer.id, from)])
  }

  ghost function Heard(y: Copying): Copying
    requires y.receiver.Running? && y.pipe != []
  {
    var t := y.(pipe := y.pipe[1..]);
    match Received(y.receiver.s, y.pipe[0])
    case On(s, answer) => t.(receiver := Running(s), replies := if answer.Some? then y.replies + [answer.value] else y.replies)
    case Over(files, summary, fail) => t.(receiver := Stopped(files, summary, fail))
  }

  /** The content of the file whose bytes are going. */
  ghost function Content(copy: Copy, n: Sender): seq<byte> {
    var w := Reached(copy, n.k);
    if n.sending.Some? && n.sending.value.id < |w.files| && w.files[n.sending.value.id].FileHead?
    then w.files[n.sending.value.id].content else []
  }

  /** Step `act`, if it can be taken. */
  ghost function Do(copy: Copy, y: Copying, act: Act): Option<Copying> {
    var n := y.sender;
    var w := Reached(copy, n.k);
    match act
    case SendHeader => if n.mode == Free && n.sending.None? && Goes(copy, w) then Some(Headed(copy, y)) else None
    case TakeAnswer =>
      if (n.mode == Waiting || n.mode == Taking) && n.sending.None? && y.replies != [] then Some(Answered(copy, y)) else None
    case SendChunk(len) =>
      if && !n.mode.Quit? && n.sending.Some? && 0 < len <= CHUNK && n.sending.value.at + len <= |Content(copy, n)|
      then
        var at := n.sending.value.at;
        Some(y.(sender := n.(sending := Some(n.sending.value.(at := at + len))),
                buf := y.buf + [ChunkItem(Content(copy, n)[at..at + len])]))
      else None
    case SendSent =>
      if !n.mode.Quit? && n.sending.Some? && n.sending.value.at == |Content(copy, n)|
      then Some(y.(sender := n.(sending := None), buf := y.buf + [SentItem])) else None
    case LookNoMore => if n.mode == Taking && n.sending.None? then Some(y.(sender := n.(mode := Free))) else None
    case EndWalk =>
      if n.mode == Free && n.sending.None? && AllSent(copy, w)
      then Some(if n.owed == {} then Quits(y, Finished)
                else y.(sender := n.(mode := Waiting), buf := [], pipe := y.pipe + y.buf))
      else None
    case GiveUp => if !n.mode.Quit? then Some(Quits(y, GaveUp)) else None
    case Flush(len) => if len <= |y.buf| then Some(y.(buf := y.buf[len..], pipe := y.pipe + y.buf[..len])) else None
    case Receive => if y.receiver.Running? && y.pipe != [] then Some(Heard(y)) else None
    case Cut =>
      if y.receiver.Running? then Some(y.(receiver := Stopped(y.receiver.s.files, None, Some(Truncated)))) else None
  }

  /** The machine after a run. */
  ghost function Play(copy: Copy, acts: seq<Act>): Option<Copying> {
    if acts == [] then Some(Init(copy))
    else
      var before := Play(copy, acts[..|acts| - 1]);
      if before.None? then None else Do(copy, before.value, acts[|acts| - 1])
  }

  // ---- what every step keeps -----------------------------------------------------------------------

  function TakenTo(pos: Pos): nat {
    if pos.at.Some? then pos.m + 1 else pos.m
  }

  /** The sender stands at `pos`, with no more than a window's files unanswered. */
  ghost predicate SenderAt(copy: Copy, n: Sender, pos: Pos) {
    && Steps(copy, n.k) && pos.k == n.k
    && pos.ending == (if n.mode.Quit? then n.mode.ending else More)
    && (n.mode.Quit? ==> n.mode.ending != More)
    && (if n.sending.Some? then pos.at == Some(n.sending.value.at) && pos.m == n.sending.value.id && HasFile(copy, pos)
                                && pos.at.value <= |FileNext(copy, pos)|
        else pos.at.None?)
    && TakenTo(pos) <= |FilesAt(copy, pos)| <= TakenTo(pos) + WINDOW
    && (forall id: nat :: id in n.owed <==> TakenTo(pos) <= id < |FilesAt(copy, pos)|)
    && (n.mode == Free || n.mode == Taking ==> |FilesAt(copy, pos)| < TakenTo(pos) + WINDOW)
    && (n.mode == Waiting ==> n.sending.None? && TakenTo(pos) < |FilesAt(copy, pos)|)
  }

  /** The answers on their way: those of the headers the receiver has had and the sender has not, in
      order. */
  ghost predicate RepliesAre(copy: Copy, replies: seq<Answer>, far: Pos, pos: Pos) {
    && far.k <= pos.k
    && TakenTo(pos) + |replies| == |FilesAt(copy, far)|
    && |FilesAt(copy, far)| <= |FilesAt(copy, pos)|
    && forall i :: 0 <= i < |replies| ==> ReplyIs(copy, replies, pos, i)
  }

  ghost predicate ReplyIs(copy: Copy, replies: seq<Answer>, pos: Pos, i: int)
    requires 0 <= i < |replies|
  {
    var j := TakenTo(pos) + i;
    && j < |FilesAt(copy, pos)| && FilesAt(copy, pos)[j].FileHead? && FilesAt(copy, pos)[j].path != []
    && replies[i] == AnswerOf(copy, FilesAt(copy, pos)[j], j)
  }

  /** How the receiver stopped: at the end with everything as expected, or short of it with nothing
      lost. */
  ghost predicate StoppedAt(copy: Copy, far: Pos, files: Files, summary: Option<Summary>, fail: Option<Fail>, pos: Pos) {
    && (summary.Some? ==>
          && fail.None? && far.at.None? && AllSent(copy, Reached(copy, far.k)) && far.m == |FilesAt(copy, far)|
          && exists s :: IsAt(copy, far, s) && s.files == files && s.summary == summary.value)
    && (summary.None? ==> fail.Some? && LeftAt(copy, far, files))
    && (fail == Some(Malformed) ==> pos.ending == GaveUp && pos.at.Some?)
  }

  ghost predicate Sound(copy: Copy, y: Copying, far: Pos, pos: Pos) {
    && SenderAt(copy, y.sender, pos)
    && RepliesAre(copy, y.replies, far, pos)
    && (y.sender.mode == Waiting ==> y.buf == [])
    && match y.receiver
       case Running(s) => IsAt(copy, far, s) && Leads(copy, far, y.pipe + y.buf) == Some(pos)
       case Stopped(files, summary, fail) => Steps(copy, far.k) && StoppedAt(copy, far, files, summary, fail, pos)
  }
}
