/** What every run of the two ends keeps. */
module Runs {
  import opened Bytes
  import opened Files
  import opened Walk
  import opened Course
  import opened Receive
  import opened Landing
  import opened Heads
  import opened Headers
  import opened FileSteps
  import opened Counting
  import opened Protocol
  import opened Tally
  import opened Ends

  // ---- the beginning ---------------------------------------------------------------------------------

  lemma NothingYet(copy: Copy, p: Path)
    requires Starts(copy)
    ensures var w := Reached(copy, 0);
            !Gone(copy, w, p) && !Ended(copy, w, p) && !Swept(copy, w, p) && Expected(copy, w, 0, p) == Get(copy.there, p)
  {
    var w := Reached(copy, 0);
    forall q ensures !Gone(copy, w, q) && !Ended(copy, w, q) { NoneGone(copy, q); }
    forall n: nat ensures !SweptAt(copy, w, p, n) {
      if n < |p| { assert !Ended(copy, w, p[..n]); }
    }
  }

  lemma BeginsWell(copy: Copy)
    requires Starts(copy)
    ensures Inv(copy, 0, 0, Begin(copy))
  {
    var w := Reached(copy, 0);
    forall p ensures !Ended(copy, w, p) && FileOk(copy, w, 0, copy.there, p) { NothingYet(copy, p); }
    forall d ensures TimeOk(copy, w, 0, Begin(copy), d) { NothingYet(copy, d); }
    forall p ensures PartOk(copy, w, 0, copy.there, p) {}
  }

  lemma BeginsTallied(copy: Copy)
    requires NoParts(copy.there)
    ensures Tallies(copy, START, Begin(copy))
  {
  }

  lemma BeginsSound(copy: Copy)
    requires Starts(copy)
    ensures Sound(copy, Init(copy), START, START)
  {
    hide Inv, NoParts, Tallies, Begin;
    BeginsWell(copy);
    if NoParts(copy.there) { BeginsTallied(copy); }
  }

  // ---- the sender's steps ----------------------------------------------------------------------------

  /** What the sender writes leads on. */
  lemma Wrote(copy: Copy, far: Pos, items: seq<Item>, pos: Pos, item: Item)
    requires Leads(copy, far, items) == Some(pos) && After(copy, pos, item).Some?
    ensures Leads(copy, far, items + [item]) == After(copy, pos, item)
  {
    LeadsOn(copy, far, items, item);
  }

  /** Answers on their way stay what they are as headers go. */
  lemma RepliesStay(copy: Copy, replies: seq<Answer>, far: Pos, pos: Pos, pos': Pos)
    requires Sources(copy) && RepliesAre(copy, replies, far, pos)
    requires pos.k <= pos'.k && TakenTo(pos') == TakenTo(pos)
    ensures RepliesAre(copy, replies, far, pos')
  {
    hide Reached, Sources, AnswerOf;
    FilesGrow(copy, pos.k, pos'.k);
    forall i | 0 <= i < |replies| ensures ReplyIs(copy, replies, pos', i) {
      assert ReplyIs(copy, replies, pos, i);
    }
  }

  lemma OneTaken(copy: Copy, replies: seq<Answer>, far: Pos, pos: Pos, pos': Pos)
    requires RepliesAre(copy, replies, far, pos) && replies != []
    requires pos.k == pos'.k && TakenTo(pos') == TakenTo(pos) + 1
    ensures RepliesAre(copy, replies[1..], far, pos')
    ensures ReplyIs(copy, replies, pos, 0)
  {
    forall i | 0 <= i < |replies[1..]| ensures ReplyIs(copy, replies[1..], pos', i) {
      assert ReplyIs(copy, replies, pos, i + 1);
    }
  }

  lemma OwedCount(copy: Copy, n: Sender, pos: Pos)
    requires SenderAt(copy, n, pos)
    ensures |n.owed| == |FilesAt(copy, pos)| - TakenTo(pos)
  {
    CountTo(n.owed, TakenTo(pos), |FilesAt(copy, pos)|);
  }

  lemma HeadIsAfter(copy: Copy, pos: Pos, head: Head, id: nat)
    requires pos.at.None? && pos.ending == More
    ensures After(copy, pos, ItemFor(head, id)) == HeadAfter(copy, pos, ItemFor(head, id))
  {
    hide HeadAfter, HasFile, FilesAt, Reached, AllSent, IsSame, SendFrom;
  }

  lemma NotOver(copy: Copy, n: Sender, pos: Pos)
    requires SenderAt(copy, n, pos) && !n.mode.Quit?
    ensures pos.ending == More && pos.k == n.k
    ensures n.sending.None? ==> pos.at.None?
  {
  }

  lemma HeadGoes(copy: Copy, n: Sender, pos: Pos) returns (item: Item)
    requires Sources(copy) && SenderAt(copy, n, pos) && n.mode == Free && n.sending.None? && Goes(copy, Reached(copy, n.k))
    ensures item == ItemFor(NextHead(copy, Reached(copy, n.k)), |FilesAt(copy, pos)|)
    ensures After(copy, pos, item) == Some(pos.(k := pos.k + 1))
    ensures Steps(copy, n.k + 1)
    ensures var head := NextHead(copy, Reached(copy, n.k));
            FilesAt(copy, pos.(k := pos.k + 1)) == if head.FileHead? then FilesAt(copy, pos) + [head] else FilesAt(copy, pos)
  {
    hide Good, Logged, Goes, NextHead, Next;
    ReachedGood(copy, n.k);
    NextFiles(copy, Reached(copy, n.k));
    HeadIsAfter(copy, pos, NextHead(copy, Reached(copy, n.k)), |FilesAt(copy, pos)|);
    item := ItemFor(NextHead(copy, Reached(copy, n.k)), |FilesAt(copy, pos)|);
  }

  lemma HeadedSender(copy: Copy, y: Copying, pos: Pos)
    requires Sources(copy) && SenderAt(copy, y.sender, pos)
    requires y.sender.mode == Free && y.sender.sending.None? && Goes(copy, Reached(copy, y.sender.k))
    ensures SenderAt(copy, Headed(copy, y).sender, pos.(k := pos.k + 1))
  {
    hide Reached, Sources, Goes, HasFile, ItemFor;
    var n := y.sender;
    var item := HeadGoes(copy, n, pos);
    OwedCount(copy, n, pos);
    assert |n.owed + {|FilesAt(copy, pos)|}| == |n.owed| + 1;
    var e, p := Headed(copy, y).sender, pos.(k := pos.k + 1);
    assert forall id: nat :: id in e.owed <==> TakenTo(p) <= id < |FilesAt(copy, p)|;
  }

  lemma SendHeaderStep(copy: Copy, y: Copying, far: Pos, pos: Pos)
    requires Starts(copy) && Sound(copy, y, far, pos) && Do(copy, y, SendHeader).Some?
    ensures Sound(copy, Do(copy, y, SendHeader).value, far, pos.(k := pos.k + 1))
  {
    hide Reached, Sources, Goes, NextHead, IsAt, StoppedAt, Leads, SenderAt, RepliesAre, After, Received;
    var item := HeadGoes(copy, y.sender, pos);
    NotOver(copy, y.sender, pos);
    HeadedSender(copy, y, pos);
    RepliesStay(copy, y.replies, far, pos, pos.(k := pos.k + 1));
    if y.receiver.Running? { Wrote(copy, far, y.pipe + y.buf, pos, item); }
    assert y.pipe + y.buf + [item] == y.pipe + (y.buf + [item]);
    assert y.pipe + y.buf + [item] + [] == y.pipe + y.buf + [item];
    StoppedGrows(copy, y, far, pos, pos.(k := pos.k + 1));
  }

  /** How the receiver stopped does not change with what the sender still does. */
  lemma StoppedGrows(copy: Copy, y: Copying, far: Pos, pos: Pos, pos': Pos)
    requires Sound(copy, y, far, pos) && (pos.ending == More || pos' == pos)
    ensures y.receiver.Stopped? ==>
              StoppedAt(copy, far, y.receiver.files, y.receiver.summary, y.receiver.fail, pos')
  {
  }

  // ---- an answer taken -------------------------------------------------------------------------------

  /** Answers come in the order of their headers, each for a file owed one. */
  lemma AnswerIsNext(copy: Copy, y: Copying, far: Pos, pos: Pos)
    requires SenderAt(copy, y.sender, pos) && RepliesAre(copy, y.replies, far, pos) && pos.at.None? && y.replies != []
    ensures HasFile(copy, pos) && y.replies[0] == AnswerNext(copy, pos) && y.replies[0].id == pos.m
    ensures pos.m in y.sender.owed
  {
    assert ReplyIs(copy, y.replies, pos, 0);
  }

  /** Where the sender stands once it answered the answer. */
  ghost function AnsweredTo(copy: Copy, pos: Pos): Pos
    requires HasFile(copy, pos)
  {
    if IsSame(FileNext(copy, pos), AnswerNext(copy, pos)) || copy.opts.dryRun then pos.(m := pos.m + 1)
    else pos.(at := Some(SendFrom(FileNext(copy, pos), AnswerNext(copy, pos))))
  }

  ghost function AnsweredItem(copy: Copy, pos: Pos): Item
    requires HasFile(copy, pos)
  {
    var content, answer := FileNext(copy, pos), AnswerNext(copy, pos);
    if IsSame(content, answer) then SameItem(pos.m)
    else if copy.opts.dryRun then DiffersItem(pos.m, SendFrom(content, answer))
    else DataItem(pos.m, SendFrom(content, answer))
  }

  lemma AnsweredIs(copy: Copy, y: Copying, far: Pos, pos: Pos)
    requires SenderAt(copy, y.sender, pos) && RepliesAre(copy, y.replies, far, pos)
    requires !y.sender.mode.Quit? && y.sender.sending.None? && y.replies != []
    ensures HasFile(copy, pos) && After(copy, pos, AnsweredItem(copy, pos)) == Some(AnsweredTo(copy, pos))
    ensures var t := Answered(copy, y);
            && t == y.(sender := t.sender, replies := y.replies[1..], buf := y.buf + [AnsweredItem(copy, pos)])
            && SenderAt(copy, t.sender, AnsweredTo(copy, pos)) && t.sender.mode == Taking
    ensures TakenTo(AnsweredTo(copy, pos)) == TakenTo(pos) + 1 && AnsweredTo(copy, pos).k == pos.k
    ensures AnsweredTo(copy, pos).ending == More
  {
    hide IsSame, SendFrom, AnswerOf, Goes, AllSent, NextHead, ItemFor;
    AnswerIsNext(copy, y, far, pos);
  }

  lemma TakeAnswerStep(copy: Copy, y: Copying, far: Pos, pos: Pos)
    requires Starts(copy) && Sound(copy, y, far, pos) && Do(copy, y, TakeAnswer).Some?
    ensures HasFile(copy, pos)
    ensures Sound(copy, Do(copy, y, TakeAnswer).value, far, AnsweredTo(copy, pos))
  {
    hide Reached, Sources, IsAt, StoppedAt, Leads, SenderAt, RepliesAre, After, Received, Answered, HasFile, AnsweredTo, AnsweredItem;
    AnsweredIs(copy, y, far, pos);
    NotOver(copy, y.sender, pos);
    OneTaken(copy, y.replies, far, pos, AnsweredTo(copy, pos));
    if y.receiver.Running? { Wrote(copy, far, y.pipe + y.buf, pos, AnsweredItem(copy, pos)); }
    assert y.pipe + y.buf + [AnsweredItem(copy, pos)] == y.pipe + (y.buf + [AnsweredItem(copy, pos)]);
    StoppedGrows(copy, y, far, pos, AnsweredTo(copy, pos));
  }

  // ---- a file's bytes sent -----------------------------------------------------------------------------

  lemma WroteStep(copy: Copy, y: Copying, far: Pos, pos: Pos, pos': Pos, t: Copying, item: Item)
    requires Sources(copy) && Sound(copy, y, far, pos) && pos.ending == More
    requires After(copy, pos, item) == Some(pos') && SenderAt(copy, t.sender, pos') && t.sender.mode != Waiting
    requires TakenTo(pos') == TakenTo(pos) && pos.k <= pos'.k
    requires t == y.(sender := t.sender, buf := y.buf + [item])
    ensures Sound(copy, t, far, pos')
  {
    hide Reached, Sources, IsAt, StoppedAt, Leads, SenderAt, RepliesAre, After;
    RepliesStay(copy, y.replies, far, pos, pos');
    if y.receiver.Running? { Wrote(copy, far, y.pipe + y.buf, pos, item); }
    assert y.pipe + y.buf + [item] == y.pipe + (y.buf + [item]);
    StoppedGrows(copy, y, far, pos, pos');
  }

  lemma ContentIs(copy: Copy, n: Sender, pos: Pos)
    requires SenderAt(copy, n, pos) && n.sending.Some?
    ensures HasFile(copy, pos) && Content(copy, n) == FileNext(copy, pos) && pos.at == Some(n.sending.value.at)
    ensures n.mode != Waiting
  {
  }

  lemma SendChunkStep(copy: Copy, y: Copying, far: Pos, pos: Pos, len: nat)
    requires Starts(copy) && Sound(copy, y, far, pos) && Do(copy, y, SendChunk(len)).Some?
    ensures pos.at.Some? && Sound(copy, Do(copy, y, SendChunk(len)).value, far, pos.(at := Some(pos.at.value + len)))
  {
    hide Reached, Sources, IsAt, StoppedAt, Leads, RepliesAre, Received, Answered, Headed;
    var n, at := y.sender, y.sender.sending.value.at;
    ContentIs(copy, n, pos);
    NotOver(copy, n, pos);
    var item := ChunkItem(Content(copy, n)[at..at + len]);
    assert After(copy, pos, item) == Some(pos.(at := Some(at + len)));
    WroteStep(copy, y, far, pos, pos.(at := Some(at + len)), Do(copy, y, SendChunk(len)).value, item);
  }

  lemma SendSentStep(copy: Copy, y: Copying, far: Pos, pos: Pos)
    requires Starts(copy) && Sound(copy, y, far, pos) && Do(copy, y, SendSent).Some?
    ensures pos.at.Some? && Sound(copy, Do(copy, y, SendSent).value, far, pos.(m := pos.m + 1, at := None))
  {
    hide Reached, Sources, IsAt, StoppedAt, Leads, RepliesAre, Received, Answered, Headed;
    var n := y.sender;
    ContentIs(copy, n, pos);
    NotOver(copy, n, pos);
    var pos' := pos.(m := pos.m + 1, at := None);
    assert After(copy, pos, SentItem) == Some(pos');
    WroteStep(copy, y, far, pos, pos', Do(copy, y, SendSent).value, SentItem);
  }

  // ---- the sender's other steps ------------------------------------------------------------------------

  lemma LookNoMoreStep(copy: Copy, y: Copying, far: Pos, pos: Pos)
    requires Sound(copy, y, far, pos) && Do(copy, y, LookNoMore).Some?
    ensures Sound(copy, Do(copy, y, LookNoMore).value, far, pos)
  {
    hide Reached, IsAt, StoppedAt, Leads, RepliesAre, Received, Answered, Headed;
    assert SenderAt(copy, Do(copy, y, LookNoMore).value.sender, pos);
  }

  /** The sender's last item: that it is done, or gave up. */
  lemma QuitsSound(copy: Copy, y: Copying, far: Pos, pos: Pos, ending: Ending)
    requires Sources(copy) && Sound(copy, y, far, pos) && pos.ending == More && ending != More
    requires After(copy, pos, if ending == Finished then DoneItem else FailedItem) == Some(pos.(ending := ending))
    ensures Sound(copy, Quits(y, ending), far, pos.(ending := ending))
  {
    hide Reached, Sources, IsAt, StoppedAt, Leads, RepliesAre, After, Received, Answered, Headed;
    var item := if ending == Finished then DoneItem else FailedItem;
    RepliesStay(copy, y.replies, far, pos, pos.(ending := ending));
    if y.receiver.Running? { Wrote(copy, far, y.pipe + y.buf, pos, item); }
    assert y.pipe + y.buf + [item] + [] == y.pipe + y.buf + [item];
    StoppedGrows(copy, y, far, pos, pos.(ending := ending));
  }

  lemma GiveUpStep(copy: Copy, y: Copying, far: Pos, pos: Pos)
    requires Starts(copy) && Sound(copy, y, far, pos) && !y.sender.mode.Quit?
    ensures Sound(copy, Quits(y, GaveUp), far, pos.(ending := GaveUp))
  {
    hide Reached, Sources, IsAt, StoppedAt, Leads, RepliesAre, Received, Answered, Headed, Quits;
    NotOver(copy, y.sender, pos);
    QuitsSound(copy, y, far, pos, GaveUp);
  }

  /** All was sent: with an answer owed, the sender waits; with none, it is done. */
  lemma EndWalkStep(copy: Copy, y: Copying, far: Pos, pos: Pos) returns (pos': Pos)
    requires Starts(copy) && Sound(copy, y, far, pos) && Do(copy, y, EndWalk).Some?
    ensures Sound(copy, Do(copy, y, EndWalk).value, far, pos')
  {
    hide Reached, Sources, IsAt, StoppedAt, Leads, RepliesAre, Received, Answered, Headed, Quits;
    NotOver(copy, y.sender, pos);
    OwedCount(copy, y.sender, pos);
    if y.sender.owed == {} {
      pos' := pos.(ending := Finished);
      QuitsSound(copy, y, far, pos, Finished);
    } else {
      pos' := pos;
      assert y.pipe + y.buf + [] == y.pipe + y.buf;
    }
  }

  lemma FlushStep(copy: Copy, y: Copying, far: Pos, pos: Pos, len: nat)
    requires Sound(copy, y, far, pos) && len <= |y.buf|
    ensures Sound(copy, y.(buf := y.buf[len..], pipe := y.pipe + y.buf[..len]), far, pos)
  {
    hide Reached, IsAt, StoppedAt, Leads, RepliesAre, SenderAt;
    assert y.pipe + y.buf[..len] + y.buf[len..] == y.pipe + y.buf;
  }

  // ---- the receiver's steps --------------------------------------------------------------------------

  lemma LeadsTo(copy: Copy, far: Pos, items: seq<Item>, pos: Pos)
    requires Leads(copy, far, items) == Some(pos) && items != []
    ensures After(copy, far, items[0]).Some?
    ensures Leads(copy, After(copy, far, items[0]).value, items[1..]) == Some(pos)
    ensures After(copy, far, items[0]).value.ending != More ==> pos == After(copy, far, items[0]).value
    ensures far.k <= After(copy, far, items[0]).value.k <= pos.k
  {
    var next := After(copy, far, items[0]).value;
    AfterGrows(copy, far, items[0]);
    LeadsGrows(copy, next, items[1..]);
    if items[1..] != [] { assert After(copy, next, items[1..][0]).Some?; }
  }

  /** A header makes one more file, if it is a file's. */
  lemma AfterFiles(copy: Copy, far: Pos, item: Item)
    requires Sources(copy) && After(copy, far, item).Some?
    ensures FilesAt(copy, After(copy, far, item).value) ==
            if item.FileItem? then FilesAt(copy, far) + [NextHeadAt(copy, far)] else FilesAt(copy, far)
  {
    hide Good, Logged, Next, NextHead, Goes;
    var next := After(copy, far, item).value;
    if next.k == far.k + 1 {
      ReachedGood(copy, far.k);
      NextFiles(copy, Reached(copy, far.k));
      assert item == ItemFor(NextHead(copy, Reached(copy, far.k)), |FilesAt(copy, far)|);
    }
  }

  ghost function NextHeadAt(copy: Copy, far: Pos): Head {
    var w := Reached(copy, far.k);
    if Goes(copy, w) then NextHead(copy, w) else EndHead([])
  }

  /** The answer to a file's header joins those on their way, in its place. */
  lemma ReplyJoins(copy: Copy, replies: seq<Answer>, far: Pos, next: Pos, pos: Pos, head: Head, answer: Answer)
    requires Sources(copy) && RepliesAre(copy, replies, far, pos) && far.k <= next.k <= pos.k
    requires FilesAt(copy, next) == FilesAt(copy, far) + [head] && head.FileHead? && head.path != []
    requires answer == AnswerOf(copy, head, |FilesAt(copy, far)|)
    ensures RepliesAre(copy, replies + [answer], next, pos)
  {
    hide Reached, Sources, AnswerOf;
    FilesGrow(copy, next.k, pos.k);
    forall i | 0 <= i < |replies + [answer]| ensures ReplyIs(copy, replies + [answer], pos, i) {
      if i < |replies| {
        assert ReplyIs(copy, replies, pos, i);
      } else {
        assert FilesAt(copy, next)[|FilesAt(copy, far)|] == head;
      }
    }
  }

  lemma NoReply(copy: Copy, replies: seq<Answer>, far: Pos, next: Pos, pos: Pos)
    requires Sources(copy) && RepliesAre(copy, replies, far, pos) && next.k <= pos.k
    requires FilesAt(copy, next) == FilesAt(copy, far)
    ensures RepliesAre(copy, replies, next, pos)
  {
  }

  lemma HeardOn(copy: Copy, y: Copying, far: Pos, pos: Pos)
    requires Starts(copy) && Sound(copy, y, far, pos) && y.receiver.Running? && y.pipe != []
    requires After(copy, far, y.pipe[0]).Some? && Received(y.receiver.s, y.pipe[0]).On?
    requires Outcome(copy, far, y.pipe[0], y.receiver.s, Received(y.receiver.s, y.pipe[0]))
    requires far.k <= After(copy, far, y.pipe[0]).value.k <= pos.k
    requires Leads(copy, After(copy, far, y.pipe[0]).value, y.pipe[1..] + y.buf) == Some(pos)
    ensures Sound(copy, Heard(y), After(copy, far, y.pipe[0]).value, pos)
  {
    hide Reached, Sources, IsAt, StoppedAt, Leads, SenderAt, RepliesAre, After, Received, Answered, Headed, AnswerOf, Goes, NextHead;
    var item, next := y.pipe[0], After(copy, far, y.pipe[0]).value;
    var answer := Received(y.receiver.s, item).answer;
    AfterFiles(copy, far, item);
    if item.FileItem? {
      ReplyJoins(copy, y.replies, far, next, pos, NextHeadAt(copy, far), answer.value);
    } else {
      NoReply(copy, y.replies, far, next, pos);
    }
  }

  lemma HeardOver(copy: Copy, y: Copying, far: Pos, pos: Pos)
    requires Starts(copy) && Sound(copy, y, far, pos) && y.receiver.Running? && y.pipe != []
    requires After(copy, far, y.pipe[0]).Some? && Received(y.receiver.s, y.pipe[0]).Over?
    requires Outcome(copy, far, y.pipe[0], y.receiver.s, Received(y.receiver.s, y.pipe[0]))
    requires After(copy, far, y.pipe[0]).value.ending != More ==> pos == After(copy, far, y.pipe[0]).value
    ensures Sound(copy, Heard(y), far, pos)
  {
    hide Reached, Sources, Leads, SenderAt, RepliesAre, Received, Answered, Headed, Inv, Mid, LeftAt, HeadAfter, AllSent, IsSame, HasFile;
    var r := Received(y.receiver.s, y.pipe[0]);
    FinishedAt(copy, far, y.pipe[0]);
  }

  /** The sender is done only once all was sent and answered. */
  lemma FinishedAt(copy: Copy, far: Pos, item: Item)
    requires After(copy, far, item).Some?
    ensures var next := After(copy, far, item).value;
            && (next.ending == Finished ==>
                  far.at.None? && AllSent(copy, Reached(copy, far.k)) && far.m == |FilesAt(copy, far)|)
            && (next.ending == GaveUp ==> next.at == far.at)
  {
  }

  /** How far the receiver is after a step from `far`: on past an item it takes and goes on from. */
  ghost function FarAfter(copy: Copy, y: Copying, act: Act, far: Pos): Pos {
    if && act.Receive? && y.receiver.Running? && y.pipe != [] && Received(y.receiver.s, y.pipe[0]).On?
       && After(copy, far, y.pipe[0]).Some?
    then After(copy, far, y.pipe[0]).value else far
  }

  /** How far the receiver is in a run: how many headers and files it took. */
  ghost function FarOf(copy: Copy, acts: seq<Act>): Pos
    requires Play(copy, acts).Some?
    decreases |acts|
  {
    if acts == [] then START
    else
      var before := acts[..|acts| - 1];
      FarAfter(copy, Play(copy, before).value, acts[|acts| - 1], FarOf(copy, before))
  }

  lemma ReceiveStep(copy: Copy, y: Copying, far: Pos, pos: Pos) returns (far': Pos)
    requires Starts(copy) && Sound(copy, y, far, pos) && y.receiver.Running? && y.pipe != []
    ensures Sound(copy, Heard(y), far', pos) && far' == FarAfter(copy, y, Receive, far)
  {
    hide Reached, Sources, IsAt, StoppedAt, SenderAt, RepliesAre, After, Received, Answered, Headed, Heard, Outcome, Leads;
    assert (y.pipe + y.buf)[0] == y.pipe[0] && (y.pipe + y.buf)[1..] == y.pipe[1..] + y.buf;
    LeadsTo(copy, far, y.pipe + y.buf, pos);
    ItemComes(copy, far, y.pipe[0], y.receiver.s);
    if Received(y.receiver.s, y.pipe[0]).On? {
      far' := After(copy, far, y.pipe[0]).value;
      HeardOn(copy, y, far, pos);
    } else {
      far' := far;
      HeardOver(copy, y, far, pos);
    }
  }

  lemma CutStep(copy: Copy, y: Copying, far: Pos, pos: Pos)
    requires Starts(copy) && Sound(copy, y, far, pos) && y.receiver.Running?
    ensures Sound(copy, y.(receiver := Stopped(y.receiver.s.files, None, Some(Truncated))), far, pos)
  {
    hide Reached, Leads, SenderAt, RepliesAre, After;
    IsLeft(copy, far, y.receiver.s);
  }

  // ---- a step, and a run -------------------------------------------------------------------------------

  lemma StepSound(copy: Copy, y: Copying, act: Act, far: Pos, pos: Pos) returns (far': Pos, pos': Pos)
    requires Starts(copy) && Sound(copy, y, far, pos) && Do(copy, y, act).Some?
    ensures Sound(copy, Do(copy, y, act).value, far', pos') && far' == FarAfter(copy, y, act, far)
  {
    hide Reached, Sources, Sound, SenderAt, After, Received, Answered, Headed, Heard, Quits, AnsweredTo, Content, Goes, AllSent;
    far', pos' := far, pos;
    match act
    case SendHeader =>
      SendHeaderStep(copy, y, far, pos);
      pos' := pos.(k := pos.k + 1);
    case TakeAnswer =>
      TakeAnswerStep(copy, y, far, pos);
      pos' := AnsweredTo(copy, pos);
    case SendChunk(len) =>
      SendChunkStep(copy, y, far, pos, len);
      pos' := pos.(at := Some(pos.at.value + len));
    case SendSent =>
      SendSentStep(copy, y, far, pos);
      pos' := pos.(m := pos.m + 1, at := None);
    case LookNoMore => LookNoMoreStep(copy, y, far, pos);
    case EndWalk => pos' := EndWalkStep(copy, y, far, pos);
    case GiveUp =>
      GiveUpStep(copy, y, far, pos);
      pos' := pos.(ending := GaveUp);
    case Flush(len) => FlushStep(copy, y, far, pos, len);
    case Receive => far' := ReceiveStep(copy, y, far, pos);
    case Cut => CutStep(copy, y, far, pos);
  }

  /** In every run, the receiver is where the sender's items so far lead. */
  lemma {:induction false} RunSound(copy: Copy, acts: seq<Act>) returns (far: Pos, pos: Pos)
    requires Starts(copy) && Play(copy, acts).Some?
    ensures Sound(copy, Play(copy, acts).value, far, pos) && far == FarOf(copy, acts)
    decreases |acts|
  {
    hide Sound, Do, FarAfter;
    if acts == [] {
      far, pos := START, START;
      BeginsSound(copy);
    } else {
      var before := acts[..|acts| - 1];
      far, pos := RunSound(copy, before);
      far, pos := StepSound(copy, Play(copy, before).value, acts[|acts| - 1], far, pos);
    }
  }
}
