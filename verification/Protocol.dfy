/** The two ends of a copy and the streams between them: in every run, whatever order headers,
    answers and bytes come in, the receiver is where the sender's items so far lead. */
module Protocol {
  import opened Bytes
  import opened Files
  import opened Walk
  import opened Course
  import opened Receive
  import opened Landing
  import opened Heads
  import opened HeadSteps
  import opened Headers
  import opened EndSteps
  import opened FileSteps
  import opened DataSteps

  const REPLY_DEPTH := WINDOW + 8

  // ---- how far a copy is -----------------------------------------------------------------------------

  datatype Ending = More | Finished | GaveUp

  /** After `k` steps of the walk and the bytes of `m` files, those of the next before `at` if it is
      under way. */
  datatype Pos = Pos(k: nat, m: nat, at: Option<nat>, ending: Ending)

  const START := Pos(0, 0, None, More)

  ghost function FilesAt(copy: Copy, pos: Pos): seq<Head> {
    Reached(copy, pos.k).files
  }

  /** The file whose bytes come next. */
  ghost predicate HasFile(copy: Copy, pos: Pos) {
    && pos.m < |FilesAt(copy, pos)| && FilesAt(copy, pos)[pos.m].FileHead? && FilesAt(copy, pos)[pos.m].path != []
  }

  ghost function FileNext(copy: Copy, pos: Pos): seq<byte>
    requires HasFile(copy, pos)
  {
    FilesAt(copy, pos)[pos.m].content
  }

  ghost function AnswerNext(copy: Copy, pos: Pos): Answer
    requires HasFile(copy, pos)
  {
    AnswerOf(copy, FilesAt(copy, pos)[pos.m], pos.m)
  }

  /** Where `item` leads from `pos`: nowhere if a sender does not send it there. */
  ghost function After(copy: Copy, pos: Pos, item: Item): Option<Pos> {
    if pos.ending != More then None
    else if item.FailedItem? then Some(pos.(ending := GaveUp))
    else if pos.at.Some? then InFileAfter(copy, pos, item)
    else
      match item
      case DoneItem =>
        if AllSent(copy, Reached(copy, pos.k)) && pos.m == |FilesAt(copy, pos)| then Some(pos.(ending := Finished)) else None
      case SameItem(id) =>
        if HasFile(copy, pos) && id == pos.m && IsSame(FileNext(copy, pos), AnswerNext(copy, pos))
        then Some(pos.(m := pos.m + 1)) else None
      case DiffersItem(id, from) =>
        if && HasFile(copy, pos) && id == pos.m && copy.opts.dryRun && !IsSame(FileNext(copy, pos), AnswerNext(copy, pos))
           && from == SendFrom(FileNext(copy, pos), AnswerNext(copy, pos))
        then Some(pos.(m := pos.m + 1)) else None
      case DataItem(id, from) =>
        if && HasFile(copy, pos) && id == pos.m && !copy.opts.dryRun && !IsSame(FileNext(copy, pos), AnswerNext(copy, pos))
           && from == SendFrom(FileNext(copy, pos), AnswerNext(copy, pos))
        then Some(pos.(at := Some(from))) else None
      case _ => HeadAfter(copy, pos, item)
  }

  ghost function InFileAfter(copy: Copy, pos: Pos, item: Item): Option<Pos>
    requires pos.at.Some?
  {
    var at := pos.at.value;
    if !HasFile(copy, pos) then None
    else if && item.ChunkItem? && 0 < |item.bytes| <= CHUNK && at + |item.bytes| <= |FileNext(copy, pos)|
            && item.bytes == FileNext(copy, pos)[at..at + |item.bytes|]
    then Some(pos.(at := Some(at + |item.bytes|)))
    else if item.SentItem? && at == |FileNext(copy, pos)| then Some(pos.(m := pos.m + 1, at := None))
    else None
  }

  ghost function HeadAfter(copy: Copy, pos: Pos, item: Item): Option<Pos> {
    var w := Reached(copy, pos.k);
    if && Goes(copy, w) && item == ItemFor(NextHead(copy, w), |w.files|)
       && (NextHead(copy, w).FileHead? ==> |w.files| - pos.m < WINDOW)
    then Some(pos.(k := pos.k + 1)) else None
  }

  /** Where `items` lead from `pos`. */
  ghost function Leads(copy: Copy, pos: Pos, items: seq<Item>): Option<Pos>
    decreases |items|
  {
    if items == [] then Some(pos)
    else
      var next := After(copy, pos, items[0]);
      if next.None? then None else Leads(copy, next.value, items[1..])
  }

  lemma {:induction false} LeadsOn(copy: Copy, pos: Pos, items: seq<Item>, item: Item)
    requires Leads(copy, pos, items).Some?
    ensures Leads(copy, pos, items + [item]) == After(copy, Leads(copy, pos, items).value, item)
    decreases |items|
  {
    var more := items + [item];
    if items == [] {
      assert more[1..] == [];
    } else {
      assert more[0] == items[0] && more[1..] == items[1..] + [item];
      LeadsOn(copy, After(copy, pos, items[0]).value, items[1..], item);
    }
  }

  lemma AfterGrows(copy: Copy, pos: Pos, item: Item)
    requires After(copy, pos, item).Some?
    ensures var p := After(copy, pos, item).value;
            && pos.k <= p.k && pos.m <= p.m && pos.ending == More
            && (Steps(copy, pos.k) ==> Steps(copy, p.k))
  {
    hide Goes, Reached, HasFile, FileNext, AnswerNext, IsSame, SendFrom, NextHead, ItemFor, AllSent;
    var p := After(copy, pos, item).value;
    if p.k == pos.k + 1 {
      assert Steps(copy, p.k) <==> Steps(copy, pos.k) && Goes(copy, Reached(copy, pos.k));
    }
  }

  lemma {:induction false} LeadsGrows(copy: Copy, pos: Pos, items: seq<Item>)
    requires Leads(copy, pos, items).Some?
    ensures pos.k <= Leads(copy, pos, items).value.k && pos.m <= Leads(copy, pos, items).value.m
    decreases |items|
  {
    if items != [] {
      AfterGrows(copy, pos, items[0]);
      LeadsGrows(copy, After(copy, pos, items[0]).value, items[1..]);
    }
  }

  /** The files whose headers went stay the same as more go. */
  lemma {:induction false} FilesGrow(copy: Copy, j: nat, k: nat)
    requires Sources(copy) && j <= k
    ensures |Reached(copy, j).files| <= |Reached(copy, k).files|
    ensures forall i :: 0 <= i < |Reached(copy, j).files| ==> Reached(copy, k).files[i] == Reached(copy, j).files[i]
    decreases k
  {
    hide Goes, Good, Logged, NextHead, Sources;
    if j < k {
      FilesGrow(copy, j, k - 1);
      ReachedGood(copy, k - 1);
      if Goes(copy, Reached(copy, k - 1)) { NextFiles(copy, Reached(copy, k - 1)); }
    }
  }

  // ---- the receiver is where the items lead --------------------------------------------------------

  /** The receiver's state is the one for `pos`. */
  ghost predicate Stands(copy: Copy, pos: Pos, s: State) {
    && Steps(copy, pos.k) && pos.ending == More
    && match pos.at
       case None => Inv(copy, pos.k, pos.m, s)
       case Some(at) => Mid(copy, pos.k, pos.m, s) && s.landing.value.at == at
  }

  /** What is there when the receiver stops short: nothing that is not as expected. */
  ghost predicate LeftAt(copy: Copy, pos: Pos, files: Files) {
    && Whole(files)
    && if copy.opts.dryRun then files == copy.there else AllFiles(copy, Reached(copy, pos.k), pos.m, files)
  }

  lemma StandsLeft(copy: Copy, pos: Pos, s: State)
    requires Starts(copy) && Stands(copy, pos, s)
    ensures LeftAt(copy, pos, s.files)
  {
  }

  /** The header that `item` is, if it is a file's, is answered as it should be. */
  ghost predicate AnswersFor(copy: Copy, pos: Pos, item: Item, answer: Option<Answer>) {
    var w := Reached(copy, pos.k);
    if item.FileItem? then
      && pos.at.None? && Goes(copy, w) && NextHead(copy, w).FileHead? && NextHead(copy, w).path != []
      && answer == Some(AnswerOf(copy, NextHead(copy, w), |w.files|))
    else answer.None?
  }

  /** What an item that may come comes to: on to where it leads; the end, at the end; or a stop with
      nothing lost, malformed only if the sender gave up in the middle of a file. */
  ghost predicate StandsOutcome(copy: Copy, pos: Pos, item: Item, s: State, r: Step)
    requires After(copy, pos, item).Some?
  {
    var next := After(copy, pos, item).value;
    match r
    case On(t, answer) => next.ending == More && Stands(copy, next, t) && AnswersFor(copy, pos, item, answer)
    case Over(files, summary, fail) =>
      && (summary.Some? <==> next.ending == Finished)
      && (summary.Some? ==> fail.None? && files == s.files && summary == Some(s.summary) && pos.at.None?)
      && (summary.None? ==> fail.Some? && LeftAt(copy, pos, files))
      && (fail == Some(Malformed) <==> next.ending == GaveUp && pos.at.Some?)
      && (next.ending == GaveUp && pos.at.None? ==> fail == Some(Theirs))
  }

  /** What a header comes to. */
  ghost predicate HeadOutcome(copy: Copy, pos: Pos, item: Item, r: Step)
    requires HeadAfter(copy, pos, item).Some?
  {
    var next := HeadAfter(copy, pos, item).value;
    match r
    case On(t, answer) => Steps(copy, next.k) && Inv(copy, next.k, next.m, t) && AnswersFor(copy, pos, item, answer)
    case Over(files, summary, fail) =>
      summary.None? && fail.Some? && fail.value != Malformed && LeftAt(copy, pos, files)
  }

  lemma InvWithin(copy: Copy, k: nat, m: nat, s: State)
    requires Inv(copy, k, m, s)
    ensures m <= |Reached(copy, k).files| && s.landing.None?
  {
  }

  lemma EndHeadComes(copy: Copy, pos: Pos, item: Item, s: State)
    requires Starts(copy) && Steps(copy, pos.k) && Inv(copy, pos.k, pos.m, s) && pos.at.None?
    requires HeadAfter(copy, pos, item).Some? && item.EndItem?
    ensures HeadOutcome(copy, pos, item, Received(s, item))
  {
    hide Received, Inv, Good, Logged, Whole, Sources, Next;
    ReachedGood(copy, pos.k);
    InvWithin(copy, pos.k, pos.m, s);
    assert SendsEnd(copy, Reached(copy, pos.k), pos.m);
    EndStep(copy, pos.k, pos.m, s);
  }

  lemma EntryHeadComes(copy: Copy, pos: Pos, item: Item, s: State)
    requires Starts(copy) && Steps(copy, pos.k) && Inv(copy, pos.k, pos.m, s) && pos.at.None?
    requires HeadAfter(copy, pos, item).Some? && !item.EndItem? && LeftAt(copy, pos, s.files)
    ensures HeadOutcome(copy, pos, item, Received(s, item))
  {
    hide Received, Inv, Good, Logged, Whole, Sources, Next;
    ReachedGood(copy, pos.k);
    InvWithin(copy, pos.k, pos.m, s);
    assert SendsHead(copy, Reached(copy, pos.k), pos.m);
    HeadStep(copy, pos.k, pos.m, s);
    assert Steps(copy, pos.k + 1);
  }

  lemma HeadComes(copy: Copy, pos: Pos, item: Item, s: State)
    requires Starts(copy) && Stands(copy, pos, s) && pos.at.None? && !item.FailedItem? && HeadAfter(copy, pos, item).Some?
    ensures HeadOutcome(copy, pos, item, Received(s, item))
  {
    StandsLeft(copy, pos, s);
    if item.EndItem? { EndHeadComes(copy, pos, item, s); } else { EntryHeadComes(copy, pos, item, s); }
  }

  lemma HeadItemComes(copy: Copy, pos: Pos, item: Item, s: State)
    requires Starts(copy) && Stands(copy, pos, s) && pos.at.None? && After(copy, pos, item).Some?
    requires item.DirItem? || item.ContentsItem? || item.FileItem? || item.LinkItem? || item.EndItem? || item.SkippedItem?
    ensures StandsOutcome(copy, pos, item, s, Received(s, item))
  {
    hide Received, Inv, Mid, Good, Logged, Whole, Sources, Next, Steps, LeftAt, AnswersFor;
    HeadComes(copy, pos, item, s);
  }

  lemma BetweenComes(copy: Copy, pos: Pos, item: Item, s: State)
    requires Starts(copy) && Stands(copy, pos, s) && After(copy, pos, item).Some? && pos.at.None?
    ensures StandsOutcome(copy, pos, item, s, Received(s, item))
  {
    hide Inv, Mid, Good, Logged, Whole, Sources, Next, Header, Enter, Symlink, Leave, Same, Data, Differs, Steps, AllFiles;
    StandsLeft(copy, pos, s);
    match item
    case FailedItem => assert s.landing.None? by { InvWithin(copy, pos.k, pos.m, s); }
    case DoneItem => EndComes(copy, pos, s);
    case SameItem(id) => SameStep(copy, pos.k, pos.m, s);
    case DiffersItem(id, from) => DiffersStep(copy, pos.k, pos.m, s, from);
    case DataItem(id, from) => DataStep(copy, pos.k, pos.m, s);
    case _ => if !item.ChunkItem? && !item.SentItem? { HeadItemComes(copy, pos, item, s); }
  }

  lemma EndComes(copy: Copy, pos: Pos, s: State)
    requires Starts(copy) && Stands(copy, pos, s) && pos.at.None?
    requires AllSent(copy, Reached(copy, pos.k)) && pos.m == |FilesAt(copy, pos)|
    ensures Received(s, DoneItem) == Over(s.files, Some(s.summary), None)
  {
    hide Good, Logged, Sources, Whole, EntriesOk, ClosingOk, Reached, Steps, SetUp, PartOk;
    assert s.open == [];
    assert s.pending == map[];
  }

  lemma ChunkComes(copy: Copy, pos: Pos, bytes: seq<byte>, s: State)
    requires Starts(copy) && Stands(copy, pos, s) && After(copy, pos, ChunkItem(bytes)).Some? && pos.at.Some?
    ensures StandsOutcome(copy, pos, ChunkItem(bytes), s, Received(s, ChunkItem(bytes)))
  {
    hide Received, Inv, Whole, Sources, Good, Logged, AnswerNext, IsSame, SendFrom, NextHead, ItemFor, Goes, AllSent, AllFiles, Steps, MidPart, AllParts, PendingOk, ClosingOk, OpensOk, TimeOk, SetUp, AllSeen;
    ChunkStep(copy, pos.k, pos.m, s, |bytes|);
  }

  lemma SentComes(copy: Copy, pos: Pos, s: State)
    requires Starts(copy) && Stands(copy, pos, s) && After(copy, pos, SentItem).Some? && pos.at.Some?
    ensures StandsOutcome(copy, pos, SentItem, s, Received(s, SentItem))
  {
    hide Received, Inv, Sources, Good, Logged, AnswerNext, IsSame, SendFrom, NextHead, ItemFor, Goes, AllSent, AllParts, AllSeen, ClosingOk, OpensOk, TimeOk, SetUp, Whole, AllFiles, PendingOk, MidPart;
    SentStep(copy, pos.k, pos.m, s);
  }

  lemma GiveUpComes(copy: Copy, pos: Pos, s: State)
    requires Starts(copy) && Stands(copy, pos, s) && pos.at.Some?
    ensures StandsOutcome(copy, pos, FailedItem, s, Received(s, FailedItem))
  {
    hide Inv, Good, Logged, Sources, LeftAt, Steps, AllFiles, AllParts, AllSeen, TimeOk, SetUp, OpensOk, PendingOk, ClosingOk, Whole, MidPart;
    StandsLeft(copy, pos, s);
  }

  /** The receiver goes where the items lead. */
  lemma ItemStands(copy: Copy, pos: Pos, item: Item, s: State)
    requires Starts(copy) && Stands(copy, pos, s) && After(copy, pos, item).Some?
    ensures StandsOutcome(copy, pos, item, s, Received(s, item))
  {
    hide Received, Stands, StandsOutcome, HasFile, AllSent, HeadAfter;
    if pos.at.None? {
      BetweenComes(copy, pos, item, s);
    } else {
      match item
      case FailedItem => GiveUpComes(copy, pos, s);
      case ChunkItem(bytes) => ChunkComes(copy, pos, bytes, s);
      case SentItem => SentComes(copy, pos, s);
    }
  }
}
