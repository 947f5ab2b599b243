/** The shown epoch is a real screen: what a client shows is always the session's picture after some of what it told,
    and it never goes back. */
module Pictures {
  import opened Bytes
  import opened Stream
  import opened Coalesce
  import opened Epochs

  // ---- output told, and pictures of it -----------------------------------------------------------------------------------------------

  lemma {:induction false} ShownJoin(a: seq<Piece>, b: seq<Piece>)
    ensures Shown(a + b) == Shown(a) + Shown(b)
    decreases |b|
  {
    hide Shown, EventsOf;
    if b == [] {
      ShownNone();
      assert a + b == a;
    } else {
      var init, last := b[..|b| - 1], b[|b| - 1];
      ShownJoin(a, init);
      ShownMore(a + init, last);
      ShownMore(init, last);
      assert a + b == (a + init) + [last] && b == init + [last];
      assert Shown(a) + Shown(init) + EventsOf(last) == Shown(a) + (Shown(init) + EventsOf(last));
    }
  }

  lemma ShownNone()
    ensures Shown([]) == []
  {
  }

  lemma ShownPrefix(pieces: seq<Piece>, n: nat, m: nat)
    requires n <= m <= |pieces|
    ensures Shown(pieces[..n]) <= Shown(pieces[..m])
  {
    assert pieces[..m] == pieces[..n] + pieces[n..m];
    ShownJoin(pieces[..n], pieces[n..m]);
  }

  /** All that was told. */
  function Told(s: System): Picture {
    Shown(s.session.told)
  }

  function LastOf(epoch: Epoch): Picture {
    epoch.picture + Shown(epoch.outputs)
  }

  /** The epoch when `k` events were sent. */
  function Early(epoch: Epoch, k: nat): Epoch
    requires k <= |epoch.outputs|
  {
    epoch.(outputs := epoch.outputs[..k])
  }

  /** The picture an epoch's first `n` messages make: none until its redraw is whole. */
  function PictureAt(epoch: Epoch, n: nat): Option<Picture>
    requires n <= Length(epoch)
  {
    if n <= epoch.parts then None else Some(LastOf(Early(epoch, n - epoch.parts - 1)))
  }

  lemma LastMore(epoch: Epoch, piece: Piece)
    ensures LastOf(epoch.(outputs := epoch.outputs + [piece])) == LastOf(epoch) + EventsOf(piece)
  {
    ShownMore(epoch.outputs, piece);
    assert epoch.picture + (Shown(epoch.outputs) + EventsOf(piece)) == epoch.picture + Shown(epoch.outputs) + EventsOf(piece);
  }

  lemma PictureNext(epoch: Epoch, n: nat)
    requires n < Length(epoch)
    ensures PictureAt(epoch, n + 1) == Applied(PictureAt(epoch, n), MessageAt(epoch, n))
  {
    hide LastOf, EventsOf;
    if n > epoch.parts {
      var k := n - epoch.parts - 1;
      LastMore(Early(epoch, k), epoch.outputs[k]);
      assert epoch.outputs[..k + 1] == epoch.outputs[..k] + [epoch.outputs[k]];
    } else if n == epoch.parts {
      LastNone(epoch);
    }
  }

  lemma LastNone(epoch: Epoch)
    ensures LastOf(Early(epoch, 0)) == epoch.picture
  {
  }

  lemma LastGrows(epoch: Epoch, k: nat, l: nat)
    requires k <= l <= |epoch.outputs|
    ensures epoch.picture <= LastOf(Early(epoch, k)) <= LastOf(Early(epoch, l))
  {
    ShownPrefix(epoch.outputs, k, l);
    PrefixJoin(epoch.picture, Shown(epoch.outputs[..k]), Shown(epoch.outputs[..l]));
  }

  /** An epoch's pictures only grow, up to its last. */
  lemma PicturesGrow(epoch: Epoch, n: nat, m: nat)
    requires n <= m <= Length(epoch) && PictureAt(epoch, n).Some?
    ensures PictureAt(epoch, m).Some? && PictureAt(epoch, n).value <= PictureAt(epoch, m).value
    ensures PictureAt(epoch, m).value <= LastOf(epoch)
    ensures |epoch.picture| <= |PictureAt(epoch, n).value|
  {
    hide LastOf;
    LastGrows(epoch, n - epoch.parts - 1, m - epoch.parts - 1);
    LastGrows(epoch, m - epoch.parts - 1, |epoch.outputs|);
    assert Early(epoch, |epoch.outputs|) == epoch;
  }

  lemma PrefixJoin(a: Picture, b: Picture, c: Picture)
    requires b <= c
    ensures a + b <= a + c
  {
    assert c == b + c[|b|..];
    assert a + c == (a + b) + c[|b|..];
  }

  /** Of two beginnings of one picture, the shorter begins the longer. */
  lemma Beginnings(a: Picture, b: Picture, whole: Picture)
    requires a <= whole && b <= whole && |a| <= |b|
    ensures a <= b
  {
    assert a == whole[..|a|] && b == whole[..|b|];
  }

  // ---- what the queue holds of an epoch ------------------------------------------------------------------------------------------------

  /** How many messages of `epoch` are read and not heard. */
  function Waiting(queue: seq<(nat, Message)>, epoch: nat): nat {
    if queue == [] then 0 else (if queue[0].0 == epoch then 1 else 0) + Waiting(queue[1..], epoch)
  }

  /** The queue's messages of each epoch are those just before where its reader is, in order. */
  predicate InOrder(queue: seq<(nat, Message)>, read: map<nat, nat>, epochs: seq<Epoch>)
    decreases |queue|
  {
    queue == []
    || (var (epoch, message) := queue[0];
        && epoch in read && 1 <= epoch <= |epochs| && Waiting(queue, epoch) <= read[epoch] <= Length(epochs[epoch - 1])
        && message == MessageAt(epochs[epoch - 1], read[epoch] - Waiting(queue, epoch))
        && InOrder(queue[1..], read, epochs))
  }

  lemma {:induction false} WaitingMore(queue: seq<(nat, Message)>, more: (nat, Message), epoch: nat)
    ensures Waiting(queue + [more], epoch) == Waiting(queue, epoch) + (if more.0 == epoch then 1 else 0)
    decreases |queue|
  {
    if queue == [] {
      assert queue + [more] == [more];
    } else {
      assert (queue + [more])[1..] == queue[1..] + [more];
      WaitingMore(queue[1..], more, epoch);
    }
  }

  /** A message read joins the queue in order. */
  lemma {:induction false} ReadInOrder(queue: seq<(nat, Message)>, read: map<nat, nat>, epochs: seq<Epoch>, epoch: nat)
    requires InOrder(queue, read, epochs) && epoch in read && 1 <= epoch <= |epochs| && read[epoch] < Length(epochs[epoch - 1])
    ensures InOrder(queue + [(epoch, MessageAt(epochs[epoch - 1], read[epoch]))], read[epoch := read[epoch] + 1], epochs)
    decreases |queue|
  {
    var more := (epoch, MessageAt(epochs[epoch - 1], read[epoch]));
    var longer := queue + [more];
    var now := read[epoch := read[epoch] + 1];
    if queue == [] {
      assert longer == [more] && longer[1..] == [];
      assert Waiting(longer, epoch) == 1;
      assert InOrder(longer[1..], now, epochs);
    } else {
      ReadInOrder(queue[1..], read, epochs, epoch);
      assert longer[0] == queue[0] && longer[1..] == queue[1..] + [more];
      WaitingMore(queue, more, queue[0].0);
      assert InOrder(longer[1..], now, epochs);
    }
  }

  /** Epochs that only grow say the same of what was read. */
  lemma {:induction false} GrownInOrder(queue: seq<(nat, Message)>, read: map<nat, nat>, epochs: seq<Epoch>, grown: seq<Epoch>)
    requires InOrder(queue, read, epochs) && GrownFrom(epochs, grown)
    ensures InOrder(queue, read, grown)
    decreases |queue|
  {
    if queue != [] {
      assert GrownEpoch(epochs[queue[0].0 - 1], grown[queue[0].0 - 1]);
      GrownInOrder(queue[1..], read, epochs, grown);
    }
  }

  lemma {:induction false} TakenInOrder(queue: seq<(nat, Message)>, read: map<nat, nat>, epochs: seq<Epoch>, epoch: nat)
    requires InOrder(queue, read, epochs) && epoch !in read
    ensures InOrder(queue, read[epoch := 0], epochs) && Waiting(queue, epoch) == 0
    decreases |queue|
  {
    if queue != [] {
      TakenInOrder(queue[1..], read, epochs, epoch);
    }
  }

  // ---- epochs grow ---------------------------------------------------------------------------------------------------------------------

  predicate GrownEpoch(epoch: Epoch, grown: Epoch) {
    epoch.parts == grown.parts && epoch.picture == grown.picture && epoch.outputs <= grown.outputs
  }

  predicate GrownFrom(epochs: seq<Epoch>, grown: seq<Epoch>) {
    |epochs| <= |grown| && forall i :: 0 <= i < |epochs| ==> GrownEpoch(epochs[i], grown[i])
  }

  /** A picture an epoch made it still makes, grown. */
  lemma GrownPicture(epoch: Epoch, grown: Epoch, n: nat)
    requires GrownEpoch(epoch, grown) && n <= Length(epoch)
    ensures n <= Length(grown) && PictureAt(grown, n) == PictureAt(epoch, n)
  {
    hide LastOf;
    if n > epoch.parts {
      assert Early(grown, n - epoch.parts - 1) == Early(epoch, n - epoch.parts - 1);
    }
  }

  // ---- the invariant ---------------------------------------------------------------------------------------------------------------------

  /** All that was fed is told or held. */
  predicate SessionSound(s: Session) {
    s.fed == Shown(s.told) + Shown(s.held)
  }

  /** Every epoch's pictures are of what was told, and none begins before what an earlier one shows. */
  ghost predicate EpochsSound(epochs: seq<Epoch>, told: Picture) {
    && (forall i :: 0 <= i < |epochs| ==> LastOf(epochs[i]) <= told)
    && (forall i, j :: 0 <= i < j < |epochs| ==> |LastOf(epochs[i])| <= |epochs[j].picture|)
  }

  /** The newest epoch has all the events taken, unless a redraw is asked for; the start answered is of what was told,
      and no epoch shows more. */
  ghost predicate ServerSound(server: Server, told: seq<Piece>) {
    && server.epochs != [] && EpochsSound(server.epochs, Shown(told))
    && (match server.phase
        case Serving => server.asked || InStep(server, told)
        case Asking => true
        case Answered(start) => Fresh(server, told, start))
  }

  predicate InStep(server: Server, told: seq<Piece>)
    requires server.epochs != []
  {
    server.next <= |told| && LastOf(server.epochs[|server.epochs| - 1]) == Shown(told[..server.next])
  }

  ghost predicate Fresh(server: Server, told: seq<Piece>, start: Start) {
    && start.next <= |told| && start.picture == Shown(told[..start.next])
    && forall i :: 0 <= i < |server.epochs| ==> |LastOf(server.epochs[i])| <= |start.picture|
  }

  /** How many messages of the epoch it shows the client heard. */
  function HeardOf(client: Client): nat {
    if client.epoch in client.read && Waiting(client.queue, client.epoch) <= client.read[client.epoch]
    then client.read[client.epoch] - Waiting(client.queue, client.epoch) else 0
  }

  /** The client shows what the messages heard of its epoch make; of newer epochs it heard nothing yet. */
  ghost predicate ClientSound(client: Client, epochs: seq<Epoch>) {
    && InOrder(client.queue, client.read, epochs)
    && (forall epoch :: epoch in client.read ==> ReaderSound(client, epochs, epoch))
    && (if client.epoch == 0 then client.picture == None
        else client.epoch in client.read && Shows(client, epochs))
  }

  predicate ReaderSound(client: Client, epochs: seq<Epoch>, epoch: nat)
    requires epoch in client.read
  {
    && 1 <= epoch <= |epochs| && epoch <= client.newest
    && Waiting(client.queue, epoch) <= client.read[epoch] <= Length(epochs[epoch - 1])
    && (epoch > client.epoch ==> Waiting(client.queue, epoch) == client.read[epoch])
  }

  predicate Shows(client: Client, epochs: seq<Epoch>) {
    && 1 <= client.epoch <= |epochs| && HeardOf(client) <= Length(epochs[client.epoch - 1])
    && client.picture == PictureAt(epochs[client.epoch - 1], HeardOf(client))
  }

  ghost predicate Sound(s: System) {
    && SessionSound(s.session) && ServerSound(s.server, s.session.told) && ClientSound(s.client, s.server.epochs)
  }

  // ---- the session's steps -----------------------------------------------------------------------------------------------------------------

  lemma ReleasedSound(s: Session)
    requires SessionSound(s)
    ensures SessionSound(Released(s)) && Released(s).fed == Shown(Released(s).told) && s.told <= Released(s).told
  {
    CoalesceShowsTheSame(s.held);
    ShownJoin(s.told, Coalesced(s.held));
    var none: seq<Piece> := [];
    assert Shown(none) == [];
  }

  lemma FedSound(s: Session, pieces: seq<Piece>)
    requires SessionSound(s)
    ensures SessionSound(Fed(s, pieces))
  {
    hide Shown;
    ShownJoin(s.held, pieces);
    assert Shown(s.told) + Shown(s.held) + Shown(pieces) == Shown(s.told) + (Shown(s.held) + Shown(pieces));
  }

  lemma ToldGrows(told: seq<Piece>, more: seq<Piece>)
    requires told <= more
    ensures Shown(told) <= Shown(more)
  {
    ShownPrefix(more, |told|, |more|);
    assert more[..|told|] == told && more[..|more|] == more;
  }

  /** More told breaks nothing the server relies on. */
  lemma ToldMore(server: Server, told: seq<Piece>, more: seq<Piece>)
    requires ServerSound(server, told) && told <= more
    ensures ServerSound(server, more)
  {
    hide Shown, LastOf;
    ToldGrows(told, more);
    assert forall n: nat :: n <= |told| ==> more[..n] == told[..n];
  }

  // ---- the server's steps ------------------------------------------------------------------------------------------------------------------

  lemma TakesSound(s: System)
    requires Sound(s) && May(s, Takes)
    ensures ServerSound(Done(s, Takes).server, s.session.told) && GrownFrom(s.server.epochs, Done(s, Takes).server.epochs)
  {
    hide LastOf, Shown, Coalesced, InStep, SessionSound, ClientSound;
    var server, told := s.server, s.session.told;
    assert ServerSound(server, told) && InStep(server, told);
    ReceivedLast(server, told);
    var t := Received(server, told[server.next]);
    assert forall i :: 0 <= i < |server.epochs| - 1 ==> t.epochs[i] == server.epochs[i];
  }

  lemma ReceivedLast(server: Server, told: seq<Piece>)
    requires server.epochs != [] && server.next < |told| && InStep(server, told)
    ensures InStep(Received(server, told[server.next]), told)
    ensures LastOf(Received(server, told[server.next]).epochs[|server.epochs| - 1]) <= Shown(told)
  {
    hide Shown, LastOf, EventsOf;
    LastMore(server.epochs[|server.epochs| - 1], told[server.next]);
    ToldNext(told, server.next);
    ToldUpTo(told, server.next + 1);
  }

  lemma ToldUpTo(told: seq<Piece>, n: nat)
    requires n <= |told|
    ensures Shown(told[..n]) <= Shown(told)
  {
    hide Shown;
    ShownPrefix(told, n, |told|);
    assert told[..|told|] == told;
  }

  lemma ToldNext(told: seq<Piece>, next: nat)
    requires next < |told|
    ensures Shown(told[..next + 1]) == Shown(told[..next]) + EventsOf(told[next])
  {
    hide Shown, EventsOf;
    assert told[..next + 1] == told[..next] + [told[next]];
    ShownMore(told[..next], told[next]);
  }

  lemma BegunLast(parts: nat, picture: Picture)
    ensures LastOf(Epoch(parts, picture, [])) == picture
  {
  }

  lemma OpensSound(server: Server, told: seq<Piece>, parts: nat)
    requires ServerSound(server, told) && server.phase.Answered?
    ensures var t := Opened(server, server.phase.start, parts);
            ServerSound(t, told) && GrownFrom(server.epochs, t.epochs)
  {
    var start := server.phase.start;
    BegunLast(parts, start.picture);
    ToldGrows(told[..start.next], told);
    hide Shown, LastOf;
    var t := Opened(server, start, parts);
    assert t.epochs[|server.epochs|] == Epoch(parts, start.picture, []);
  }

  lemma AnswersSound(s: System)
    requires Sound(s) && May(s, Answers)
    ensures var t := Done(s, Answers); SessionSound(t.session) && ServerSound(t.server, t.session.told)
  {
    ReleasedSound(s.session);
    var t := Done(s, Answers);
    ToldMore(s.server, s.session.told, t.session.told);
    assert t.session.told[..|t.session.told|] == t.session.told;
  }

  // ---- the client's steps ------------------------------------------------------------------------------------------------------------------

  /** Epochs that grow change nothing for the client. */
  lemma GrownClient(client: Client, epochs: seq<Epoch>, grown: seq<Epoch>)
    requires ClientSound(client, epochs) && GrownFrom(epochs, grown)
    ensures ClientSound(client, grown)
  {
    GrownInOrder(client.queue, client.read, epochs, grown);
    forall epoch | epoch in client.read
      ensures ReaderSound(client, grown, epoch)
    {
      assert ReaderSound(client, epochs, epoch);
      assert GrownEpoch(epochs[epoch - 1], grown[epoch - 1]);
    }
    if client.epoch > 0 {
      assert GrownEpoch(epochs[client.epoch - 1], grown[client.epoch - 1]);
      GrownPicture(epochs[client.epoch - 1], grown[client.epoch - 1], HeardOf(client));
    }
  }

  lemma AcceptedSound(client: Client, epochs: seq<Epoch>, epoch: nat)
    requires ClientSound(client, epochs) && 1 <= epoch <= |epochs|
    ensures ClientSound(Accepted(client, epoch), epochs)
  {
    if client.newest < epoch {
      assert forall e :: e in client.read ==> ReaderSound(client, epochs, e);
      TakenInOrder(client.queue, client.read, epochs, epoch);
      var t := Accepted(client, epoch);
      forall e | e in t.read
        ensures ReaderSound(t, epochs, e)
      {
        assert e != epoch ==> ReaderSound(client, epochs, e);
      }
    }
  }

  lemma ReadSound(client: Client, epochs: seq<Epoch>, epoch: nat)
    requires ClientSound(client, epochs) && epoch in client.read && 1 <= epoch <= |epochs| && client.read[epoch] < Length(epochs[epoch - 1])
    ensures ClientSound(client.(read := client.read[epoch := client.read[epoch] + 1],
                                queue := client.queue + [(epoch, MessageAt(epochs[epoch - 1], client.read[epoch]))]), epochs)
  {
    var more := (epoch, MessageAt(epochs[epoch - 1], client.read[epoch]));
    var t := client.(read := client.read[epoch := client.read[epoch] + 1], queue := client.queue + [more]);
    ReadInOrder(client.queue, client.read, epochs, epoch);
    forall e | e in t.read
      ensures ReaderSound(t, epochs, e)
    {
      assert ReaderSound(client, epochs, e);
      WaitingMore(client.queue, more, e);
    }
    if client.epoch > 0 {
      assert ReaderSound(client, epochs, client.epoch);
      WaitingMore(client.queue, more, client.epoch);
    }
  }

  lemma NothingYet(epoch: Epoch)
    ensures PictureAt(epoch, 0) == None
  {
  }

  lemma HeardSound(client: Client, epochs: seq<Epoch>)
    requires ClientSound(client, epochs) && client.queue != []
    ensures ClientSound(Heard(client.(queue := client.queue[1..]), client.queue[0].0, client.queue[0].1), epochs)
  {
    hide PictureAt, Applied, MessageAt;
    var (epoch, message) := client.queue[0];
    var t := Heard(client.(queue := client.queue[1..]), epoch, message);
    assert ReaderSound(client, epochs, epoch);
    NothingYet(epochs[epoch - 1]);
    forall e | e in t.read
      ensures ReaderSound(t, epochs, e)
    {
      assert ReaderSound(client, epochs, e);
    }
    if epoch >= client.epoch {
      var before := client.read[epoch] - Waiting(client.queue, epoch);
      PictureNext(epochs[epoch - 1], before);
    }
  }

  // ---- every step, every run ---------------------------------------------------------------------------------------------------------------

  lemma StepSound(s: System, what: Doing)
    requires Sound(s) && May(s, what)
    ensures Sound(Done(s, what)) && GrownFrom(s.server.epochs, Done(s, what).server.epochs) && Told(s) <= Told(Done(s, what))
  {
    hide ServerSound, ClientSound, SessionSound, Released, Fed, Received, Opened, Heard, Accepted, MessageAt, Shown, Length;
    var t := Done(s, what);
    match what {
      case Writes(pieces) => FedSound(s.session, pieces); FedTold(s.session, pieces);
      case Tells =>
        ReleasedSound(s.session);
        ToldMore(s.server, s.session.told, t.session.told);
        ToldGrows(s.session.told, t.session.told);
      case WantsRedraw => AskedSound(s.server, s.session.told, s.server.next, true, Serving);
      case Takes => TakesSound(s); GrownClient(s.client, s.server.epochs, t.server.epochs);
      case Lags(next) => AskedSound(s.server, s.session.told, next, true, Serving);
      case Asks => AskedSound(s.server, s.session.told, s.server.next, false, Asking);
      case Answers =>
        AnswersSound(s);
        ReleasedSound(s.session);
        ToldGrows(s.session.told, t.session.told);
      case Opens(parts) =>
        OpensSound(s.server, s.session.told, parts);
        GrownClient(s.client, s.server.epochs, t.server.epochs);
      case ComesIn(epoch) => AcceptedSound(s.client, s.server.epochs, epoch);
      case Reads(epoch) => ReadSound(s.client, s.server.epochs, epoch);
      case Hears => HeardSound(s.client, s.server.epochs);
    }
  }

  lemma FedTold(s: Session, pieces: seq<Piece>)
    ensures Fed(s, pieces).told == s.told
  {
  }

  /** A server that waits for a redraw needs nothing of the events. */
  lemma AskedSound(server: Server, told: seq<Piece>, next: nat, asked: bool, phase: Phase)
    requires ServerSound(server, told) && (phase.Asking? || (phase.Serving? && asked))
    ensures ServerSound(server.(next := next, asked := asked, phase := phase), told)
  {
  }

  lemma {:induction false} RunSound(s: System, run: seq<Doing>)
    requires Sound(s) && Runs(s, run)
    ensures Sound(After(s, run))
    decreases |run|
  {
    if run != [] {
      StepSound(s, run[0]);
      RunSound(Done(s, run[0]), run[1..]);
    }
  }

  lemma AttachedSound(session: Session, parts: nat)
    requires SessionSound(session)
    ensures Sound(Attached(session, parts))
  {
    ReleasedSound(session);
    var s := Attached(session, parts);
    var told := s.session.told;
    var none: seq<Piece> := [];
    assert Shown(none) == [];
    assert LastOf(s.server.epochs[0]) == Shown(told) + Shown(none) == Shown(told);
    assert told[..|told|] == told;
  }

  /** What a client shows, in every run from an attach, is the session's picture after some of what it told: a prefix
      of all it told, nothing missed, nothing twice. */
  lemma ShownIsReal(session: Session, parts: nat, run: seq<Doing>)
    requires SessionSound(session) && Runs(Attached(session, parts), run)
    ensures var s := After(Attached(session, parts), run);
            s.client.picture.Some? ==> s.client.picture.value <= Told(s) && Told(s) <= s.session.fed
  {
    AttachedSound(session, parts);
    RunSound(Attached(session, parts), run);
    var s := After(Attached(session, parts), run);
    SoundIsReal(s);
  }

  lemma SoundIsReal(s: System)
    requires Sound(s)
    ensures s.client.picture.Some? ==> s.client.picture.value <= Told(s)
    ensures Told(s) <= s.session.fed
  {
    hide Shown, Coalesced, LastOf, PictureAt, InOrder;
    if s.client.picture.Some? {
      var epoch := s.server.epochs[s.client.epoch - 1];
      PicturesGrow(epoch, HeardOf(s.client), HeardOf(s.client));
    }
  }

  // ---- never back --------------------------------------------------------------------------------------------------------------------------

  /** The client is as far on, or further. */
  ghost predicate NoEarlier(s: System, t: System) {
    && GrownFrom(s.server.epochs, t.server.epochs)
    && (s.client.epoch < t.client.epoch || (s.client.epoch == t.client.epoch && HeardOf(s.client) <= HeardOf(t.client)))
  }

  lemma StepNoEarlier(s: System, what: Doing)
    requires Sound(s) && May(s, what)
    ensures NoEarlier(s, Done(s, what))
  {
    hide ServerSound, SessionSound, Released, Fed, Received, Opened, MessageAt, Length, GrownFrom, Shown, Told, HeardOf, Heard,
      ClientSound, Accepted;
    StepSound(s, what);
    if what.Reads? {
      ReadNoEarlier(s.client, s.server.epochs, what.epoch, MessageAt(s.server.epochs[what.epoch - 1], s.client.read[what.epoch]));
    } else if what.Hears? {
      HeardNoEarlier(s.client, s.server.epochs);
    } else if what.ComesIn? {
      AcceptedNoEarlier(s.client, s.server.epochs, what.epoch);
    }
  }

  lemma ReadNoEarlier(client: Client, epochs: seq<Epoch>, epoch: nat, message: Message)
    requires ClientSound(client, epochs) && epoch in client.read
    ensures HeardOf(client.(read := client.read[epoch := client.read[epoch] + 1], queue := client.queue + [(epoch, message)])) >= HeardOf(client)
  {
    hide InOrder, Shows, MessageAt;
    if client.epoch in client.read {
      assert ReaderSound(client, epochs, client.epoch);
      WaitingMore(client.queue, (epoch, message), client.epoch);
    }
  }

  lemma HeardNoEarlier(client: Client, epochs: seq<Epoch>)
    requires ClientSound(client, epochs) && client.queue != []
    ensures var t := Heard(client.(queue := client.queue[1..]), client.queue[0].0, client.queue[0].1);
            client.epoch < t.epoch || (client.epoch == t.epoch && HeardOf(client) <= HeardOf(t))
  {
    hide InOrder, Shows, Applied;
    if client.epoch in client.read {
      assert ReaderSound(client, epochs, client.epoch);
    }
  }

  lemma AcceptedNoEarlier(client: Client, epochs: seq<Epoch>, epoch: nat)
    requires ClientSound(client, epochs) && 1 <= epoch <= |epochs|
    ensures HeardOf(Accepted(client, epoch)) >= HeardOf(client) && Accepted(client, epoch).epoch == client.epoch
  {
    hide InOrder, Shows;
    assert forall e :: e in client.read ==> ReaderSound(client, epochs, e);
  }

  lemma NoEarlierOn(s: System, t: System, u: System)
    requires NoEarlier(s, t) && NoEarlier(t, u)
    ensures NoEarlier(s, u)
  {
    forall i | 0 <= i < |s.server.epochs|
      ensures GrownEpoch(s.server.epochs[i], u.server.epochs[i])
    {
      assert GrownEpoch(s.server.epochs[i], t.server.epochs[i]) && GrownEpoch(t.server.epochs[i], u.server.epochs[i]);
    }
  }

  lemma {:induction false} RunNoEarlier(s: System, run: seq<Doing>)
    requires Sound(s) && Runs(s, run)
    ensures NoEarlier(s, After(s, run)) && Sound(After(s, run))
    decreases |run|
  {
    if run == [] {
      assert forall i :: 0 <= i < |s.server.epochs| ==> GrownEpoch(s.server.epochs[i], s.server.epochs[i]);
    } else {
      StepSound(s, run[0]);
      StepNoEarlier(s, run[0]);
      RunNoEarlier(Done(s, run[0]), run[1..]);
      NoEarlierOn(s, Done(s, run[0]), After(s, run));
    }
  }

  /** What a client shows never goes back: later in a run it shows what it showed, or that and more. */
  lemma NeverGoesBack(session: Session, parts: nat, run: seq<Doing>, more: seq<Doing>)
    requires SessionSound(session) && Runs(Attached(session, parts), run) && Runs(After(Attached(session, parts), run), more)
    ensures var s := After(Attached(session, parts), run);
            var t := After(s, more);
            s.client.picture.Some? && t.client.picture.Some? ==> s.client.picture.value <= t.client.picture.value
  {
    AttachedSound(session, parts);
    RunSound(Attached(session, parts), run);
    var s := After(Attached(session, parts), run);
    RunNoEarlier(s, more);
    var t := After(s, more);
    if s.client.picture.Some? && t.client.picture.Some? {
      LaterShowsMore(s, t);
    }
  }

  lemma LaterShowsMore(s: System, t: System)
    requires Sound(s) && Sound(t) && NoEarlier(s, t) && s.client.picture.Some? && t.client.picture.Some?
    ensures s.client.picture.value <= t.client.picture.value
  {
    hide InOrder, PictureAt, LastOf, Shown, ReaderSound, SessionSound, HeardOf, Waiting, Length, GrownEpoch;
    var i, j := s.client.epoch - 1, t.client.epoch - 1;
    var was, now := s.server.epochs[i], t.server.epochs[i];
    assert GrownEpoch(was, now);
    GrownPicture(was, now, HeardOf(s.client));
    Later(now, HeardOf(s.client), t.server.epochs[j], HeardOf(t.client), Shown(t.session.told), i == j);
  }

  lemma Later(now: Epoch, heard: nat, newer: Epoch, later: nat, told: Picture, same: bool)
    requires heard <= Length(now) && later <= Length(newer) && PictureAt(now, heard).Some? && PictureAt(newer, later).Some?
    requires LastOf(now) <= told && LastOf(newer) <= told
    requires if same then now == newer && heard <= later else |LastOf(now)| <= |newer.picture|
    ensures PictureAt(now, heard).value <= PictureAt(newer, later).value
  {
    hide PictureAt, LastOf, Length;
    if same {
      PicturesGrow(now, heard, later);
    } else {
      PicturesGrow(now, heard, heard);
      PicturesGrow(newer, later, later);
      Beginnings(PictureAt(now, heard).value, PictureAt(newer, later).value, told);
    }
  }

  // ---- caught up ---------------------------------------------------------------------------------------------------------------------------

  /** Nothing is left to tell, take, read or hear. */
  predicate CaughtUp(s: System) {
    && s.session.held == [] && s.server.phase.Serving? && !s.server.asked && s.server.next == |s.session.told|
    && s.client.queue == [] && s.client.epoch == |s.server.epochs| > 0 && s.client.epoch in s.client.read
    && s.client.read[s.client.epoch] == Length(s.server.epochs[s.client.epoch - 1])
  }

  /** Caught up, the client shows exactly what the session's emulator was fed. */
  lemma CaughtUpShowsAll(session: Session, parts: nat, run: seq<Doing>)
    requires SessionSound(session) && Runs(Attached(session, parts), run) && CaughtUp(After(Attached(session, parts), run))
    ensures var s := After(Attached(session, parts), run); s.client.picture == Some(s.session.fed)
  {
    AttachedSound(session, parts);
    RunSound(Attached(session, parts), run);
    SoundShowsAll(After(Attached(session, parts), run));
  }

  lemma SoundShowsAll(s: System)
    requires Sound(s) && CaughtUp(s)
    ensures s.client.picture == Some(s.session.fed)
  {
    hide InOrder, EpochsSound, ReaderSound, Coalesced;
    var epoch := s.server.epochs[s.client.epoch - 1];
    var told := s.session.told;
    assert told[..|told|] == told && epoch.outputs[..|epoch.outputs|] == epoch.outputs;
    var none: seq<Piece> := [];
    assert Shown(none) == [];
    assert Shown(told) + Shown(none) == Shown(told);
  }

  // ---- catching up -----------------------------------------------------------------------------------------------------------------------

  /** The newest epoch taken has its reader. */
  predicate NewestRead(client: Client) {
    client.newest == 0 || client.newest in client.read
  }

  lemma StepNewest(s: System, what: Doing)
    requires May(s, what) && NewestRead(s.client)
    ensures NewestRead(Done(s, what).client)
  {
    hide Released, Fed, Received, Opened, MessageAt, Length, Applied;
  }

  lemma {:induction false} RunNewest(s: System, run: seq<Doing>)
    requires NewestRead(s.client) && Runs(s, run)
    ensures NewestRead(After(s, run).client)
    decreases |run|
  {
    hide NewestRead, Done, May;
    if run != [] {
      StepNewest(s, run[0]);
      RunNewest(Done(s, run[0]), run[1..]);
    }
  }

  /** What to do next to catch up. */
  function Onward(s: System): Doing {
    match s.server.phase
    case Asking => Answers
    case Answered(_) => Opens(0)
    case Serving =>
      var newest := |s.server.epochs|;
      if s.server.asked then Asks
      else if s.session.held != [] then Tells
      else if s.server.next < |s.session.told| then Takes
      else if s.client.queue != [] then Hears
      else if s.client.newest < newest then ComesIn(newest)
      else Reads(newest)
  }

  function Rank(server: Server): nat {
    (if server.asked then 3 else 0) + match server.phase case Serving => 0 case Asking => 2 case Answered(_) => 1
  }

  function ToTake(s: System): nat {
    if s.server.next < |s.session.told| then |s.session.told| - s.server.next else 0
  }

  function ToRead(s: System): nat {
    var newest := |s.server.epochs|;
    if newest == 0 then 0
    else
      var length := Length(s.server.epochs[newest - 1]);
      if newest in s.client.read && s.client.read[newest] <= length then length - s.client.read[newest] else length + 1
  }

  lemma OnwardMay(s: System)
    requires Sound(s) && NewestRead(s.client) && !CaughtUp(s)
    ensures May(s, Onward(s))
  {
    hide InOrder, EpochsSound, LastOf, Shown, SessionSound;
    var newest := |s.server.epochs|;
    if Onward(s) == Reads(newest) {
      assert newest in s.client.read ==> ReaderSound(s.client, s.server.epochs, newest);
      assert s.client.newest in s.client.read ==> ReaderSound(s.client, s.server.epochs, s.client.newest);
    }
  }

  lemma OnwardCounts(s: System)
    requires NewestRead(s.client) && May(s, Onward(s)) && s.server.epochs != []
    requires |s.server.epochs| in s.client.read ==> ReaderSound(s.client, s.server.epochs, |s.server.epochs|)
    ensures var t := Done(s, Onward(s));
            || Rank(t.server) < Rank(s.server)
            || (Rank(t.server) == Rank(s.server)
                && (|| |t.session.held| < |s.session.held|
                    || (t.session.held == s.session.held
                        && (ToTake(t) < ToTake(s)
                            || (ToTake(t) == ToTake(s)
                                && (ToRead(t) < ToRead(s) || (ToRead(t) == ToRead(s) && |t.client.queue| < |s.client.queue|)))))))
  {
    hide Coalesced, Applied, MessageAt;
  }

  /** From wherever a run is, with nothing more written, steps of the two ends alone bring the client to all there is. */
  lemma {:induction false} CatchesUp(s: System) returns (more: seq<Doing>)
    requires Sound(s) && NewestRead(s.client)
    ensures Runs(s, more) && CaughtUp(After(s, more)) && forall what :: what in more ==> !what.Writes? && !what.Lags? && !what.WantsRedraw?
    decreases Rank(s.server), |s.session.held|, ToTake(s), ToRead(s), |s.client.queue|
  {
    hide Sound, CaughtUp, May, Done, NewestRead, ToTake, ToRead, Rank;
    if CaughtUp(s) {
      more := [];
    } else {
      var what := Onward(s);
      OnwardMay(s);
      StepSound(s, what);
      StepNewest(s, what);
      HasEpoch(s);
      OnwardCounts(s);
      var rest := CatchesUp(Done(s, what));
      more := [what] + rest;
      assert more[0] == what && more[1..] == rest;
    }
  }

  lemma HasEpoch(s: System)
    requires Sound(s)
    ensures s.server.epochs != []
    ensures |s.server.epochs| in s.client.read ==> ReaderSound(s.client, s.server.epochs, |s.server.epochs|)
  {
  }

  /** So in every run from an attach the client can still come to show all the session was fed. */
  lemma AlwaysCatchesUp(session: Session, parts: nat, run: seq<Doing>) returns (more: seq<Doing>)
    requires SessionSound(session) && Runs(Attached(session, parts), run)
    ensures var s := After(Attached(session, parts), run);
            && Runs(s, more) && (forall what :: what in more ==> !what.Writes?)
            && After(s, more).client.picture == Some(s.session.fed)
  {
    hide Sound, CaughtUp, May, Done, NewestRead, SessionSound;
    var start := Attached(session, parts);
    AttachedSound(session, parts);
    RunSound(start, run);
    assert NewestRead(start.client) by { StartNewest(session, parts); }
    RunNewest(start, run);
    var s := After(start, run);
    more := CatchesUp(s);
    RunSound(s, more);
    SoundShowsAll(After(s, more));
    FedStays(s, more);
  }

  lemma StartNewest(session: Session, parts: nat)
    ensures NewestRead(Attached(session, parts).client)
  {
  }

  lemma {:induction false} FedStays(s: System, run: seq<Doing>)
    requires Runs(s, run) && forall what :: what in run ==> !what.Writes?
    ensures After(s, run).session.fed == s.session.fed
    decreases |run|
  {
    hide Shown, Coalesced;
    if run != [] { FedStays(Done(s, run[0]), run[1..]); }
  }
}
