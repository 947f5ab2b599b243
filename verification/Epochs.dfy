/** What a client is shown of a session, through lag, redraws and streams cut off: always a screen the session had,
    and never an older one than before. */
module Epochs {
  import opened Bytes
  import opened Stream
  import opened Coalesce

  /** A screen, as all the output that made it: what a redraw is taken to rebuild. */
  type Picture = seq<Event>

  /** What the server writes on an epoch's stream: the redraw's messages, the last of which completes the picture,
      then the output after it. */
  datatype Message = Part | Redraw(picture: Picture) | Output(piece: Piece)

  /** An epoch's stream: as many messages of redraw, the picture, and the output sent since. */
  datatype Epoch = Epoch(parts: nat, picture: Picture, outputs: seq<Piece>)

  function Length(epoch: Epoch): nat {
    epoch.parts + 1 + |epoch.outputs|
  }

  function MessageAt(epoch: Epoch, n: nat): Message
    requires n < Length(epoch)
  {
    if n < epoch.parts then Part
    else if n == epoch.parts then Redraw(epoch.picture)
    else Output(epoch.outputs[n - epoch.parts - 1])
  }

  // ---- the session -------------------------------------------------------------------------------------------------------------

  /** A session: what its emulator was fed, what of that is held for the modes, and what was told to every client. */
  datatype Session = Session(fed: Picture, held: seq<Piece>, told: seq<Piece>)

  function Fed(s: Session, pieces: seq<Piece>): Session {
    s.(fed := s.fed + Shown(pieces), held := s.held + pieces)
  }

  /** What was held is told, joined. */
  function Released(s: Session): Session {
    s.(held := [], told := s.told + Coalesced(s.held))
  }

  /** Where a client begins: the picture, and the events after. */
  datatype Start = Start(picture: Picture, next: nat)

  function StartOf(s: Session): Start {
    Start(s.fed, |s.told|)
  }

  // ---- the server's end of a connection ------------------------------------------------------------------------------------------

  datatype Phase = Serving | Asking | Answered(start: Start)

  /** The server's end: the epochs opened, the event it takes next, whether a redraw is asked for. */
  datatype Server = Server(epochs: seq<Epoch>, next: nat, asked: bool, phase: Phase)

  function Opened(server: Server, start: Start, parts: nat): Server {
    server.(epochs := server.epochs + [Epoch(parts, start.picture, [])], next := start.next, phase := Serving)
  }

  /** The next event, told on the newest epoch's stream. */
  function Received(server: Server, piece: Piece): Server
    requires server.epochs != []
  {
    var last := |server.epochs| - 1;
    var epoch := server.epochs[last];
    server.(epochs := server.epochs[last := epoch.(outputs := epoch.outputs + [piece])], next := server.next + 1)
  }

  // ---- the client ------------------------------------------------------------------------------------------------------------------

  /** The client: how far each epoch's reader read, the newest epoch taken, what was read and not yet heard, and the
      epoch it shows with its picture, none while a redraw is under way. Epochs count from 1. */
  datatype Client = Client(read: map<nat, nat>, newest: nat, queue: seq<(nat, Message)>, epoch: nat, picture: Option<Picture>)

  function Applied(picture: Option<Picture>, message: Message): Option<Picture> {
    match message
    case Part => None
    case Redraw(p) => Some(p)
    case Output(piece) => if picture.Some? then Some(picture.value + EventsOf(piece)) else None
  }

  /** What the client does with a message heard: an older epoch's is dropped, a newer one's begins anew. */
  function Heard(client: Client, epoch: nat, message: Message): Client {
    if epoch < client.epoch then client
    else
      var picture := if epoch > client.epoch then None else client.picture;
      client.(epoch := epoch, picture := Applied(picture, message))
  }

  /** An epoch's stream comes in: refused unless newer than every one taken. */
  function Accepted(client: Client, epoch: nat): Client {
    if client.newest >= epoch then client else client.(newest := epoch, read := client.read[epoch := 0])
  }

  // ---- one step ----------------------------------------------------------------------------------------------------------------------

  datatype System = System(session: Session, server: Server, client: Client)

  /** What happens: the program writes; the session tells what it held; the client asks a redraw; the server takes an
      event, or finds it fell behind, asks for a redraw, is answered, opens an epoch; a stream comes in, its reader
      reads a message, the client hears one. */
  datatype Doing =
    | Writes(pieces: seq<Piece>)
    | Tells
    | WantsRedraw
    | Takes
    | Lags(next: nat)
    | Asks
    | Answers
    | Opens(parts: nat)
    | ComesIn(epoch: nat)
    | Reads(epoch: nat)
    | Hears

  predicate May(s: System, what: Doing) {
    match what
    case Writes(_) => true
    case Tells => true
    case WantsRedraw => s.server.phase.Serving?
    case Takes => s.server.phase.Serving? && !s.server.asked && s.server.next < |s.session.told| && s.server.epochs != []
    case Lags(next) => s.server.phase.Serving? && !s.server.asked && next <= |s.session.told|
    case Asks => s.server.phase.Serving? && s.server.asked
    case Answers => s.server.phase.Asking?
    case Opens(_) => s.server.phase.Answered?
    case ComesIn(epoch) => 1 <= epoch <= |s.server.epochs|
    case Reads(epoch) => epoch in s.client.read && 1 <= epoch <= |s.server.epochs|
                         && s.client.read[epoch] < Length(s.server.epochs[epoch - 1])
    case Hears => s.client.queue != []
  }

  function Done(s: System, what: Doing): System
    requires May(s, what)
  {
    match what
    case Writes(pieces) => s.(session := Fed(s.session, pieces))
    case Tells => s.(session := Released(s.session))
    case WantsRedraw => s.(server := s.server.(asked := true))
    case Takes => s.(server := Received(s.server, s.session.told[s.server.next]))
    case Lags(next) => s.(server := s.server.(next := next, asked := true))
    case Asks => s.(server := s.server.(asked := false, phase := Asking))
    case Answers =>
      var released := Released(s.session);
      s.(session := released, server := s.server.(phase := Answered(StartOf(released))))
    case Opens(parts) => s.(server := Opened(s.server, s.server.phase.start, parts))
    case ComesIn(epoch) => s.(client := Accepted(s.client, epoch))
    case Reads(epoch) =>
      var n := s.client.read[epoch];
      var message := MessageAt(s.server.epochs[epoch - 1], n);
      s.(client := s.client.(read := s.client.read[epoch := n + 1], queue := s.client.queue + [(epoch, message)]))
    case Hears =>
      var (epoch, message) := s.client.queue[0];
      s.(client := Heard(s.client.(queue := s.client.queue[1..]), epoch, message))
  }

  predicate Runs(s: System, run: seq<Doing>)
    decreases |run|
  {
    run == [] || (May(s, run[0]) && Runs(Done(s, run[0]), run[1..]))
  }

  function After(s: System, run: seq<Doing>): System
    requires Runs(s, run)
    decreases |run|
  {
    if run == [] then s else After(Done(s, run[0]), run[1..])
  }

  /** An attach: what is held is told first, then the first epoch is opened. */
  function Attached(session: Session, parts: nat): System {
    var released := Released(session);
    var start := StartOf(released);
    System(released, Opened(Server([], 0, false, Serving), start, parts), Client(map[], 0, [], 0, None))
  }

  // ---- the client as it is kept --------------------------------------------------------------------------------------------------------

  class Wire {
    var epoch: nat
    var picture: Option<Picture>

    constructor ()
      ensures epoch == 0 && picture == None
    {
      epoch, picture := 0, None;
    }

    /** What `heard` does with a message of `from`'s stream. */
    method Hear(from: nat, message: Message)
      modifies this
      ensures var was := Client(map[], 0, [], old(epoch), old(picture));
              Heard(was, from, message) == was.(epoch := epoch, picture := picture)
    {
      if from < epoch {
        return;
      }
      if from > epoch {
        epoch := from;
        picture := None;
      }
      match message {
        case Part => picture := None;
        case Redraw(p) => picture := Some(p);
        case Output(piece) =>
          if picture.Some? {
            picture := Some(picture.value + EventsOf(piece));
          }
      }
    }
  }
}
