/** The receiving end of a copy, an item at a time: what it does to the entries there, what it
    answers and what it counts. */
module Receive {
  import opened Bytes
  import opened Files

  const WINDOW := 64
  const MAX_OPEN := 128
  const MAX_SEEN := 4_000_000
  const CHUNK := 65536

  /** A file's hash stands for what it was made from: no two contents have the same. */
  type Hash = seq<byte>

  datatype FileHeader = FileHeader(id: nat, name: Name, mode: nat, mtime: Option<nat>, size: nat)

  /** One step of what the sender sends. A chunk's bytes come with it. */
  datatype Item =
    | DirItem(name: Name, mode: nat, mtime: Option<nat>)
    | ContentsItem(mode: nat, mtime: Option<nat>)
    | FileItem(header: FileHeader)
    | LinkItem(name: Name, target: seq<byte>)
    | EndItem
    | SkippedItem(name: Name)
    | DataItem(id: nat, from: nat)
    | ChunkItem(bytes: seq<byte>)
    | SentItem
    | SameItem(id: nat)
    | DiffersItem(id: nat, from: nat)
    | FailedItem
    | DoneItem

  datatype Answer =
    | Want(id: nat, have: nat, prefix: Option<Hash>)
    | Check(id: nat, hash: Hash)

  datatype Summary = Summary(
    added: nat, replaced: nat, same: nat, resumed: nat, bytes: nat,
    dirs: nat, links: nat, deleted: nat, skipped: nat)

  const NOTHING := Summary(0, 0, 0, 0, 0, 0, 0, 0, 0)

  datatype Fail = IsADirectory | IsASymlink | NotADirectory | TooDeep | TooMany | Malformed | Truncated | Io | Theirs

  /** A directory entries land in; not `present` in a dry run, where one would be made. */
  datatype Folder = Folder(path: Path, present: bool, mode: Option<nat>, mtime: Option<nat>, up: Up)

  /** The directory a directory is in, held as long as it is. */
  datatype Up = NoUp | Inside(folder: Folder)

  datatype Open = Open(folder: Folder, seen: Option<set<Name>>)

  datatype Pending = Pending(folder: Folder, header: FileHeader, existed: bool)

  /** A file whose bytes are coming, those before `at` written. */
  datatype Landing = Landing(p: Pending, from: nat, at: nat)

  datatype State = State(
    files: Files,
    times: map<Path, Time>,            // the times of directories changed by this copy
    opts: Opts,
    top: Folder,
    named: Option<Name>,
    placed: nat,
    open: seq<Open>,
    tree: Path,
    pending: map<nat, Pending>,
    closing: seq<Folder>,
    seen: nat,
    summary: Summary,
    landing: Option<Landing>)

  /** A step's result, or why it stopped the copy and what it left. */
  datatype Result<+T> = Ok(value: T) | Err(fail: Fail, left: Files)

  /** What an item comes to. */
  datatype Step = On(state: State, answer: Option<Answer>) | Over(files: Files, summary: Option<Summary>, fail: Option<Fail>)

  // ---- the parts of a step -----------------------------------------------------------------------

  function PathIn(folder: Folder, n: Name): Path {
    folder.path + [n]
  }

  function Stat(s: State, folder: Folder, n: Name): Option<Entry> {
    if folder.present then Get(s.files, PathIn(folder, n)) else None
  }

  function Touched(s: State, folder: Folder): State {
    s.(times := s.times[folder.path := Arrived])
  }

  /** The directory an entry goes in, and the name it lands as. */
  function Place(s: State, n: Name): Result<(State, Folder, Name)> {
    if s.open != [] then Ok((s, s.open[|s.open| - 1].folder, n))
    else
      var t := s.(placed := s.placed + 1);
      if s.named.None? then Ok((t, s.top, n))
      else if t.placed == 1 then Ok((t, s.top, s.named.value))
      else Err(Malformed, s.files)
  }

  /** Note `n` as sent into the open directory, for `--delete`. */
  function Saw(s: State, n: Name): Result<State> {
    if s.open == [] || s.open[|s.open| - 1].seen.None? then Ok(s)
    else
      var last := s.open[|s.open| - 1];
      if n in last.seen.value then Ok(s)
      else if s.seen + 1 > MAX_SEEN then Err(TooMany, s.files)
      else Ok(s.(open := s.open[..|s.open| - 1] + [last.(seen := Some(last.seen.value + {n}))], seen := s.seen + 1))
  }

  function Opened(s: State, folder: Folder): State {
    s.(tree := if s.open == [] then folder.path else s.tree,
       open := s.open + [Open(folder, if s.opts.delete then Some({}) else None)])
  }

  /** The entries at `tops`, of the directory `folder`, removed with all they hold; in a dry run,
      only counted. */
  function Removed(s: State, folder: Folder, tops: set<Path>): State {
    var t := s.(summary := s.summary.(deleted := s.summary.deleted + Held(s.files, tops)));
    if s.opts.dryRun || tops == {} then t
    else Touched(t.(files := WithoutAll(s.files, tops)), folder)
  }

  /** Open directory `n` of `parent`, made if it is not there. */
  function Enter(s: State, parent: Folder, n: Name, mode: nat, mtime: Option<nat>): Result<State> {
    var path := PathIn(parent, n);
    if |s.open| >= MAX_OPEN then Err(TooDeep, s.files)
    else
      var saw := Saw(s, n);
      if saw.Err? then saw
      else
        var there := Stat(s, parent, n);
        if there.Some? && there.value.Link? then Err(IsASymlink, s.files)
        else if there.Some? && !there.value.Dir? && !s.opts.delete then Err(NotADirectory, s.files)
        else Ok(Entering(saw.value, parent, n, mode, mtime, there))
  }

  /** The directory entered, as it is held. */
  function EnteredFolder(opts: Opts, parent: Folder, n: Name, mode: nat, mtime: Option<nat>, made: bool): Folder {
    Folder(PathIn(parent, n), parent.present && !(opts.dryRun && made),
           if made || opts.keepTimes then Some(mode) else None,
           if opts.keepTimes then mtime else None, Inside(parent))
  }

  /** A directory made at `path` in `parent`, once what was there is gone. */
  function Making(s: State, parent: Folder, path: Path, there: Option<Entry>): State {
    var cleared := if there.Some? then Removed(s, parent, {path}) else s;
    var counted := cleared.(summary := cleared.summary.(dirs := cleared.summary.dirs + 1));
    if parent.present && !s.opts.dryRun
    then Touched(counted.(files := counted.files[path := Dir(0x1c0)]), parent)
    else counted
  }

  function Entering(s: State, parent: Folder, n: Name, mode: nat, mtime: Option<nat>, there: Option<Entry>): State {
    var made := !(there.Some? && there.value.Dir?);
    Opened(if made then Making(s, parent, PathIn(parent, n), there) else s,
           EnteredFolder(s.opts, parent, n, mode, mtime, made))
  }

  /** What is in a directory lands in the target itself: it keeps its mode, and takes the source's
      time if asked. */
  function EnterTarget(s: State, mtime: Option<nat>): State {
    Opened(s, Folder([], s.top.present, None, if s.opts.keepTimes then mtime else None, Inside(s.top)))
  }

  // ---- closing directories ----------------------------------------------------------------------

  /** Whether holding `f` holds `d`: it is `d`, or in it however deep. */
  predicate Within(f: Folder, d: Folder) {
    f == d || (f.up.Inside? && Within(f.up.folder, d))
  }

  /** Whether `closing[at]` is held by nothing else: by no open directory, no file under way and no
      other directory waiting to close. */
  predicate Ready(s: State, at: nat)
    requires at < |s.closing|
  {
    && (forall id :: id in s.pending ==> !Within(s.pending[id].folder, s.closing[at]))
    && (forall i :: 0 <= i < |s.open| ==> !Within(s.open[i].folder, s.closing[at]))
    && (forall i :: 0 <= i < |s.closing| && i != at ==> !Within(s.closing[i], s.closing[at]))
  }

  function FirstReady(s: State, from: nat): (at: Option<nat>)
    requires from <= |s.closing|
    ensures at.Some? ==> from <= at.value < |s.closing| && Ready(s, at.value)
    ensures at.None? ==> forall i :: from <= i < |s.closing| ==> !Ready(s, i)
    decreases |s.closing| - from
  {
    if from == |s.closing| then None
    else if Ready(s, from) then Some(from)
    else FirstReady(s, from + 1)
  }

  /** Element `at` out of `s`, the last in its place. */
  function SwapRemove<T>(s: seq<T>, at: nat): seq<T>
    requires at < |s|
  {
    if at == |s| - 1 then s[..at] else s[..at] + [s[|s| - 1]] + s[at + 1..|s| - 1]
  }

  /** Directory `closing[at]` gets its mode and its time. */
  function CloseOne(s: State, at: nat): State
    requires at < |s.closing|
  {
    var d := s.closing[at];
    var t := s.(closing := SwapRemove(s.closing, at));
    if !d.present then t
    else t.(files := if d.mode.Some? && IsDir(s.files, d.path)
                     then s.files[d.path := Dir(Landed(d.mode.value))] else s.files,
            times := if d.mtime.Some? then s.times[d.path := At(d.mtime.value)] else s.times)
  }

  /** Each directory ended with nothing under it under way gets its mode and time. */
  function CloseReady(s: State): State
    decreases |s.closing|
  {
    var at := FirstReady(s, 0);
    if at.None? then s else CloseReady(CloseOne(s, at.value))
  }

  /** A path from the top of the tree landing. */
  function RelTo(tree: Path, p: Path): Path {
    if tree <= p then p[|tree|..] else p
  }

  /** What `--delete` removes from the directory ended. */
  ghost function Unsent(s: State, d: Open): set<Path> {
    if d.seen.None? || !d.folder.present then {}
    else set p | p in s.files && |p| == |d.folder.path| + 1 && d.folder.path <= p
                 && p[|d.folder.path|] !in d.seen.value
                 && !Skips(s.opts, p[|d.folder.path|], RelTo(s.tree, p))
  }

  /** The open directory is done: what the sender did not send goes, if asked, and it waits to
      close. */
  ghost function Leaving(s: State): State
    requires s.open != []
  {
    var d := s.open[|s.open| - 1];
    var t := s.(open := s.open[..|s.open| - 1],
                seen := if d.seen.Some? && |d.seen.value| <= s.seen then s.seen - |d.seen.value|
                        else if d.seen.Some? then 0 else s.seen);
    var u := Removed(t, d.folder, Unsent(s, d));
    if s.opts.dryRun then u else u.(closing := u.closing + [d.folder])
  }

  ghost function Leave(s: State): Result<State> {
    if s.open == [] then Err(Malformed, s.files) else Ok(CloseReady(Leaving(s)))
  }

  // ---- files ---------------------------------------------------------------------------------------

  /** A file's header: what it is answered, `there` and `kept` being what is at its name and its
      part's. */
  function AnswerTo(header: FileHeader, there: Option<Entry>, kept: Option<Entry>): Answer {
    if there.Some? && there.value.File? && |there.value.content| == header.size
    then Check(header.id, there.value.content)
    else if kept.Some? && kept.value.File? && 0 < |kept.value.content| <= header.size
    then Want(header.id, |kept.value.content|, Some(kept.value.content))
    else Want(header.id, 0, None)
  }

  function Header(s: State, folder: Folder, header: FileHeader): Result<(State, Answer)> {
    if |s.pending| >= WINDOW || header.id in s.pending then Err(Malformed, s.files)
    else
      var saw := Saw(s, header.name);
      if saw.Err? then Err(saw.fail, saw.left)
      else
        var there := Stat(s, folder, header.name);
        if there.Some? && there.value.Dir? then Err(IsADirectory, s.files)
        else
          var answer := AnswerTo(header, there, Stat(s, folder, PartName(header.name)));
          var noted := if answer.Check? then saw else Saw(saw.value, PartName(header.name));
          if noted.Err? then Err(noted.fail, noted.left)
          else
            var t := noted.value;
            Ok((t.(pending := t.pending[header.id := Pending(folder, header, there.Some?)]), answer))
  }

  /** The part at `p`, opened to write from `from` on. */
  function Part(files: Files, p: Path, from: nat): Option<Entry> {
    if p !in files then Some(File(Padded([], from), 0x180, Arrived))
    else if !files[p].File? then None
    else Some(File(Padded(files[p].content, from), files[p].mode, Arrived))
  }

  /** `content` cut to `n` bytes, or with zeros up to them. */
  function Padded(content: seq<byte>, n: nat): seq<byte> {
    if n <= |content| then content[..n] else content + seq(n - |content|, _ => 0)
  }

  /** File `id`'s bytes from `from` on are coming. */
  function Data(s: State, id: nat, from: nat): Result<State> {
    if id !in s.pending then Err(Malformed, s.files)
    else
      var p := s.pending[id];
      var part := PathIn(p.folder, PartName(p.header.name));
      if !p.folder.present then Err(Malformed, s.files)
      else
        var entry := Part(s.files, part, from);
        if entry.None? then Err(Io, s.files)
        else
          var t := if part in s.files then s else Touched(s, p.folder);
          Ok(t.(pending := s.pending - {id},
                files := s.files[part := entry.value],
                landing := Some(Landing(p, from, from))))
  }

  /** `bytes` written at `at` in `content`. */
  function Overwritten(content: seq<byte>, at: nat, bytes: seq<byte>): seq<byte> {
    Padded(content, at) + bytes + if at + |bytes| <= |content| then content[at + |bytes|..] else []
  }

  function PartPath(p: Pending): Path {
    PathIn(p.folder, PartName(p.header.name))
  }

  /** The next of the file's chunks. */
  function Chunk(s: State, bytes: seq<byte>): Result<State>
    requires s.landing.Some?
  {
    var l := s.landing.value;
    var part := PartPath(l.p);
    if part !in s.files || !s.files[part].File? then Err(Io, s.files)
    else
      var was := s.files[part];
      Ok(s.(files := s.files[part := was.(content := Overwritten(was.content, l.at, bytes), time := Arrived)],
            landing := Some(l.(at := l.at + |bytes|)),
            summary := s.summary.(bytes := s.summary.bytes + |bytes|)))
  }

  function Counted(summary: Summary, p: Pending, from: nat): Summary {
    var c := if p.existed then summary.(replaced := summary.replaced + 1)
             else summary.(added := summary.added + 1);
    if from > 0 then c.(resumed := c.resumed + 1) else c
  }

  /** The file is all there: it gets its mode and time, and takes its name's place. */
  function Finished(s: State): Result<State>
    requires s.landing.Some?
  {
    var l := s.landing.value;
    var part := PartPath(l.p);
    var path := PathIn(l.p.folder, l.p.header.name);
    if part !in s.files || !s.files[part].File? then Err(Io, s.files)
    else
      var time := if s.opts.keepTimes && l.p.header.mtime.Some? then At(l.p.header.mtime.value) else Arrived;
      var entry := s.files[part].(mode := Landed(l.p.header.mode), time := time);
      if IsDir(s.files, path) then Err(Io, s.files[part := entry])
      else
        Ok(CloseReady(Touched(s.(files := (s.files - {part})[path := entry],
                                 summary := Counted(s.summary, l.p, l.from),
                                 landing := None), l.p.folder)))
  }

  /** In a dry run, file `id` would be sent from byte `from`. */
  function Differs(s: State, id: nat, from: nat): Result<State> {
    if id !in s.pending then Err(Malformed, s.files)
    else
      var p := s.pending[id];
      var bytes := if from <= p.header.size then p.header.size - from else 0;
      Ok(s.(pending := s.pending - {id},
            summary := Counted(s.summary.(bytes := s.summary.bytes + bytes), p, from)))
  }

  /** File `id` is the same as the one here: it takes the source's mode, and its time if asked. */
  function Same(s: State, id: nat): Result<State> {
    if id !in s.pending then Err(Malformed, s.files)
    else
      var p := s.pending[id];
      var t := s.(pending := s.pending - {id},
                  summary := s.summary.(same := s.summary.same + 1));
      var path := PathIn(p.folder, p.header.name);
      if s.opts.dryRun then Ok(t)
      else if !p.folder.present then Err(Malformed, s.files)
      else if path !in s.files || !s.files[path].File? then Err(Io, s.files)
      else
        var was := s.files[path];
        var time := if s.opts.keepTimes && p.header.mtime.Some? then At(p.header.mtime.value) else was.time;
        Ok(CloseReady(t.(files := s.files[path := File(was.content, Landed(p.header.mode), time)])))
  }

  /** A symlink, made or put in place of what is there, unless it is the same already. */
  function Symlink(s: State, folder: Folder, n: Name, target: seq<byte>): Result<State> {
    var saw := Saw(s, n);
    if saw.Err? then saw
    else
      var t := saw.value;
      var there := Stat(s, folder, n);
      var counted := t.(summary := t.summary.(links := t.summary.links + 1));
      if there.Some? && there.value.Dir? then Err(IsADirectory, s.files)
      else if there == Some(Link(target)) then Ok(t)
      else if s.opts.dryRun then Ok(counted)
      else if !folder.present then Err(Malformed, s.files)
      else
        var cleared := if there.Some? then Without(s.files, PathIn(folder, PartName(n))) else s.files;
        Ok(Touched(counted.(files := cleared[PathIn(folder, n) := Link(target)]), folder))
  }

  // ---- an item -------------------------------------------------------------------------------------

  function Went(r: Result<State>): Step {
    match r
    case Ok(s) => On(s, None)
    case Err(fail, left) => Over(left, None, Some(fail))
  }

  /** What an item coming between files comes to. */
  ghost function Between(s: State, item: Item): Step
    requires s.landing.None?
  {
    var atTop := s.open == [];
    var dry := s.opts.dryRun;
    var malformed := Over(s.files, None, Some(Malformed));
    match item
    case DoneItem => if atTop && s.pending == map[] then Over(s.files, Some(s.summary), None) else malformed
    case FailedItem => Over(s.files, None, Some(Theirs))
    case EndItem => Went(Leave(s))
    case SkippedItem(n) =>
      if atTop then malformed
      else
        var saw := Saw(s, n);
        if saw.Err? then Went(saw)
        else On(saw.value.(summary := s.summary.(skipped := s.summary.skipped + 1)), None)
    case DataItem(id, from) => if dry then malformed else Went(Data(s, id, from))
    case DiffersItem(id, from) => if dry then Went(Differs(s, id, from)) else malformed
    case SameItem(id) => Went(Same(s, id))
    case ContentsItem(mode, mtime) =>
      if !atTop then malformed
      else if s.named.None? then On(EnterTarget(s, mtime), None)
      else
        var placed := Place(s, s.named.value);
        if placed.Err? then malformed
        else Went(Enter(placed.value.0, placed.value.1, placed.value.2, mode, mtime))
    case DirItem(n, mode, mtime) =>
      var placed := Place(s, n);
      if placed.Err? then malformed
      else Went(Enter(placed.value.0, placed.value.1, placed.value.2, mode, mtime))
    case FileItem(header) =>
      var placed := Place(s, header.name);
      if placed.Err? then malformed
      else
        var h := Header(placed.value.0, placed.value.1, header.(name := placed.value.2));
        if h.Err? then Over(h.left, None, Some(h.fail)) else On(h.value.0, Some(h.value.1))
    case LinkItem(n, target) =>
      var placed := Place(s, n);
      if placed.Err? then malformed
      else Went(Symlink(placed.value.0, placed.value.1, placed.value.2, target))
    case ChunkItem(_) => malformed
    case SentItem => malformed
  }

  /** What an item coming in the middle of a file comes to. */
  function InFile(s: State, item: Item): Step
    requires s.landing.Some?
  {
    match item
    case ChunkItem(bytes) => Went(Chunk(s, bytes))
    case SentItem => Went(Finished(s))
    case _ => Over(s.files, None, Some(Malformed))
  }

  ghost function Received(s: State, item: Item): Step {
    if s.landing.Some? then InFile(s, item) else Between(s, item)
  }
}
