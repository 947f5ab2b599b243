/** The receiving end as it is written: its fields changed item by item, each operation proved to do
    what its function says. */
module Landings {
  import opened Bytes
  import opened Glob
  import opened Files
  import opened Receive

  class Receiver {
    var files: Files
    var times: map<Path, Time>
    const opts: Opts
    const top: Folder
    const named: Option<Name>
    var placed: nat
    var open: seq<Open>
    var tree: Path
    var pending: map<nat, Pending>
    var closing: seq<Folder>
    var seen: nat
    var summary: Summary
    var input: seq<Item>
    var replies: seq<Answer>

    constructor (files: Files, opts: Opts, named: Option<Name>, input: seq<Item>)
      ensures Now() == State(files, map[], opts, Folder([], true, None, None, NoUp), named, 0, [], [], map[], [], 0,
                             NOTHING, None)
      ensures this.input == input && replies == []
    {
      this.files, this.times, this.opts, this.named := files, map[], opts, named;
      this.top := Folder([], true, None, None, NoUp);
      placed, open, tree, pending, closing, seen := 0, [], [], map[], [], 0;
      summary, this.input, replies := NOTHING, input, [];
    }

    /** Its state between two items that are not a file's bytes. */
    function Now(): State
      reads this
    {
      State(files, times, opts, top, named, placed, open, tree, pending, closing, seen, summary, None)
    }

    /** The directory an entry named `n` goes in, and the name it lands as. */
    method Place(n: Name) returns (fail: Option<Fail>, parent: Folder, name: Name)
      modifies this`placed
      ensures match Receive.Place(old(Now()), n)
              case Ok((t, p, m)) => fail.None? && Now() == t && parent == p && name == m
              case Err(f, _) => fail == Some(f)
    {
      if open != [] { return None, open[|open| - 1].folder, n; }
      placed := placed + 1;
      if named.None? { return None, top, n; }
      if placed == 1 { return None, top, named.value; }
      return Some(Malformed), top, n;
    }

    /** Note `n` as sent into the open directory. */
    method Saw(n: Name) returns (fail: Option<Fail>)
      modifies this`open, this`seen
      ensures match Receive.Saw(old(Now()), n)
              case Ok(t) => fail.None? && Now() == t
              case Err(f, left) => fail == Some(f) && files == left
    {
      if open == [] || open[|open| - 1].seen.None? { return None; }
      var last := open[|open| - 1];
      if n in last.seen.value { return None; }
      open := open[..|open| - 1] + [last.(seen := Some(last.seen.value + {n}))];
      seen := seen + 1;
      if seen > MAX_SEEN { return Some(TooMany); }
      return None;
    }

    method OpenDir(folder: Folder)
      modifies this`open, this`tree
      ensures Now() == Opened(old(Now()), folder)
    {
      if open == [] { tree := folder.path; }
      open := open + [Open(folder, if opts.delete then Some({}) else None)];
    }

    /** Remove the entry at `q`, of `folder`, with all it holds; in a dry run, count it. */
    method Remove(folder: Folder, q: Path)
      modifies this`files, this`times, this`summary
      ensures Now() == Removed(old(Now()), folder, {q})
    {
      summary := summary.(deleted := summary.deleted + Held(files, {q}));
      if !opts.dryRun {
        files := WithoutAll(files, {q});
        times := times[folder.path := Arrived];
      }
    }

    /** Make a directory at `path`, with mode 0700 until it is done, once what was there is gone. */
    method MakeDir(parent: Folder, path: Path, there: Option<Entry>)
      modifies this`files, this`times, this`summary
      ensures Now() == Making(old(Now()), parent, path, there)
    {
      if there.Some? { Remove(parent, path); }
      summary := summary.(dirs := summary.dirs + 1);
      if parent.present && !opts.dryRun {
        files := files[path := Dir(0x1c0)];
        times := times[parent.path := Arrived];
      }
    }

    /** Open directory `n` of `parent`, made if it is not there. */
    method Enter(parent: Folder, n: Name, mode: nat, mtime: Option<nat>) returns (fail: Option<Fail>)
      modifies this
      ensures input == old(input) && replies == old(replies)
      ensures match Receive.Enter(old(Now()), parent, n, mode, mtime)
              case Ok(t) => fail.None? && Now() == t
              case Err(f, left) => fail == Some(f) && files == left
    {
      hide EnteredFolder, Making;
      var path := PathIn(parent, n);
      if |open| >= MAX_OPEN { return Some(TooDeep); }
      fail := Saw(n);
      if fail.Some? { return; }
      var there := Stat(Now(), parent, n);
      if there.Some? && there.value.Link? { return Some(IsASymlink); }
      if there.Some? && !there.value.Dir? && !opts.delete { return Some(NotADirectory); }
      var made := !(there.Some? && there.value.Dir?);
      if made { MakeDir(parent, path, there); }
      OpenDir(EnteredFolder(opts, parent, n, mode, mtime, made));
    }

    /** The first directory waiting that nothing else holds. */
    method Position() returns (at: Option<nat>)
      ensures at == FirstReady(Now(), 0)
    {
      var i: nat := 0;
      while i < |closing|
        invariant i <= |closing| && FirstReady(Now(), 0) == FirstReady(Now(), i)
      {
        if Ready(Now(), i) { return Some(i); }
        i := i + 1;
      }
      return None;
    }

    /** Each directory ended with nothing under it under way gets its mode and time. */
    method CloseReady()
      modifies this`files, this`times, this`closing
      ensures Now() == Receive.CloseReady(old(Now()))
    {
      hide FirstReady, Ready;
      var at := Position();
      while at.Some?
        invariant at == FirstReady(Now(), 0)
        invariant Receive.CloseReady(Now()) == Receive.CloseReady(old(Now()))
        decreases |closing|
      {
        var d := closing[at.value];
        closing := SwapRemove(closing, at.value);
        if d.present {
          if d.mode.Some? && IsDir(files, d.path) { files := files[d.path := Dir(Landed(d.mode.value))]; }
          if d.mtime.Some? { times := times[d.path := At(d.mtime.value)]; }
        }
        at := Position();
      }
    }

    /** The entries of directory `d`. */
    function Names(d: Path): set<Path>
      reads this
    {
      set p | p in files && |p| == |d| + 1 && d <= p
    }

    /** The open directory is done: remove what the sender did not send, if asked. */
    method Leave() returns (fail: Option<Fail>)
      modifies this
      ensures input == old(input) && replies == old(replies)
      ensures match Receive.Leave(old(Now()))
              case Ok(t) => fail.None? && Now() == t
              case Err(f, left) => fail == Some(f) && files == left
    {
      hide Receive.CloseReady, Removed, Unsent;
      if open == [] { return Some(Malformed); }
      var d := open[|open| - 1];
      ghost var was := Now();
      open := open[..|open| - 1];
      if d.seen.Some? {
        seen := if |d.seen.value| <= seen then seen - |d.seen.value| else 0;
      }
      UnsentSame(was, Now(), d);
      NoneRemoved(Now(), d.folder);
      if d.seen.Some? && d.folder.present { Prune(d); } else { UnsentNone(was, d); }
      if !opts.dryRun { closing := closing + [d.folder]; }
      CloseReady();
      return None;
    }

    /** The entry at `q`, of directory `d`, goes if the sender did not send it and it is not
        excluded; those at `tops`, of the same directory, went before. */
    method PruneOne(d: Open, q: Path, ghost was: State, ghost tops: set<Path>)
      requires d.seen.Some? && d.folder.present && Now() == Removed(was, d.folder, tops) && Beside(tops, q)
      requires q in was.files && |q| == |d.folder.path| + 1 && d.folder.path <= q
      modifies this`files, this`times, this`summary
      ensures Now() == Removed(was, d.folder, if q in Unsent(was, d) then tops + {q} else tops)
    {
      hide Removed, Unsent, Held, WithoutAll, Excluded;
      var n := q[|d.folder.path|];
      RemovedParts(was, d.folder, tops);
      UnsentHas(was, d, q);
      var excluded := AnyExcludes(opts.excludes, n, Written(RelTo(tree, q)));
      if !excluded && n !in d.seen.value {
        RemovedMore(was, d.folder, tops, q);
        Remove(d.folder, q);
      }
    }

    /** What the sender did not send into `d` goes, unless it is excluded. */
    method Prune(d: Open)
      requires d.seen.Some? && d.folder.present
      modifies this`files, this`times, this`summary
      ensures Now() == Removed(old(Now()), d.folder, Unsent(old(Now()), d))
    {
      hide Removed, Unsent, Beside, Names, WithoutAll, Held;
      ghost var was := Now();
      ghost var unsent := Unsent(was, d);
      var names := Names(d.folder.path);
      var left := names;
      ghost var gone: set<Path> := {};
      NoneRemoved(was, d.folder);
      NamesAre(d.folder.path);
      while left != {}
        invariant left <= names && gone <= names - left
        invariant forall q :: q in names && q !in left ==> (q in gone <==> q in unsent)
        invariant Now() == Removed(was, d.folder, gone)
        decreases |left|
      {
        var q :| q in left;
        NamesBeside(was, d.folder.path, names, gone, q);
        PruneOne(d, q, was, gone);
        if q in unsent { gone := gone + {q}; }
        left := left - {q};
      }
      forall q | q in unsent ensures q in names { UnsentNames(was, d, q); }
      assert gone == unsent;
    }

    lemma NamesAre(d: Path)
      ensures Names(d) == NamesIn(files, d)
    {
    }

    /** A file's header, landing in `parent`: answer it. */
    method File(parent: Folder, header: FileHeader) returns (fail: Option<Fail>)
      modifies this
      ensures input == old(input)
      ensures match Receive.Header(old(Now()), parent, header)
              case Ok((t, answer)) => fail.None? && Now() == t && replies == old(replies) + [answer]
              case Err(f, left) => fail == Some(f) && files == left && replies == old(replies)
    {
      if |pending| >= WINDOW || header.id in pending { return Some(Malformed); }
      fail := Saw(header.name);
      if fail.Some? { return; }
      var there := Stat(Now(), parent, header.name);
      if there.Some? && there.value.Dir? { return Some(IsADirectory); }
      var answer: Answer;
      if there.Some? && there.value.File? && |there.value.content| == header.size {
        answer := Check(header.id, there.value.content);
      } else {
        var part := PartName(header.name);
        fail := Saw(part);
        if fail.Some? { return; }
        var kept := Stat(Now(), parent, part);
        if kept.Some? && kept.value.File? && 0 < |kept.value.content| <= header.size {
          answer := Want(header.id, |kept.value.content|, Some(kept.value.content));
        } else {
          answer := Want(header.id, 0, None);
        }
      }
      pending := pending[header.id := Pending(parent, header, there.Some?)];
      replies := replies + [answer];
    }

    /** File `id` is the same as the one here. */
    method Same(id: nat) returns (fail: Option<Fail>)
      modifies this
      ensures input == old(input) && replies == old(replies)
      ensures match Receive.Same(old(Now()), id)
              case Ok(t) => fail.None? && Now() == t
              case Err(f, left) => fail == Some(f) && files == left
    {
      hide Receive.CloseReady;
      if id !in pending { return Some(Malformed); }
      var p := pending[id];
      pending := pending - {id};
      summary := summary.(same := summary.same + 1);
      if opts.dryRun { return None; }
      if !p.folder.present { return Some(Malformed); }
      var path := PathIn(p.folder, p.header.name);
      if path !in files || !files[path].File? { return Some(Io); }
      var was := files[path];
      var entry := was.(mode := Landed(p.header.mode));
      if opts.keepTimes && p.header.mtime.Some? { entry := entry.(time := At(p.header.mtime.value)); }
      files := files[path := entry];
      CloseReady();
      return None;
    }

    /** File `p` was written, from byte `from` on, or would be. */
    method CountWritten(p: Pending, from: nat)
      modifies this`summary
      ensures summary == Counted(old(summary), p, from)
    {
      if p.existed {
        summary := summary.(replaced := summary.replaced + 1);
      } else {
        summary := summary.(added := summary.added + 1);
      }
      if from > 0 { summary := summary.(resumed := summary.resumed + 1); }
    }

    /** In a dry run, file `id` would be sent from byte `from`. */
    method Differs(id: nat, from: nat) returns (fail: Option<Fail>)
      modifies this
      ensures input == old(input) && replies == old(replies)
      ensures match Receive.Differs(old(Now()), id, from)
              case Ok(t) => fail.None? && Now() == t
              case Err(f, left) => fail == Some(f) && files == left
    {
      if id !in pending { return Some(Malformed); }
      var p := pending[id];
      pending := pending - {id};
      summary := summary.(bytes := summary.bytes + if from <= p.header.size then p.header.size - from else 0);
      CountWritten(p, from);
      return None;
    }

    /** A symlink, made or put in place of what is there, unless it is the same already. */
    method Symlink(parent: Folder, n: Name, target: seq<byte>) returns (fail: Option<Fail>)
      modifies this
      ensures input == old(input) && replies == old(replies)
      ensures match Receive.Symlink(old(Now()), parent, n, target)
              case Ok(t) => fail.None? && Now() == t
              case Err(f, left) => fail == Some(f) && files == left
    {
      fail := Saw(n);
      if fail.Some? { return; }
      var there := Stat(Now(), parent, n);
      if there.Some? && there.value.Dir? { return Some(IsADirectory); }
      if there == Some(Link(target)) { return None; }
      summary := summary.(links := summary.links + 1);
      if opts.dryRun { return None; }
      if !parent.present { return Some(Malformed); }
      if there.Some? { files := Without(files, PathIn(parent, PartName(n))); }
      files := files[PathIn(parent, n) := Link(target)];
      times := times[parent.path := Arrived];
    }

    /** The next item; none once the stream ends. */
    method Next() returns (item: Option<Item>)
      modifies this`input
      ensures old(input) == [] ==> item.None? && input == []
      ensures old(input) != [] ==> item == Some(old(input)[0]) && input == old(input)[1..]
    {
      if input == [] { return None; }
      item := Some(input[0]);
      input := input[1..];
    }

    /** The next of the file's chunks, written to its part; none once it is all sent. */
    method Write(p: Pending, from: nat, at: nat) returns (fail: Option<Fail>, more: Option<nat>)
      modifies this
      ensures replies == old(replies) && |input| <= |old(input)|
      ensures fail.Some? ==>
                Plays(old(Mid(p, from, at)), old(input), old(replies)) == Heard(files, None, fail, replies)
      ensures fail.None? && more.Some? ==>
                && |input| < |old(input)|
                && Plays(old(Mid(p, from, at)), old(input), old(replies)) == Plays(Mid(p, from, more.value), input, replies)
      ensures fail.None? && more.None? ==>
                && Now() == old(Now())
                && Plays(old(Mid(p, from, at)), old(input), old(replies)) == Onward(Finished(Mid(p, from, at)), input, replies)
    {
      hide Received, Receive.CloseReady, Finished;
      MidIs(Mid(p, from, at), input, replies);
      var part := PartPath(p);
      var item := Next();
      if item.None? { return Some(Truncated), None; }
      if item.value.SentItem? { return None, None; }
      if !item.value.ChunkItem? { return Some(Malformed), None; }
      if part !in files || !files[part].File? { return Some(Io), None; }
      var bytes := item.value.bytes;
      summary := summary.(bytes := summary.bytes + |bytes|);
      files := files[part := files[part].(content := Overwritten(files[part].content, at, bytes), time := Arrived)];
      return None, Some(at + |bytes|);
    }

    /** Its state in the middle of a file. */
    function Mid(p: Pending, from: nat, at: nat): State
      reads this
    {
      Now().(landing := Some(Landing(p, from, at)))
    }

    /** File `id`'s bytes from `from` on: into its part, then it into place. */
    method Data(id: nat, from: nat) returns (fail: Option<Fail>)
      requires !opts.dryRun
      modifies this
      ensures |input| <= |old(input)|
      ensures Goes(old(Now()), [DataItem(id, from)] + old(input), old(replies), fail)
    {
      hide Received, Receive.CloseReady, Finished, Part, Plays;
      ghost var was, items := Now(), [DataItem(id, from)] + input;
      ghost var answers := replies;
      DataIs(was, items, answers);
      if id !in pending { return Some(Malformed); }
      var p := pending[id];
      var part := PathIn(p.folder, PartName(p.header.name));
      if !p.folder.present { return Some(Malformed); }
      var entry := Part(files, part, from);
      if entry.None? { return Some(Io); }
      if part !in files { times := times[p.folder.path := Arrived]; }
      pending := pending - {id};
      files := files[part := entry.value];
      fail := Bytes(p, from);
    }

    /** File `p`'s bytes, those before `from` in its part already. */
    method Bytes(p: Pending, from: nat) returns (fail: Option<Fail>)
      modifies this
      ensures |input| <= |old(input)|
      ensures Goes(old(Mid(p, from, from)), old(input), old(replies), fail)
    {
      hide Received, Receive.CloseReady, Finished, Plays;
      ghost var was, items, answers := Mid(p, from, from), input, replies;
      var at: nat := from;
      while true
        invariant replies == answers && |input| <= |old(input)|
        invariant Plays(was, items, answers) == Plays(Mid(p, from, at), input, answers)
        decreases |input|
      {
        var more;
        fail, more := Write(p, from, at);
        if fail.Some? { return; }
        if more.None? { break; }
        at := more.value;
      }
      fail := Rename(p, from, at);
    }

    /** The file is all there: it gets its mode and time, and takes its name's place. */
    method Rename(p: Pending, from: nat, at: nat) returns (fail: Option<Fail>)
      modifies this
      ensures input == old(input) && replies == old(replies)
      ensures match Finished(old(Now()).(landing := Some(Landing(p, from, at))))
              case Ok(t) => fail.None? && Now() == t
              case Err(f, left) => fail == Some(f) && files == left
    {
      hide Receive.CloseReady;
      var part, path := PartPath(p), PathIn(p.folder, p.header.name);
      if part !in files || !files[part].File? { return Some(Io); }
      var time := if opts.keepTimes && p.header.mtime.Some? then At(p.header.mtime.value) else Arrived;
      var entry := files[part].(mode := Landed(p.header.mode), time := time);
      if IsDir(files, path) {
        files := files[part := entry];
        return Some(Io);
      }
      files := (files - {part})[path := entry];
      times := times[p.folder.path := Arrived];
      CountWritten(p, from);
      CloseReady();
      return None;
    }

    /** Whether going on from here comes to what `items` come to, or has come to it. */
    ghost predicate Goes(s: State, items: seq<Item>, answers: seq<Answer>, fail: Option<Fail>)
      reads this
    {
      Plays(s, items, answers) ==
      if fail.Some? then Heard(files, None, fail, replies) else Plays(Now(), input, replies)
    }

    /** Land what `input` brings: what was done, or why it stopped. */
    method Run() returns (done: Option<Summary>, fail: Option<Fail>)
      modifies this
      ensures Plays(old(Now()), old(input), old(replies)) == Heard(files, done, fail, replies)
    {
      hide Received, Receive.CloseReady;
      ghost var was, items, answers := Now(), input, replies;
      while true
        invariant Plays(was, items, answers) == Plays(Now(), input, replies)
        decreases |input|
      {
        ghost var s, rest, said := Now(), input, replies;
        var next := Next();
        if next.None? { return None, Some(Truncated); }
        var item := next.value;
        if item.DoneItem? {
          BetweenIs(s, rest, said);
          if open == [] && pending == map[] { return Some(summary), None; }
          return None, Some(Malformed);
        }
        fail := Take(item);
        if fail.Some? { return None, fail; }
      }
    }

    /** What an item that is not the last comes to. */
    method Take(item: Item) returns (fail: Option<Fail>)
      requires !item.DoneItem?
      modifies this
      ensures |input| <= |old(input)|
      ensures Goes(old(Now()), [item] + old(input), old(replies), fail)
    {
      hide Received, Receive.CloseReady, Receive.Enter, Receive.Symlink, Receive.Header, Receive.Same, Receive.Leave, Receive.Saw;
      ghost var s, rest, said := Now(), [item] + input, replies;
      BetweenIs(s, rest, said);
      assert rest[0] == item && rest[1..] == input;
      match item
      case FailedItem => return Some(Theirs);
      case EndItem => fail := Leave();
      case SkippedItem(n) =>
        if open == [] { return Some(Malformed); }
        fail := Saw(n);
        summary := summary.(skipped := summary.skipped + 1);
      case DataItem(id, from) =>
        if opts.dryRun { return Some(Malformed); }
        fail := Data(id, from);
      case DiffersItem(id, from) =>
        if !opts.dryRun { return Some(Malformed); }
        fail := Differs(id, from);
      case SameItem(id) => fail := Same(id);
      case ContentsItem(mode, mtime) =>
        if open != [] { return Some(Malformed); }
        if named.Some? {
          var parent, name;
          fail, parent, name := Place(named.value);
          if fail.Some? { return; }
          fail := Enter(parent, name, mode, mtime);
        } else {
          OpenDir(Folder([], top.present, None, if opts.keepTimes then mtime else None, Inside(top)));
          fail := None;
        }
      case DirItem(n, mode, mtime) =>
        var parent, name;
        fail, parent, name := Place(n);
        if fail.Some? { return; }
        fail := Enter(parent, name, mode, mtime);
      case FileItem(header) =>
        var parent, name;
        fail, parent, name := Place(header.name);
        if fail.Some? { return; }
        fail := File(parent, header.(name := name));
      case LinkItem(n, target) =>
        var parent, name;
        fail, parent, name := Place(n);
        if fail.Some? { return; }
        fail := Symlink(parent, name, target);
      case ChunkItem(_) => return Some(Malformed);
      case SentItem => return Some(Malformed);
    }
  }

  // ---- a stream of items -----------------------------------------------------------------------------------

  /** What a stream comes to: what is there, what was done or why it stopped, and the answers. */
  datatype Heard = Heard(files: Files, done: Option<Summary>, fail: Option<Fail>, answers: seq<Answer>)

  /** What `items` come to, the stream ending after them if nothing stops it before. */
  ghost function Plays(s: State, items: seq<Item>, answers: seq<Answer>): Heard
    decreases |items|
  {
    if items == [] then Heard(s.files, None, Some(Truncated), answers)
    else
      match Received(s, items[0])
      case On(t, answer) => Plays(t, items[1..], if answer.Some? then answers + [answer.value] else answers)
      case Over(files, summary, fail) => Heard(files, summary, fail, answers)
  }

  /** What the items after a step come to. */
  ghost function Stepped(r: Step, items: seq<Item>, answers: seq<Answer>): Heard {
    match r
    case On(t, answer) => Plays(t, items, if answer.Some? then answers + [answer.value] else answers)
    case Over(files, summary, fail) => Heard(files, summary, fail, answers)
  }

  ghost function Onward(r: Result<State>, items: seq<Item>, answers: seq<Answer>): Heard {
    Stepped(Went(r), items, answers)
  }

  lemma DataIs(s: State, items: seq<Item>, answers: seq<Answer>)
    requires s.landing.None? && !s.opts.dryRun && items != [] && items[0].DataItem?
    ensures Plays(s, items, answers) ==
            Onward(Data(s, items[0].id, items[0].from), items[1..], answers)
  {
    hide Data;
  }

  lemma MidIs(s: State, items: seq<Item>, answers: seq<Answer>)
    requires s.landing.Some?
    ensures items != [] && items[0].ChunkItem? ==>
              Plays(s, items, answers) == Onward(Chunk(s, items[0].bytes), items[1..], answers)
    ensures items != [] && items[0].SentItem? ==>
              Plays(s, items, answers) == Onward(Finished(s), items[1..], answers)
    ensures items != [] && !items[0].ChunkItem? && !items[0].SentItem? ==>
              Plays(s, items, answers) == Heard(s.files, None, Some(Malformed), answers)
  {
    hide Chunk, Finished;
  }

  lemma BetweenIs(s: State, items: seq<Item>, answers: seq<Answer>)
    requires s.landing.None? && items != []
    ensures Plays(s, items, answers) ==
            Stepped(Between(s, items[0]), items[1..], answers)
  {
    hide Between;
  }

  function NamesIn(files: Files, d: Path): (names: set<Path>)
    ensures forall q :: q in names <==> q in files && |q| == |d| + 1 && d <= q
  {
    set p | p in files && |p| == |d| + 1 && d <= p
  }

  lemma NamesBeside(s: State, d: Path, names: set<Path>, tops: set<Path>, q: Path)
    requires names == NamesIn(s.files, d) && tops <= names && q in names && q !in tops
    ensures Beside(tops, q)
  {
  }

  // ---- removing entries one by one ---------------------------------------------------------------------------

  lemma NoneRemoved(s: State, folder: Folder)
    ensures Removed(s, folder, {}) == s
  {
    assert (set p | p in s.files && Below({}, p)) == {};
  }

  predicate Beside(tops: set<Path>, q: Path) {
    forall t :: t in tops ==> |t| == |q| && t != q
  }

  lemma HeldMore(files: Files, tops: set<Path>, q: Path)
    requires Beside(tops, q)
    ensures Held(files, tops + {q}) == Held(files, tops) + Held(files, {q})
  {
    hide Below;
    forall p ensures Below(tops + {q}, p) <==> Below(tops, p) || Below({q}, p) { BelowMore(tops, q, p); }
    var a, b := (set p | p in files && Below(tops, p)), (set p | p in files && Below({q}, p));
    var all := set p | p in files && Below(tops + {q}, p);
    forall p ensures !(p in a && p in b) {
      BelowMore(tops, q, p);
      if q <= p { BelowOne(tops, q, p); }
    }
    assert all == a + b;
  }

  lemma HeldAfter(files: Files, tops: set<Path>, q: Path)
    requires Beside(tops, q)
    ensures Held(WithoutAll(files, tops), {q}) == Held(files, {q})
    ensures WithoutAll(WithoutAll(files, tops), {q}) == WithoutAll(files, tops + {q})
  {
    hide Below;
    forall p ensures Below(tops + {q}, p) <==> Below(tops, p) || Below({q}, p) { BelowMore(tops, q, p); }
    forall p | Below({q}, p) ensures !Below(tops, p) {
      BelowMore(tops, q, p);
      BelowOne(tops, q, p);
    }
    assert (set p | p in WithoutAll(files, tops) && Below({q}, p)) == (set p | p in files && Below({q}, p));
  }

  lemma BelowMore(tops: set<Path>, q: Path, p: Path)
    ensures Below(tops + {q}, p) <==> Below(tops, p) || q <= p
    ensures Below({q}, p) <==> q <= p
  {
    assert q in tops + {q} && q in {q};
    if t :| t in tops && t <= p { assert t in tops + {q}; }
  }

  lemma SameLength(t: Path, q: Path, p: Path)
    requires |t| == |q| && t <= p && q <= p
    ensures t == q
  {
    assert t == p[..|t|] && q == p[..|q|];
  }

  lemma BelowOne(tops: set<Path>, q: Path, p: Path)
    requires Beside(tops, q) && q <= p
    ensures !Below(tops, p)
  {
    forall t | t in tops ensures !(t <= p) {
      if t <= p { SameLength(t, q, p); }
    }
  }

  function FilesLess(s: State, tops: set<Path>): Files {
    if s.opts.dryRun then s.files else WithoutAll(s.files, tops)
  }

  function TimesTouched(s: State, folder: Folder, tops: set<Path>): map<Path, Time> {
    if s.opts.dryRun || tops == {} then s.times else s.times[folder.path := Arrived]
  }

  lemma RemovedParts(s: State, folder: Folder, tops: set<Path>)
    ensures Removed(s, folder, tops) ==
            s.(summary := s.summary.(deleted := s.summary.deleted + Held(s.files, tops)),
               files := FilesLess(s, tops), times := TimesTouched(s, folder, tops))
  {
    hide Held;
    if tops == {} { assert WithoutAll(s.files, {}) == s.files; }
  }

  lemma LessMore(s: State, folder: Folder, tops: set<Path>, q: Path)
    requires Beside(tops, q)
    ensures var t := Removed(s, folder, tops);
            && FilesLess(t, {q}) == FilesLess(s, tops + {q})
            && TimesTouched(t, folder, {q}) == TimesTouched(s, folder, tops + {q})
            && Held(t.files, {q}) + Held(s.files, tops) == Held(s.files, tops + {q})
  {
    hide Held, Removed, WithoutAll, Beside;
    RemovedParts(s, folder, tops);
    HeldMore(s.files, tops, q);
    HeldAfter(s.files, tops, q);
    assert tops + {q} != {};
    assert s.times[folder.path := Arrived][folder.path := Arrived] == s.times[folder.path := Arrived];
  }

  /** Removing one more of a directory's entries. */
  lemma RemovedMore(s: State, folder: Folder, tops: set<Path>, q: Path)
    requires Beside(tops, q)
    ensures Removed(Removed(s, folder, tops), folder, {q}) == Removed(s, folder, tops + {q})
  {
    hide Held, Removed, WithoutAll, Beside, FilesLess, TimesTouched;
    var t := Removed(s, folder, tops);
    RemovedParts(s, folder, tops);
    RemovedParts(t, folder, {q});
    RemovedParts(s, folder, tops + {q});
    LessMore(s, folder, tops, q);
  }

  lemma UnsentNone(s: State, d: Open)
    requires d.seen.None? || !d.folder.present
    ensures Unsent(s, d) == {}
  {
  }

  /** What goes is said name by name. */
  lemma UnsentHas(s: State, d: Open, q: Path)
    requires d.seen.Some? && d.folder.present && q in s.files && |q| == |d.folder.path| + 1 && d.folder.path <= q
    ensures var n := q[|d.folder.path|];
            q in Unsent(s, d) <==> !Excluded(s.opts.excludes, n, Written(RelTo(s.tree, q))) && n !in d.seen.value
  {
  }

  lemma UnsentNames(s: State, d: Open, q: Path)
    requires q in Unsent(s, d)
    ensures q in s.files && |q| == |d.folder.path| + 1 && d.folder.path <= q
  {
  }

  lemma UnsentSame(s: State, t: State, d: Open)
    requires s.files == t.files && s.opts == t.opts && s.tree == t.tree
    ensures Unsent(s, d) == Unsent(t, d)
  {
  }
}
