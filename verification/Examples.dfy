/** Copies that show what the theorems leave out does happen. */
module Examples {
  import opened Bytes
  import opened Glob
  import opened Files
  import opened Walk
  import opened Course
  import opened Receive
  import opened Landing
  import opened Heads
  import opened Protocol
  import opened Ends
  import opened Converge
  import opened Cut

  // ---- a directory left open -----------------------------------------------------------------------------

  /** Any copy of one directory that is not there yet, whose mode a directory is not made with. */
  ghost predicate OneDirectory(copy: Copy, n: Name, mode: nat) {
    && Starts(copy) && copy.named.None? && !copy.opts.keepTimes && !copy.opts.dryRun
    && |copy.sources| == 1 && copy.sources[0].Entry? && copy.sources[0].named.name == n
    && copy.sources[0].named.node.NDir? && copy.sources[0].named.node.mode == mode
    && [n] !in copy.there && Landed(mode) != 0x1c0
  }

  const CUT_SHORT := [SendHeader, Flush(1), Receive, Act.Cut]

  ghost function AfterHeader(copy: Copy, n: Name, mode: nat): Copying
    requires OneDirectory(copy, n, mode)
  {
    var node := copy.sources[0].named.node;
    Copying(Sender(1, {}, None, Free), [DirItem(n, node.mode, node.mtime)], [], [], Running(Begin(copy)))
  }

  lemma HeaderFirst(copy: Copy, n: Name, mode: nat)
    requires OneDirectory(copy, n, mode)
    ensures Do(copy, Init(copy), SendHeader) == Some(AfterHeader(copy, n, mode))
  {
    var w := Walk([], 0, []);
    var node := copy.sources[0].named.node;
    assert Reached(copy, 0) == w && Goes(copy, w);
    assert NextHead(copy, w) == DirHead([n], n, node.mode, node.mtime);
    assert [] + [DirItem(n, node.mode, node.mtime)] == [DirItem(n, node.mode, node.mtime)];
  }

  lemma DirectoryMade(copy: Copy, n: Name, mode: nat, mtime: Option<nat>)
    requires OneDirectory(copy, n, mode)
    ensures var r := Received(Begin(copy), DirItem(n, mode, mtime));
            r.On? && r.answer.None? && r.state.files == copy.there[[n] := Dir(0x1c0)]
  {
    var s := Begin(copy).(placed := 1);
    assert Place(Begin(copy), n) == Ok((s, TOP, n));
    assert Saw(s, n) == Ok(s);
    assert PathIn(TOP, n) == [n];
    assert Stat(s, TOP, n).None?;
  }

  lemma {:induction false} Plays(copy: Copy, acts: seq<Act>, act: Act)
    requires Play(copy, acts).Some?
    ensures Play(copy, acts + [act]) == Do(copy, Play(copy, acts).value, act)
  {
    assert (acts + [act])[..|acts|] == acts;
  }

  /** Cut after its first header, the copy leaves the directory with mode 0700; the copy run again
      does not set it, as it did not make it. */
  lemma LeftOpenHappens(copy: Copy, n: Name, mode: nat)
    requires OneDirectory(copy, n, mode)
    ensures Play(copy, CUT_SHORT).Some? && Play(copy, CUT_SHORT).value.receiver.Stopped?
    ensures var files := FilesNow(Play(copy, CUT_SHORT).value);
            && !ComesToTheSame(copy, files)
            && Merged(copy, [n]) == Some(Dir(Landed(mode))) && Merged(Again(copy, files), [n]) == Some(Dir(0x1c0))
  {
    hide Do, Received, Merged, Landed;
    var node := copy.sources[0].named.node;
    var a := AfterHeader(copy, n, mode);
    HeaderFirst(copy, n, mode);
    TheRest(copy, n, mode);
    Plays(copy, [], SendHeader);
    assert [SendHeader] == [] + [SendHeader];
    Plays(copy, [SendHeader], Flush(1));
    assert [SendHeader, Flush(1)] == [SendHeader] + [Flush(1)];
    Plays(copy, [SendHeader, Flush(1)], Act.Receive);
    assert [SendHeader, Flush(1), Act.Receive] == [SendHeader, Flush(1)] + [Act.Receive];
    Plays(copy, [SendHeader, Flush(1), Act.Receive], Act.Cut);
    assert CUT_SHORT == [SendHeader, Flush(1), Act.Receive] + [Act.Cut];
    var files := copy.there[[n] := Dir(0x1c0)];
    TopIsSent(copy, n, mode);
    AgainDir(copy, files, [n], false);
    ModesLeft(copy, n, mode);
    assert Plain([n]);
  }

  lemma ModesLeft(copy: Copy, n: Name, mode: nat)
    requires OneDirectory(copy, n, mode)
    ensures Merged(copy, [n]) == Some(Dir(Landed(mode)))
    ensures Merged(Again(copy, copy.there[[n] := Dir(0x1c0)]), [n]) == Some(Dir(0x1c0))
  {
    hide Look, Landed;
    TopIsSent(copy, n, mode);
    AgainLooks(copy, copy.there[[n] := Dir(0x1c0)], [n]);
  }

  lemma TheRest(copy: Copy, n: Name, mode: nat)
    requires OneDirectory(copy, n, mode)
    ensures var b := Do(copy, AfterHeader(copy, n, mode), Flush(1));
            && b.Some?
            && var c := Do(copy, b.value, Act.Receive);
               && c.Some?
               && var d := Do(copy, c.value, Act.Cut);
                  && d.Some? && d.value.receiver.Stopped?
                  && FilesNow(d.value) == copy.there[[n] := Dir(0x1c0)]
  {
    hide Received;
    DirectoryMade(copy, n, mode, copy.sources[0].named.node.mtime);
  }

  lemma TopIsSent(copy: Copy, n: Name, mode: nat)
    requires OneDirectory(copy, n, mode)
    ensures SentDir(copy, [n]) && Look(copy, [n]).value == copy.sources[0].named.node && Made(copy, [n]) && Plain([n])
  {
    assert LandingOf(copy, copy.sources[0]) == [n];
    assert !IsPart(LandsAs(copy, copy.sources[0]).value);
  }

  // ---- a failure called malformed --------------------------------------------------------------------------

  /** Any copy of one file that is not there yet, nor a part of it. */
  ghost predicate OneFile(copy: Copy, n: Name) {
    && Starts(copy) && copy.named.None? && !copy.opts.dryRun
    && |copy.sources| == 1 && copy.sources[0].Entry? && copy.sources[0].named.name == n
    && copy.sources[0].named.node.NFile? && [n] !in copy.there && [PartName(n)] !in copy.there
  }

  const GIVEN_UP := [SendHeader, Flush(1), Receive, TakeAnswer, GiveUp, Receive, Receive]

  ghost function HeadFor(copy: Copy, n: Name): FileHeader
    requires OneFile(copy, n)
  {
    var node := copy.sources[0].named.node;
    FileHeader(0, n, node.mode, node.mtime, |node.content|)
  }

  /** The receiver, told of the file. */
  ghost function ToldOf(copy: Copy, n: Name): State
    requires OneFile(copy, n)
  {
    Begin(copy).(placed := 1, pending := map[0 := Pending(TOP, HeadFor(copy, n), false)])
  }

  lemma WalksFile(copy: Copy, n: Name)
    requires OneFile(copy, n)
    ensures var node := copy.sources[0].named.node;
            && Reached(copy, 0) == Walk([], 0, []) && Goes(copy, Reached(copy, 0))
            && NextHead(copy, Reached(copy, 0)) == FileHead([n], n, node.content, node.mode, node.mtime)
            && Reached(copy, 1) == Walk([], 1, [FileHead([n], n, node.content, node.mode, node.mtime)])
  {
    var node := copy.sources[0].named.node;
    assert LandingOf(copy, copy.sources[0]) == [n];
    assert [] + [FileHead([n], n, node.content, node.mode, node.mtime)] == [FileHead([n], n, node.content, node.mode, node.mtime)];
  }

  /** With nothing there, all of the file is wanted. */
  lemma HeaderTaken(copy: Copy, n: Name)
    requires OneFile(copy, n)
    ensures Received(Begin(copy), FileItem(HeadFor(copy, n))) == Step.On(ToldOf(copy, n), Some(Want(0, 0, None)))
  {
    var s := Begin(copy).(placed := 1);
    assert Place(Begin(copy), n) == Ok((s, TOP, n));
    assert Stat(s, TOP, n).None? && Stat(s, TOP, PartName(n)).None?;
    assert map[][0 := Pending(TOP, HeadFor(copy, n), false)] == map[0 := Pending(TOP, HeadFor(copy, n), false)];
  }

  lemma FailsMidFile(copy: Copy, n: Name)
    requires OneFile(copy, n)
    ensures var r := Received(ToldOf(copy, n), DataItem(0, 0));
            && r.On? && r.answer.None? && r.state.landing.Some?
            && Received(r.state, FailedItem) == Over(r.state.files, None, Some(Malformed))
  {
    var s := ToldOf(copy, n);
    assert PathIn(TOP, PartName(n)) == [PartName(n)];
    assert Data(s, 0, 0).Ok?;
  }

  lemma HeaderGoes(copy: Copy, n: Name)
    requires OneFile(copy, n)
    ensures Play(copy, [SendHeader, Flush(1)]) ==
            Some(Copying(Sender(1, {0}, None, Taking), [], [FileItem(HeadFor(copy, n))], [], Running(Begin(copy))))
  {
    hide Received, Reached;
    WalksFile(copy, n);
    Plays(copy, [], SendHeader);
    assert [SendHeader] == [] + [SendHeader];
    var item := FileItem(HeadFor(copy, n));
    assert Play(copy, []) == Some(Init(copy));
    assert {} + {0} == {0} && |{0}| == 1;
    assert [] + [item] == [item];
    assert Play(copy, [SendHeader]) == Some(Copying(Sender(1, {0}, None, Taking), [item], [], [], Running(Begin(copy))));
    Plays(copy, [SendHeader], Flush(1));
    assert [SendHeader, Flush(1)] == [SendHeader] + [Flush(1)];
    assert [item][1..] == [] && [] + [item][..1] == [item];
  }

  lemma AnswerComes(copy: Copy, n: Name)
    requires OneFile(copy, n)
    ensures Play(copy, [SendHeader, Flush(1), Act.Receive]) ==
            Some(Copying(Sender(1, {0}, None, Taking), [], [], [Want(0, 0, None)], Running(ToldOf(copy, n))))
  {
    hide Received, Reached, Play;
    HeaderGoes(copy, n);
    HeaderTaken(copy, n);
    var item := FileItem(HeadFor(copy, n));
    Plays(copy, [SendHeader, Flush(1)], Act.Receive);
    assert [item][1..] == [] && [] + [Want(0, 0, None)] == [Want(0, 0, None)];
    assert [SendHeader, Flush(1)] + [Act.Receive] == [SendHeader, Flush(1), Act.Receive];
  }

  lemma AnswerGoes(copy: Copy, n: Name)
    requires OneFile(copy, n)
    ensures Play(copy, [SendHeader, Flush(1), Act.Receive, TakeAnswer]) ==
            Some(Copying(Sender(1, {}, Some(Sending(0, 0)), Taking), [DataItem(0, 0)], [], [], Running(ToldOf(copy, n))))
  {
    hide Received, Reached, Play, ToldOf, OneFile;
    var begun := [SendHeader, Flush(1), Act.Receive];
    AnswerComes(copy, n);
    FileSent(copy, n);
    Plays(copy, begun, TakeAnswer);
    assert [Want(0, 0, None)][1..] == [] && {0} - {0} == {} && [] + [DataItem(0, 0)] == [DataItem(0, 0)];
    assert begun + [TakeAnswer] == [SendHeader, Flush(1), Act.Receive, TakeAnswer];
  }

  lemma FileSent(copy: Copy, n: Name)
    requires OneFile(copy, n)
    ensures |Reached(copy, 1).files| == 1 && Reached(copy, 1).files[0].FileHead? && !copy.opts.dryRun
  {
    WalksFile(copy, n);
  }

  lemma GivesUp(copy: Copy, n: Name)
    requires OneFile(copy, n)
    ensures Play(copy, [SendHeader, Flush(1), Act.Receive, TakeAnswer, GiveUp]) ==
            Some(Copying(Sender(1, {}, Some(Sending(0, 0)), Quit(Ending.GaveUp)), [], [DataItem(0, 0), FailedItem], [],
                         Running(ToldOf(copy, n))))
  {
    hide Received, Reached, Play, ToldOf, OneFile;
    var begun := [SendHeader, Flush(1), Act.Receive, TakeAnswer];
    AnswerGoes(copy, n);
    Plays(copy, begun, GiveUp);
    assert [] + [DataItem(0, 0)] + [FailedItem] == [DataItem(0, 0), FailedItem];
    assert begun + [GiveUp] == [SendHeader, Flush(1), Act.Receive, TakeAnswer, GiveUp];
  }

  /** A sender that gives up once it began a file says so, and is reported as malformed. */
  lemma CalledMalformed(copy: Copy, n: Name)
    requires OneFile(copy, n)
    ensures Play(copy, GIVEN_UP).Some? && Play(copy, GIVEN_UP).value.sender.mode == Quit(Ending.GaveUp)
    ensures var r := Play(copy, GIVEN_UP).value.receiver; r.Stopped? && r.fail == Some(Malformed)
  {
    hide Received, Reached, Play;
    GivesUp(copy, n);
    FailsMidFile(copy, n);
    var begun := [SendHeader, Flush(1), Act.Receive, TakeAnswer, GiveUp];
    Plays(copy, begun, Act.Receive);
    assert [DataItem(0, 0), FailedItem][1..] == [FailedItem];
    Plays(copy, begun + [Act.Receive], Act.Receive);
    assert begun + [Act.Receive] + [Act.Receive] == GIVEN_UP;
  }

  // ---- an excluded entry that goes -------------------------------------------------------------------------

  /** A byte that stands for itself in a pattern. */
  predicate Ordinary(b: byte) {
    b != STAR && b != QUESTION && b != OPEN && b != SLASH
  }

  lemma MeansItself(b: byte, text: seq<byte>)
    requires Ordinary(b)
    ensures Means([b], text) <==> text == [b]
  {
    MeansSpells([b], text);
    assert TokenAt([b], 0) == (Lit(b), 1);
    assert TokensFrom([b], 1) == End;
    assert TokensFrom([b], 0) == Then(Lit(b), End);
    if text != [] && text[0] == b { assert Spells(End, text, 1) <==> |text| == 1; }
  }

  /** A directory `top` holds `gone`, which holds `kept`; the source has `top` alone, and `kept` is
      excluded. */
  ghost predicate OneExcluded(copy: Copy, top: byte, gone: byte, kept: byte) {
    && Starts(copy) && copy.named.None? && copy.opts.delete && copy.opts.excludes == [Pattern([kept])]
    && Ordinary(kept) && gone != kept
    && |copy.sources| == 1 && copy.sources[0].Entry? && copy.sources[0].named.name == [top]
    && copy.sources[0].named.node.NDir? && copy.sources[0].named.node.entries == []
    && [[top], [gone], [kept]] in copy.there
  }

  /** The excluded entry goes, with the directory it is in, which is not excluded itself. */
  lemma ExcludedGoes(copy: Copy, top: byte, gone: byte, kept: byte)
    requires OneExcluded(copy, top, gone, kept)
    ensures Skips(copy.opts, [kept], [[gone], [kept]])
    ensures Merged(copy, [[top], [gone], [kept]]) == None
  {
    var p: Path := [[top], [gone], [kept]];
    MeansItself(kept, [kept]);
    MeansItself(kept, [gone]);
    assert copy.opts.excludes[0] == Pattern([kept]);
    assert LandingOf(copy, copy.sources[0]) == [[top]];
    assert Look(copy, [[top]]) == Some(copy.sources[0].named.node);
    assert Parent([[top], [gone]]) == [[top]] && Parent(p) == [[top], [gone]];
    assert Look(copy, [[top], [gone]]).None?;
    assert Look(copy, p).None?;
    assert p[..1] == [[top]] && p[..2] == [[top], [gone]];
    assert DroppedAt(copy, p, 1);
  }
}
