/** What is sent of each file, said of the two trees alone: nothing if it is there as it is, its bytes from where its part
    ends, or all of them. */
module Resume {
  import opened Bytes
  import opened Files
  import opened Walk
  import opened Course
  import opened Receive
  import opened Landing
  import opened Names
  import opened FileSteps
  import opened Protocol
  import opened Tally
  import opened Ends
  import opened Runs

  /** The file there has the source's content. */
  ghost predicate IsThere(copy: Copy, p: Path)
    requires SentFile(copy, p)
  {
    p in copy.there && copy.there[p].File? && copy.there[p].content == Look(copy, p).value.content
  }

  /** The byte to go on from: where the part there ends, if it is a beginning of the source's content; but no part is looked
      at where a file of the source's size stands. */
  ghost function GoesOnFrom(copy: Copy, p: Path): nat
    requires SentFile(copy, p) && p != []
  {
    var content := Look(copy, p).value.content;
    if !SizeThere(copy, p, |content|) && PartOf(p) in copy.there && copy.there[PartOf(p)].File? && copy.there[PartOf(p)].content <= content
    then |copy.there[PartOf(p)].content| else 0
  }

  /** What is said of the file at `p`: that it is the same; in a dry run, from where it would be sent; or its bytes, from
      there. */
  ghost predicate SaysOf(copy: Copy, p: Path, id: nat, item: Item)
    requires SentFile(copy, p) && p != []
  {
    if IsThere(copy, p) then item == SameItem(id)
    else if copy.opts.dryRun then item == DiffersItem(id, GoesOnFrom(copy, p))
    else item == DataItem(id, GoesOnFrom(copy, p))
  }

  /** In every run, whatever is said of a file is what the trees say: it is called the same if and only if the same
      content is there, and else its bytes go on from the end of its part if and only if that is a beginning of them. */
  lemma SaidIsSo(copy: Copy, acts: seq<Act>)
    requires Starts(copy) && Play(copy, acts).Some?
    requires var y := Play(copy, acts).value;
             y.receiver.Running? && y.pipe != [] && (y.pipe[0].SameItem? || y.pipe[0].DiffersItem? || y.pipe[0].DataItem?)
    ensures var item, files := Play(copy, acts).value.pipe[0], FilesAt(copy, FarOf(copy, acts));
            && item.id < |files| && files[item.id].path != [] && SentFile(copy, files[item.id].path)
            && SaysOf(copy, files[item.id].path, item.id, item)
  {
    hide Play, IsAt, Reached, Sources, SenderAt, RepliesAre, AnswerOf, SendFrom, IsSame, Leads;
    var y := Play(copy, acts).value;
    var far, pos := RunSound(copy, acts);
    assert (y.pipe + y.buf)[0] == y.pipe[0];
    LeadsTo(copy, far, y.pipe + y.buf, pos);
    SaidFor(copy, far, y.pipe[0]);
  }

  lemma SaidFor(copy: Copy, far: Pos, item: Item)
    requires Starts(copy) && After(copy, far, item).Some? && (item.SameItem? || item.DiffersItem? || item.DataItem?)
    ensures HasFile(copy, far) && item.id == far.m
    ensures var p := FilesAt(copy, far)[far.m].path; p != [] && SentFile(copy, p) && SaysOf(copy, p, item.id, item)
  {
    hide Reached, Good, Logged, Sources, Goes, AllSent;
    NextFileIs(copy, far.k, far.m);
    GoesOnIs(copy, FilesAt(copy, far)[far.m], far.m);
  }

  lemma GoesOnIs(copy: Copy, head: Head, id: nat)
    requires head.FileHead? && head.path != [] && Look(copy, head.path) == Some(NFile(head.content, head.mode, head.mtime))
    ensures SentFile(copy, head.path)
    ensures IsSame(head.content, AnswerOf(copy, head, id)) <==> IsThere(copy, head.path)
    ensures !IsThere(copy, head.path) ==> SendFrom(head.content, AnswerOf(copy, head, id)) == GoesOnFrom(copy, head.path)
  {
    var part := Get(copy.there, PartOf(head.path));
    if part.Some? && part.value.File? {
      assert part.value.content <= head.content <==>
             |part.value.content| <= |head.content| && part.value.content == head.content[..|part.value.content|];
    }
  }
}
