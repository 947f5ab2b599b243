/** A dry run tells the truth: what it counts is what the copy would do. */
module DryRun {
  import opened Files
  import opened Walk
  import opened Course
  import opened Receive
  import opened Landing
  import opened EndSteps
  import opened FileSteps
  import opened Counting
  import opened Protocol
  import opened Tally
  import opened Ends
  import opened Converge
  import opened Cut

  /** The same copy, as a dry run. */
  function Dry(copy: Copy): Copy {
    copy.(opts := copy.opts.(dryRun := true))
  }

  lemma {:induction false} DryKept(copy: Copy, entries: seq<Named>, rel: Path)
    ensures Kept(Dry(copy).opts, entries, rel) == Kept(copy.opts, entries, rel)
  {
    if entries != [] { DryKept(copy, entries[1..], rel); }
  }

  lemma {:induction false} DryTop(copy: Copy, i: nat, p: Path)
    requires i <= |copy.sources|
    ensures TopFrom(Dry(copy), i, p) == TopFrom(copy, i, p)
    decreases |copy.sources| - i
  {
    if i < |copy.sources| { DryTop(copy, i + 1, p); }
  }

  lemma {:induction false} DryLooks(copy: Copy, p: Path)
    ensures Look(Dry(copy), p) == Look(copy, p)
    decreases |p|
  {
    if |p| == Base(copy) {
      DryTop(copy, 0, p);
    } else if |p| > Base(copy) {
      DryLooks(copy, Parent(p));
      var above := Look(copy, Parent(p));
      if above.Some? && above.value.NDir? { DryKept(copy, above.value.entries, RelOf(copy, Parent(p))); }
    }
  }

  lemma DryNext(copy: Copy, w: Walk)
    ensures Goes(Dry(copy), w) <==> Goes(copy, w)
    ensures Goes(copy, w) ==> NextHead(Dry(copy), w) == NextHead(copy, w) && Next(Dry(copy), w) == Next(copy, w)
  {
    if Goes(copy, w) {
      var head := NextHead(copy, w);
      var node := if w.frames == [] then NodeOf(copy.sources[w.begun])
                  else if Last(w.frames).rest == [] then NOther else Last(w.frames).rest[0].node;
      if node.NDir? { DryKept(copy, node.entries, RelOf(copy, head.path)); }
    }
  }

  /** A dry run walks the sources as the copy does. */
  lemma {:induction false} DryReached(copy: Copy, k: nat)
    ensures Reached(Dry(copy), k) == Reached(copy, k)
    ensures Steps(Dry(copy), k) <==> Steps(copy, k)
  {
    hide Next, Goes, NextHead;
    if k > 0 {
      DryReached(copy, k - 1);
      DryNext(copy, Reached(copy, k - 1));
    }
  }

  lemma DryGoner(copy: Copy, d: Path, p: Path)
    ensures Goner(Dry(copy), d, p) <==> Goner(copy, d, p)
  {
    hide Look;
    if d <= p && d != p { DryLooks(copy, p[..|d| + 1]); }
  }

  lemma DryGoners(copy: Copy, d: Path)
    ensures GonerCount(Dry(copy), d) == GonerCount(copy, d)
  {
    hide Goner;
    forall p ensures Goner(Dry(copy), d, p) <==> Goner(copy, d, p) { DryGoner(copy, d, p); }
    assert (set p | p in copy.there && Goner(copy, d, p)) == (set p | p in copy.there && Goner(Dry(copy), d, p));
  }

  lemma DryHeadCount(copy: Copy, w: Walk)
    requires Goes(copy, w)
    ensures Goes(Dry(copy), w) && HeadCount(Dry(copy), w) == HeadCount(copy, w)
  {
    DryNext(copy, w);
    if NextHead(copy, w).EndHead? { DryGoners(copy, NextHead(copy, w).path); }
  }

  lemma {:induction false} DryHeads(copy: Copy, k: nat)
    ensures HeadsTotal(Dry(copy), k) == HeadsTotal(copy, k)
  {
    hide HeadCount, Goes;
    if k > 0 {
      DryHeads(copy, k - 1);
      DryReached(copy, k - 1);
      var w := Reached(copy, k - 1);
      DryNext(copy, w);
      if Goes(copy, w) { DryHeadCount(copy, w); }
    }
  }

  lemma DryFileCount(copy: Copy, head: Head, id: nat)
    requires head.FileHead? && head.path != []
    ensures FileCount(Dry(copy), head, id) == FileCount(copy, head, id)
  {
  }

  lemma {:induction false} DryFiles(copy: Copy, files: seq<Head>, m: nat)
    ensures FilesTotal(Dry(copy), files, m) == FilesTotal(copy, files, m)
  {
    hide FileCount;
    if m > 0 {
      DryFiles(copy, files, m - 1);
      if m <= |files| && files[m - 1].FileHead? && files[m - 1].path != [] { DryFileCount(copy, files[m - 1], m - 1); }
    }
  }

  /** All of a walk is sent after one number of steps only. */
  lemma OneEnd(copy: Copy, j: nat, k: nat)
    requires Steps(copy, j) && Steps(copy, k) && AllSent(copy, Reached(copy, j)) && AllSent(copy, Reached(copy, k))
    ensures j == k
  {
    if j < k { NoStepsPast(copy, j, k); }
    if k < j { NoStepsPast(copy, k, j); }
  }

  lemma {:induction false} NoStepsPast(copy: Copy, j: nat, k: nat)
    requires j < k && AllSent(copy, Reached(copy, j))
    ensures !Steps(copy, k)
    decreases k
  {
    if j < k - 1 { NoStepsPast(copy, j, k - 1); }
  }

  /** From a destination with no part left there, a dry run and the copy count the same, both ending
      well, whatever order their answers and bytes come in: files new, replaced and the same, bytes,
      directories, symlinks, and entries deleted and skipped. */
  lemma TellsTheTruth(copy: Copy, acts: seq<Act>, dry: seq<Act>)
    requires Starts(copy) && !copy.opts.dryRun && NoParts(copy.there)
    requires Play(copy, acts).Some? && Play(Dry(copy), dry).Some?
    requires Play(copy, acts).value.receiver.Stopped? && Play(copy, acts).value.receiver.summary.Some?
    requires Play(Dry(copy), dry).value.receiver.Stopped? && Play(Dry(copy), dry).value.receiver.summary.Some?
    ensures Play(Dry(copy), dry).value.receiver.summary == Play(copy, acts).value.receiver.summary
    ensures Play(Dry(copy), dry).value.receiver.files == copy.there
  {
    hide Play, Stands, Good, Logged, HeadsTotal, FilesTotal, Reached, Clean;
    AgainDry(copy);
    var far, s := EndsWell(copy, acts);
    var far', s' := EndsWell(Dry(copy), dry);
    assert Steps(copy, far.k) && Steps(Dry(copy), far'.k) by { StandsSteps(copy, far, s); StandsSteps(Dry(copy), far', s'); }
    DryReached(copy, far'.k);
    OneEnd(copy, far.k, far'.k);
    DryHeads(copy, far.k);
    DryFiles(copy, FilesAt(copy, far), far.m);
    CutSafe(Dry(copy), dry, []);
  }

  lemma StandsSteps(copy: Copy, far: Pos, s: State)
    requires Stands(copy, far, s)
    ensures Steps(copy, far.k)
  {
  }

  lemma AgainDry(copy: Copy)
    requires Starts(copy)
    ensures Starts(Dry(copy))
  {
    assert forall i :: 0 <= i < |copy.sources| ==> LandsAs(Dry(copy), copy.sources[i]) == LandsAs(copy, copy.sources[i]);
  }

  /** With no part left there, none is gone on from: bytes are the files' own, and none resumed. */
  lemma NoneResumed(copy: Copy, w: Walk, m: nat)
    requires NextFile(copy, w, m) && NoParts(copy.there)
    ensures SendFrom(w.files[m].content, AnswerOf(copy, w.files[m], m)) == 0
  {
    PartsDiffer(w.files[m].path, w.files[m].path);
  }
}
