/** The entries a copy lands among, as one map from paths, and the tree it copies. */
module Files {
  import opened Bytes
  import opened Glob

  type Name = seq<byte>
  type Path = seq<Name>

  /** When an entry was last changed: as it landed, or a time it had or was given. */
  datatype Time = Arrived | At(at: nat)

  datatype Entry =
    | File(content: seq<byte>, mode: nat, time: Time)
    | Link(target: seq<byte>)
    | Dir(mode: nat)
    | Other                      // a fifo, socket or device

  type Files = map<Path, Entry>

  function Get(files: Files, p: Path): Option<Entry> {
    if p in files then Some(files[p]) else None
  }

  function Parent(p: Path): Path
    requires p != []
  {
    p[..|p| - 1]
  }

  function Leaf(p: Path): Name
    requires p != []
  {
    p[|p| - 1]
  }

  lemma ChildPath(d: Path, n: Name)
    ensures d + [n] != [] && Parent(d + [n]) == d && Leaf(d + [n]) == n
  {
  }

  predicate IsDir(files: Files, p: Path) {
    p in files && files[p].Dir?
  }

  /** Every entry is in a directory, up to the top one. */
  predicate Whole(files: Files) {
    && IsDir(files, [])
    && forall p :: p in files && p != [] ==> IsDir(files, Parent(p))
  }

  lemma {:induction false} WholeAbove(files: Files, d: Path, p: Path)
    requires Whole(files) && p in files && d <= p && d != p
    ensures IsDir(files, d)
    decreases |p|
  {
    assert d <= Parent(p);
    if d != Parent(p) { WholeAbove(files, d, Parent(p)); }
  }

  /** `files` without the entry at `q` and all it holds. */
  function Without(files: Files, q: Path): Files {
    map p | p in files && !(q <= p) :: files[p]
  }

  /** `files` without the entries at `tops` and all they hold. */
  function WithoutAll(files: Files, tops: set<Path>): Files {
    map p | p in files && !Below(tops, p) :: files[p]
  }

  predicate Below(tops: set<Path>, p: Path) {
    exists q :: q in tops && q <= p
  }

  /** How many entries go with those at `tops`. */
  function Held(files: Files, tops: set<Path>): nat {
    |set p | p in files && Below(tops, p)|
  }

  // ---- the parts of files under way ------------------------------------------------------------

  const PART_BEFORE: seq<byte> := [0x2e, 0x6b, 0x6f, 0x68, 0x2d]      // `.koh-`
  const PART_AFTER: seq<byte> := [0x2e, 0x70, 0x61, 0x72, 0x74]       // `.part`

  /** The name a file's bytes go to before it is whole. The source writes a hash of the name in the
      middle; here it is the name, as no two names have the same hash. */
  function PartName(n: Name): Name {
    PART_BEFORE + n + PART_AFTER
  }

  predicate IsPart(n: Name) {
    |n| >= 10 && n[..5] == PART_BEFORE && n[|n| - 5..] == PART_AFTER
  }

  lemma PartNames(n: Name)
    ensures IsPart(PartName(n))
    ensures PartName(n)[5..|PartName(n)| - 5] == n
  {
  }

  function PartOf(p: Path): Path
    requires p != []
  {
    Parent(p) + [PartName(Leaf(p))]
  }

  /** Outside the parts: no name on the way is a part's. */
  predicate Plain(p: Path) {
    forall i :: 0 <= i < |p| ==> !IsPart(p[i])
  }

  lemma PartsDiffer(p: Path, q: Path)
    requires p != [] && q != []
    ensures !Plain(PartOf(p))
    ensures PartOf(p) == PartOf(q) ==> p == q
  {
    PartNames(Leaf(p));
    PartNames(Leaf(q));
    assert PartOf(p)[|p| - 1] == PartName(Leaf(p));
    if PartOf(p) == PartOf(q) {
      assert Parent(p) == PartOf(p)[..|p| - 1] && Parent(q) == PartOf(q)[..|q| - 1];
      assert p == Parent(p) + [Leaf(p)] && q == Parent(q) + [Leaf(q)];
      assert PartOf(q)[|q| - 1] == PartName(Leaf(q));
    }
  }

  // ---- what is copied ----------------------------------------------------------------------------

  datatype Node =
    | NFile(content: seq<byte>, mode: nat, mtime: Option<nat>)
    | NLink(target: seq<byte>)
    | NDir(mode: nat, mtime: Option<nat>, entries: seq<Named>)
    | NOther

  datatype Named = Named(name: Name, node: Node)

  /** A source of a copy: an entry under its own name, or what is in a directory. */
  datatype Source = Entry(named: Named) | Contents(dir: Node)

  datatype Opts = Opts(keepTimes: bool, delete: bool, dryRun: bool, excludes: seq<Pattern>)

  /** A path as patterns read it: its names, a `/` between each two. */
  function Written(p: Path): seq<byte> {
    if p == [] then [] else if |p| == 1 then p[0] else p[0] + [SLASH] + Written(p[1..])
  }

  /** Whether the entry `n`, at `rel` from the top of the tree copied, is excluded. */
  ghost predicate Skips(opts: Opts, n: Name, rel: Path) {
    Excluded(opts.excludes, n, Written(rel))
  }

  /** The bits an entry lands with: all but setuid and setgid. */
  function Landed(mode: nat): nat {
    mode % 0x400
  }

  function Find(entries: seq<Named>, n: Name): Option<Node> {
    if entries == [] then None
    else if entries[0].name == n then Some(entries[0].node)
    else Find(entries[1..], n)
  }

  predicate Distinct(entries: seq<Named>) {
    forall i, j :: 0 <= i < j < |entries| ==> entries[i].name != entries[j].name
  }

  /** Each directory's names are distinct, and none is a part's. */
  predicate Proper(node: Node) {
    node.NDir? ==>
      && Distinct(node.entries)
      && forall i :: 0 <= i < |node.entries| ==> !IsPart(node.entries[i].name) && Proper(node.entries[i].node)
  }

  /** The entries of `entries`, a directory at `rel`, that are not excluded. */
  ghost function Kept(opts: Opts, entries: seq<Named>, rel: Path): seq<Named> {
    if entries == [] then []
    else if Skips(opts, entries[0].name, rel + [entries[0].name]) then Kept(opts, entries[1..], rel)
    else [entries[0]] + Kept(opts, entries[1..], rel)
  }

  lemma {:induction false} FindIs(entries: seq<Named>, n: Name)
    ensures Find(entries, n).None? <==> forall i :: 0 <= i < |entries| ==> entries[i].name != n
    ensures Find(entries, n).Some? ==> exists i :: 0 <= i < |entries| && entries[i] == Named(n, Find(entries, n).value)
  {
    if entries != [] {
      var rest := entries[1..];
      FindIs(rest, n);
      if entries[0].name == n {
        assert entries[0] == Named(n, Find(entries, n).value);
      } else {
        if Find(rest, n).Some? {
          var i :| 0 <= i < |rest| && rest[i] == Named(n, Find(rest, n).value);
          assert entries[i + 1] == rest[i];
        } else {
          forall i | 0 <= i < |entries| ensures entries[i].name != n {
            if i > 0 { assert entries[i] == rest[i - 1]; }
          }
        }
      }
    }
  }

  lemma {:induction false} KeptIs(opts: Opts, entries: seq<Named>, rel: Path, n: Name)
    ensures Find(Kept(opts, entries, rel), n) ==
            if Skips(opts, n, rel + [n]) then None else Find(entries, n)
  {
    if entries != [] {
      KeptIs(opts, entries[1..], rel, n);
      if !Skips(opts, entries[0].name, rel + [entries[0].name]) {
        assert Kept(opts, entries, rel)[1..] == Kept(opts, entries[1..], rel);
      }
    }
  }

  lemma {:induction false} KeptFrom(opts: Opts, entries: seq<Named>, rel: Path)
    requires Distinct(entries)
    ensures Distinct(Kept(opts, entries, rel))
    ensures forall e :: e in Kept(opts, entries, rel) ==> e in entries
  {
    if entries != [] {
      var rest := entries[1..];
      assert forall i, j :: 0 <= i < j < |rest| ==> rest[i] == entries[i + 1] && rest[j] == entries[j + 1];
      KeptFrom(opts, rest, rel);
      if !Skips(opts, entries[0].name, rel + [entries[0].name]) {
        var kept := Kept(opts, entries, rel);
        forall i, j | 0 <= i < j < |kept| ensures kept[i].name != kept[j].name {
          assert kept[j] == Kept(opts, rest, rel)[j - 1];
          if i > 0 {
            assert kept[i] == Kept(opts, rest, rel)[i - 1];
          } else {
            assert kept[j] in rest;
            var at :| 0 <= at < |rest| && rest[at] == kept[j];
            assert entries[at + 1] == kept[j];
          }
        }
      }
    }
  }
}
