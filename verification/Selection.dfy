/** What is sent: every entry of the sources with no name on its way excluded, and nothing else. */
module Selection {
  import opened Bytes
  import opened Glob
  import opened Files
  import opened Walk

  /** `node` holds `leaf`, `names` leading to it. */
  ghost predicate Holds(node: Node, names: Path, leaf: Node)
    decreases |names|
  {
    if names == [] then node == leaf
    else node.NDir? && exists i :: 0 <= i < |node.entries| && node.entries[i].name == names[0]
                                   && Holds(node.entries[i].node, names[1..], leaf)
  }

  /** The source lands at the top as `top`: what is in a directory in the target itself, unless it is given a name; an entry
      under the name it is given, or its own. */
  predicate LandsAt(copy: Copy, source: Source, top: Path) {
    match source
    case Contents(_) => top == if copy.named.Some? then [copy.named.value] else []
    case Entry(named) => top == [if copy.named.Some? then copy.named.value else named.name]
  }

  /** The name the path ends in at length `n` is excluded, by itself or by its path from `base` on. */
  ghost predicate Excludes(copy: Copy, p: Path, base: nat, n: nat)
    requires base < n <= |p|
  {
    Excluded(copy.opts.excludes, p[n - 1], Written(p[base..n]))
  }

  /** A source that lands at `top` holds `node`, and no name below `top` on its way to `p` is excluded. */
  ghost predicate Brings(copy: Copy, source: Source, top: Path, p: Path, node: Node) {
    && LandsAt(copy, source, top) && top <= p && Holds(NodeOf(source), p[|top|..], node)
    && forall n :: |top| < n <= |p| ==> !Excludes(copy, p, |top|, n)
  }

  // ---- the steps down a tree -------------------------------------------------------------------------------

  lemma {:induction false} HoldsMore(node: Node, names: Path, d: Node, i: nat)
    requires Holds(node, names, d) && d.NDir? && i < |d.entries|
    ensures Holds(node, names + [d.entries[i].name], d.entries[i].node)
    decreases |names|
  {
    var more := names + [d.entries[i].name];
    if names == [] {
      assert more[1..] == [];
      assert node.entries[i].name == more[0] && Holds(node.entries[i].node, more[1..], d.entries[i].node);
    } else {
      var j :| 0 <= j < |node.entries| && node.entries[j].name == names[0] && Holds(node.entries[j].node, names[1..], d);
      assert more[1..] == names[1..] + [d.entries[i].name];
      HoldsMore(node.entries[j].node, names[1..], d, i);
      assert node.entries[j].name == more[0];
    }
  }

  lemma {:induction false} HoldsLess(node: Node, names: Path, leaf: Node) returns (d: Node, i: nat)
    requires Holds(node, names, leaf) && names != []
    ensures Holds(node, Parent(names), d) && d.NDir? && i < |d.entries| && d.entries[i] == Named(Leaf(names), leaf)
    decreases |names|
  {
    var j :| 0 <= j < |node.entries| && node.entries[j].name == names[0] && Holds(node.entries[j].node, names[1..], leaf);
    if |names| == 1 {
      d, i := node, j;
      assert Parent(names) == [];
    } else {
      d, i := HoldsLess(node.entries[j].node, names[1..], leaf);
      assert Parent(names)[1..] == Parent(names[1..]) && Parent(names)[0] == names[0];
    }
  }

  lemma LandingIs(copy: Copy, source: Source, top: Path)
    ensures LandsAt(copy, source, top) <==> LandingOf(copy, source) == top
  {
  }

  // ---- what is sent ----------------------------------------------------------------------------------------

  lemma {:induction false} SentIsBrought(copy: Copy, p: Path) returns (k: nat)
    requires Sources(copy) && Sent(copy, p)
    ensures k < |copy.sources| && |p| >= Base(copy) && Brings(copy, copy.sources[k], p[..Base(copy)], p, Look(copy, p).value)
    decreases |p|
  {
    hide Sources, Skips, Excludes, Kept, Holds;
    if |p| == Base(copy) {
      k := TopIs(copy, 0, p);
      TopBrought(copy, k, p);
    } else {
      k := SentIsBrought(copy, Parent(p));
      BelowBrought(copy, k, p);
    }
  }

  lemma TopBrought(copy: Copy, k: nat, p: Path)
    requires k < |copy.sources| && LandingOf(copy, copy.sources[k]) == p && |p| == Base(copy)
    ensures Brings(copy, copy.sources[k], p[..Base(copy)], p, NodeOf(copy.sources[k]))
  {
    assert p[..Base(copy)] == p && p[|p|..] == [];
    LandingIs(copy, copy.sources[k], p);
  }

  lemma BelowBrought(copy: Copy, k: nat, p: Path)
    requires Sent(copy, p) && |p| > Base(copy) && k < |copy.sources|
    requires SentDir(copy, Parent(p)) && Brings(copy, copy.sources[k], Parent(p)[..Base(copy)], Parent(p), Look(copy, Parent(p)).value)
    ensures Brings(copy, copy.sources[k], p[..Base(copy)], p, Look(copy, p).value)
  {
    hide Skips, Excludes, Kept, Holds, LandsAt;
    var d, n, b := Parent(p), Leaf(p), Base(copy);
    assert p == d + [n];
    SentChild(copy, d, n);
    var dir := Look(copy, d).value;
    KeptIs(copy.opts, dir.entries, RelOf(copy, d), n);
    FindIs(dir.entries, n);
    var i :| 0 <= i < |dir.entries| && dir.entries[i] == Named(n, Find(dir.entries, n).value);
    assert p[..b] == d[..b] && p[b..] == d[b..] + [n];
    HoldsMore(NodeOf(copy.sources[k]), d[b..], dir, i);
    NoneExcluded(copy, p);
  }

  lemma NoneExcluded(copy: Copy, p: Path)
    requires |p| > Base(copy) && !Skips(copy.opts, Leaf(p), RelOf(copy, Parent(p)) + [Leaf(p)])
    requires forall n :: Base(copy) < n <= |p| - 1 ==> !Excludes(copy, Parent(p), Base(copy), n)
    ensures forall n :: Base(copy) < n <= |p| ==> !Excludes(copy, p, Base(copy), n)
  {
    var b := Base(copy);
    forall n | b < n <= |p| ensures !Excludes(copy, p, b, n) {
      if n < |p| {
        assert p[b..n] == Parent(p)[b..n];
        assert !Excludes(copy, Parent(p), b, n);
      } else {
        assert p[b..n] == RelOf(copy, Parent(p)) + [Leaf(p)];
      }
    }
  }

  lemma {:induction false} BroughtIsSent(copy: Copy, k: nat, p: Path, node: Node)
    requires Sources(copy) && k < |copy.sources| && |p| >= Base(copy) && Brings(copy, copy.sources[k], p[..Base(copy)], p, node)
    ensures Look(copy, p) == Some(node)
    decreases |p|
  {
    hide Sources, Look, Holds, LandsAt, Excluded;
    var b := Base(copy);
    if |p| == b {
      BroughtTop(copy, k, p, node);
    } else {
      var d := Parent(p);
      var dir, i := HoldsLess(NodeOf(copy.sources[k]), p[b..], node);
      assert Parent(p[b..]) == d[b..] && Leaf(p[b..]) == Leaf(p) && p[..b] == d[..b];
      forall j | b < j <= |d| ensures !Excludes(copy, d, b, j) {
        assert d[b..j] == p[b..j];
        assert !Excludes(copy, p, b, j);
      }
      BroughtIsSent(copy, k, d, dir);
      assert !Excludes(copy, p, b, |p|);
      KeptIn(copy, p, dir, i, node);
    }
  }

  lemma BroughtTop(copy: Copy, k: nat, p: Path, node: Node)
    requires Sources(copy) && k < |copy.sources| && |p| == Base(copy) && Brings(copy, copy.sources[k], p[..Base(copy)], p, node)
    ensures Look(copy, p) == Some(node)
  {
    hide Sources;
    assert p[..Base(copy)] == p && p[Base(copy)..] == [];
    LandingIs(copy, copy.sources[k], p);
    TopFromIs(copy, 0, k);
  }

  lemma KeptIn(copy: Copy, p: Path, dir: Node, i: nat, node: Node)
    requires Sources(copy) && |p| > Base(copy) && Look(copy, Parent(p)) == Some(dir) && dir.NDir? && i < |dir.entries|
    requires dir.entries[i] == Named(Leaf(p), node) && !Excludes(copy, p, Base(copy), |p|)
    ensures Look(copy, p) == Some(node)
  {
    hide Sources, Kept, Excluded, Proper, Plain, Distinct, Look, Find;
    var d, n := Parent(p), Leaf(p);
    assert p == d + [n];
    SentProper(copy, d);
    ProperDistinct(dir);
    FindAt(dir.entries, i);
    KeptIs(copy.opts, dir.entries, RelOf(copy, d), n);
    assert p[Base(copy)..|p|] == RelOf(copy, d) + [n];
    SentChild(copy, d, n);
  }

  lemma ProperDistinct(dir: Node)
    requires Proper(dir) && dir.NDir?
    ensures Distinct(dir.entries)
  {
  }

  /** An entry is sent if and only if a source brings it. */
  lemma SentIff(copy: Copy, p: Path, node: Node)
    requires Sources(copy)
    ensures Look(copy, p) == Some(node) <==>
            exists k, top :: 0 <= k < |copy.sources| && Brings(copy, copy.sources[k], top, p, node)
  {
    if Look(copy, p) == Some(node) {
      var k := SentIsBrought(copy, p);
    }
    if k, top :| 0 <= k < |copy.sources| && Brings(copy, copy.sources[k], top, p, node) {
      LandingIs(copy, copy.sources[k], top);
      LandingLength(copy, k);
      assert p[..Base(copy)] == top;
      BroughtIsSent(copy, k, p, node);
    }
  }

  // ---- the path patterns read ------------------------------------------------------------------------------

  /** The pieces of `bytes` between its slashes. */
  function Pieces(bytes: seq<byte>): Path {
    if bytes == [] then [[]]
    else
      var rest := Pieces(bytes[1..]);
      if bytes[0] == SLASH then [[]] + rest else if rest == [] then [] else [[bytes[0]] + rest[0]] + rest[1..]
  }

  lemma {:induction false} PiecesOf(name: Name, rest: seq<byte>)
    requires SLASH !in name && Pieces(rest) != []
    ensures Pieces(name + rest) == [name + Pieces(rest)[0]] + Pieces(rest)[1..]
    decreases |name|
  {
    if name == [] {
      assert name + rest == rest;
      assert name + Pieces(rest)[0] == Pieces(rest)[0];
    } else {
      assert (name + rest)[1..] == name[1..] + rest;
      PiecesOf(name[1..], rest);
      assert [name[0]] + (name[1..] + Pieces(rest)[0]) == name + Pieces(rest)[0];
    }
  }

  /** A path as patterns read it is its names, a slash between each two. */
  lemma {:induction false} WrittenSplits(p: Path)
    requires p != [] && forall n :: n in p ==> SLASH !in n
    ensures Pieces(Written(p)) == p
    decreases |p|
  {
    if |p| == 1 {
      var none: seq<byte> := [];
      PiecesOf(p[0], none);
      assert p[0] + none == p[0] && Pieces(none)[1..] == [];
    } else {
      WrittenSplits(p[1..]);
      var rest := [SLASH] + Written(p[1..]);
      assert rest[1..] == Written(p[1..]);
      PiecesOf(p[0], rest);
      assert p[0] + [SLASH] + Written(p[1..]) == p[0] + rest;
      assert Pieces(rest)[0] == [] && Pieces(rest)[1..] == p[1..] && p[0] + Pieces(rest)[0] == p[0];
    }
  }
}
