/**
 * What the glob of GlobWalk yields, said on chains of nodes: the names of a path lead from one readable
 * directory to the next, and no directory that has an identity is entered twice.
 */
module GlobChains {
  import opened Options
  import opened GlobWalk

  // A directory that can be listed holds an entry of this name, for this node.
  predicate Leads(fs: Files, a: NodeId, name: string, b: NodeId) {
    && a in fs && fs[a].Directory? && fs[a].readable
    && exists e :: e in fs[a].entries && e.name == name && e.target == b
  }

  predicate IsChain(fs: Files, at: NodeId, names: Path, nodes: seq<NodeId>) {
    && |nodes| == |names| + 1 && nodes[0] == at
    && forall i :: 0 <= i < |names| ==> Leads(fs, nodes[i], names[i], nodes[i + 1])
  }

  // The same directory: by device and inode. Inode 0 is no identity.
  predicate SameDirectory(fs: Files, a: NodeId, b: NodeId) {
    && a in fs && fs[a].Directory? && b in fs && fs[b].Directory?
    && fs[a].key.dev == fs[b].key.dev && fs[a].key.ino == fs[b].key.ino && fs[b].key.ino != 0
  }

  predicate NeverBack(fs: Files, nodes: seq<NodeId>) {
    forall i, j :: 0 <= i < j < |nodes| ==> !SameDirectory(fs, nodes[i], nodes[j])
  }

  // ---- chains and listed names ----

  lemma LeadsToChild(fs: Files, at: NodeId, name: string, next: NodeId)
    requires UniqueNames(fs)
    ensures Leads(fs, at, name, next) <==>
      Child(fs, at, name).Some? && Child(fs, at, name).value.target == next
  {
    if Leads(fs, at, name, next) {
      var e :| e in fs[at].entries && e.name == name && e.target == next;
      FindIsMember(fs[at].entries, e);
    }
    if Child(fs, at, name).Some? {
      FoundIsMember(fs[at].entries, name);
    }
  }

  // The nodes the names lead through, from the start on.
  function Nodes(fs: Files, at: NodeId, names: Path): (nodes: seq<NodeId>)
    requires Listed(fs, at, names)
    ensures |nodes| == |names| + 1 && nodes[0] == at
    decreases |names|
  {
    if names == [] then [at] else [at] + Nodes(fs, Child(fs, at, names[0]).value.target, names[1..])
  }

  lemma ChainRest(fs: Files, at: NodeId, names: Path, nodes: seq<NodeId>)
    requires names != [] && |nodes| == |names| + 1
    ensures IsChain(fs, at, names, nodes) <==>
      nodes[0] == at && Leads(fs, at, names[0], nodes[1]) && IsChain(fs, nodes[1], names[1..], nodes[1..])
  {
    if nodes[0] == at && Leads(fs, at, names[0], nodes[1]) && IsChain(fs, nodes[1], names[1..], nodes[1..]) {
      forall i | 0 <= i < |names| ensures Leads(fs, nodes[i], names[i], nodes[i + 1]) {
        if i > 0 {
          assert Leads(fs, nodes[1..][i - 1], names[1..][i - 1], nodes[1..][i]);
        }
      }
    }
    if IsChain(fs, at, names, nodes) {
      forall i | 0 <= i < |names| - 1 ensures Leads(fs, nodes[1..][i], names[1..][i], nodes[1..][i + 1]) {
        assert Leads(fs, nodes[i + 1], names[i + 1], nodes[i + 2]);
      }
    }
  }

  lemma {:induction false} ChainOfListed(fs: Files, at: NodeId, names: Path)
    requires UniqueNames(fs) && Listed(fs, at, names)
    ensures IsChain(fs, at, names, Nodes(fs, at, names))
    ensures Nodes(fs, at, names)[|names|] == End(fs, at, names)
    decreases |names|
  {
    if names != [] {
      var next := Child(fs, at, names[0]).value.target;
      LeadsToChild(fs, at, names[0], next);
      ChainOfListed(fs, next, names[1..]);
      assert Nodes(fs, at, names)[1..] == Nodes(fs, next, names[1..]);
      ChainRest(fs, at, names, Nodes(fs, at, names));
    }
  }

  lemma {:induction false} ListedOfChain(fs: Files, at: NodeId, names: Path, nodes: seq<NodeId>)
    requires UniqueNames(fs) && IsChain(fs, at, names, nodes)
    ensures Listed(fs, at, names) && nodes == Nodes(fs, at, names)
    decreases |names|
  {
    if names == [] {
      assert nodes == [at];
    } else {
      ChainRest(fs, at, names, nodes);
      LeadsToChild(fs, at, names[0], nodes[1]);
      ListedOfChain(fs, nodes[1], names[1..], nodes[1..]);
      assert nodes == [at] + nodes[1..];
    }
  }

  // ---- what is entered ----

  // None of these nodes has been visited, and none is met again.
  predicate Clear(fs: Files, nodes: seq<NodeId>, visited: set<Key>) {
    && NeverBack(fs, nodes)
    && forall i :: 0 <= i < |nodes| && IsDirectory(fs, nodes[i]) && fs[nodes[i]].key in visited ==>
         fs[nodes[i]].key.ino == 0
  }

  lemma ClearFirst(fs: Files, nodes: seq<NodeId>, visited: set<Key>)
    requires nodes != [] && IsDirectory(fs, nodes[0])
    ensures Clear(fs, nodes, visited) <==>
      !IsVisited(fs, nodes[0], visited) && Clear(fs, nodes[1..], Visit(fs, nodes[0], visited))
  {
    var rest := nodes[1..];
    var more := Visit(fs, nodes[0], visited);
    if Clear(fs, nodes, visited) {
      assert forall i :: 0 <= i < |rest| ==> rest[i] == nodes[i + 1];
      assert forall i :: 0 <= i < |rest| ==> !SameDirectory(fs, nodes[0], rest[i]);
    }
    if !IsVisited(fs, nodes[0], visited) && Clear(fs, rest, more) {
      forall i, j | 0 <= i < j < |nodes| ensures !SameDirectory(fs, nodes[i], nodes[j]) {
        assert nodes[j] == rest[j - 1] && (i > 0 ==> nodes[i] == rest[i - 1]);
      }
      forall i | 0 <= i < |nodes| && IsDirectory(fs, nodes[i]) && fs[nodes[i]].key in visited
        ensures fs[nodes[i]].key.ino == 0
      {
        assert i > 0 ==> nodes[i] == rest[i - 1];
      }
    }
  }

  lemma {:induction false} NoRepeatIsClear(fs: Files, at: NodeId, names: Path, visited: set<Key>)
    requires Listed(fs, at, names)
    ensures NoRepeat(fs, at, names, visited) <==> Clear(fs, Nodes(fs, at, names)[1..], visited)
    decreases |names|
  {
    if names != [] {
      var next := Child(fs, at, names[0]).value.target;
      var nodes := Nodes(fs, next, names[1..]);
      assert Nodes(fs, at, names)[1..] == nodes;
      if IsDirectory(fs, next) {
        NoRepeatIsClear(fs, next, names[1..], Visit(fs, next, visited));
        ClearFirst(fs, nodes, visited);
      } else {
        assert names[1..] == [];
      }
    }
  }

  // From the start on, whose own directory is visited first.
  lemma NoRepeatIsNeverBack(fs: Files, at: NodeId, names: Path)
    requires Listed(fs, at, names)
    ensures NoRepeat(fs, at, names, if IsDirectory(fs, at) then Visit(fs, at, {}) else {}) <==>
      NeverBack(fs, Nodes(fs, at, names))
  {
    var nodes := Nodes(fs, at, names);
    NoRepeatIsClear(fs, at, names, if IsDirectory(fs, at) then Visit(fs, at, {}) else {});
    if IsDirectory(fs, at) {
      ClearFirst(fs, nodes, {});
    } else {
      assert names == [];
    }
  }

  lemma {:induction false} NodesInFront(fs: Files, at: NodeId, names: Path)
    requires names != [] && Listed(fs, at, names)
    ensures Listed(fs, at, Front(names)) && Nodes(fs, at, Front(names)) == Front(Nodes(fs, at, names))
    decreases |names|
  {
    if |names| > 1 {
      var next := Child(fs, at, names[0]).value.target;
      NodesInFront(fs, next, names[1..]);
      assert Front(names)[0] == names[0] && Front(names)[1..] == Front(names[1..]);
      assert Nodes(fs, at, names) == [at] + Nodes(fs, next, names[1..]);
    }
  }

  // ---- the theorem ----

  // The names match the pattern. A last `**` ends in a directory, or takes in at least the name of a file
  // that exists.
  predicate Matches(fs: Files, m: SegmentMatch, parts: seq<string>, names: Path, last: NodeId) {
    parts != [] &&
    if names == [] || parts[|parts| - 1] != "**" || (last in fs && fs[last].Directory?) then TextMatch(m, parts, names)
    else last in fs && TextMatch(m, parts, names[..|names| - 1])
  }

  // The nodes the walk enters: with a last part other than `**`, all but the last.
  function EnteredNodes(parts: seq<string>, nodes: seq<NodeId>): seq<NodeId>
    requires parts != [] && nodes != []
  {
    if parts[|parts| - 1] == "**" then nodes else nodes[..|nodes| - 1]
  }

  lemma EnteredIsNeverBack(fs: Files, at: NodeId, parts: seq<string>, names: Path)
    requires parts != [] && Listed(fs, at, names)
    ensures NoRepeat(fs, at, Entered(parts, names), if IsDirectory(fs, at) then Visit(fs, at, {}) else {}) <==>
      NeverBack(fs, EnteredNodes(parts, Nodes(fs, at, names)))
  {
    if names == [] || Last(parts) == "**" {
      NoRepeatIsNeverBack(fs, at, names);
    } else {
      NodesInFront(fs, at, names);
      NoRepeatIsNeverBack(fs, at, Front(names));
    }
  }

  ghost predicate Follows(fs: Files, m: SegmentMatch, at: NodeId, parts: seq<string>, names: Path, nodes: seq<NodeId>)
    requires parts != []
  {
    && IsChain(fs, at, names, nodes)
    && Matches(fs, m, parts, names, nodes[|names|])
    && NeverBack(fs, EnteredNodes(parts, nodes))
  }

  lemma YieldedAlong(fs: Files, m: SegmentMatch, at: NodeId, parts: seq<string>, names: Path)
    requires UniqueNames(fs) && parts != [] && Listed(fs, at, names)
    ensures Yielded(fs, m, at, parts, names, if IsDirectory(fs, at) then Visit(fs, at, {}) else {}) <==>
      Follows(fs, m, at, parts, names, Nodes(fs, at, names))
  {
    ChainOfListed(fs, at, names);
    EnteredIsNeverBack(fs, at, parts, names);
  }

  // A path is yielded exactly when its names lead along a chain that matches the pattern and never comes
  // back to a directory with an identity. Directories without one never stand in each other's way.
  lemma GlobFollowsChains(fs: Files, m: SegmentMatch, rank: NodeId -> nat, base: Path, at: NodeId,
      parts: seq<string>, names: Path)
    requires Grounded(fs, rank) && UniqueNames(fs) && parts != []
    ensures base + names in Glob(fs, m, rank, base, at, parts) <==>
      exists nodes :: Follows(fs, m, at, parts, names, nodes)
  {
    WalkIsExact(fs, m, rank, base, at, parts, if IsDirectory(fs, at) then Visit(fs, at, {}) else {}, names);
    if Listed(fs, at, names) {
      YieldedAlong(fs, m, at, parts, names);
    }
    if nodes :| Follows(fs, m, at, parts, names, nodes) {
      ListedOfChain(fs, at, names, nodes);
    }
  }
}
