/**
 * The recursive glob walks of packages/kaos/src/local.ts and packages/kaos/src/ssh.ts over a finite
 * directory graph. Matching one path segment is a parameter; paths are sequences of names.
 */
module GlobWalk {
  import opened Options

  type NodeId = nat
  type Path = seq<string>
  type SegmentMatch = (string, string) -> bool

  datatype Key = Key(dev: nat, ino: nat)

  // A symbolic link and a plain entry both name a node; a broken link names a node that is absent.
  datatype Entry = Entry(name: string, target: NodeId, link: bool)

  datatype Node =
    | File
    | Directory(key: Key, readable: bool, entries: seq<Entry>)

  type Files = map<NodeId, Node>

  predicate IsDirectory(fs: Files, id: NodeId) {
    id in fs && fs[id].Directory?
  }

  predicate IsReadable(fs: Files, id: NodeId) {
    IsDirectory(fs, id) && fs[id].readable
  }

  // Directories on file systems without inodes carry inode 0 and have no identity.
  function CycleKey(key: Key): Option<Key> {
    if key.ino == 0 then None else Some(key)
  }

  ghost predicate AllKeyed(fs: Files) {
    forall id :: IsDirectory(fs, id) ==> CycleKey(fs[id].key).Some?
  }

  // Where directories have no identity, entries lead down the ranks: every cycle has a directory with one.
  ghost predicate Grounded(fs: Files, rank: NodeId -> nat) {
    forall id, e ::
      IsDirectory(fs, id) && e in fs[id].entries && IsDirectory(fs, e.target) && CycleKey(fs[e.target].key).None? ==>
        rank(e.target) < rank(id)
  }

  ghost function Keys(fs: Files): set<Key> {
    set id | id in fs && fs[id].Directory? :: fs[id].key
  }

  // The keys the walk has yet to meet: with ranks and pattern parts, its termination measure.
  ghost function Unseen(fs: Files, visited: set<Key>): set<Key> {
    Keys(fs) - visited
  }

  predicate IsVisited(fs: Files, id: NodeId, visited: set<Key>)
    requires IsDirectory(fs, id)
  {
    CycleKey(fs[id].key).Some? && fs[id].key in visited
  }

  function Visit(fs: Files, id: NodeId, visited: set<Key>): set<Key>
    requires IsDirectory(fs, id)
  {
    if CycleKey(fs[id].key).Some? then visited + {fs[id].key} else visited
  }

  ghost predicate Among(fs: Files, at: NodeId, entries: seq<Entry>) {
    IsDirectory(fs, at) && forall e :: e in entries ==> e in fs[at].entries
  }

  // ---- the walk with a visited set ----

  ghost function Walk(
    fs: Files, m: SegmentMatch, rank: NodeId -> nat, base: Path, at: NodeId, parts: seq<string>, visited: set<Key>)
    : seq<Path>
    requires Grounded(fs, rank)
    decreases Unseen(fs, visited), rank(at), |parts|, 2, 0
  {
    if parts == [] then []
    else
      var here :=
        if parts[0] != "**" then []
        else if |parts| > 1 then Walk(fs, m, rank, base, at, parts[1..], visited)
        else [base];
      if IsReadable(fs, at) then here + WalkEntries(fs, m, rank, base, at, fs[at].entries, parts, visited) else here
  }

  ghost function WalkEntries(
    fs: Files, m: SegmentMatch, rank: NodeId -> nat, base: Path, at: NodeId, entries: seq<Entry>, parts: seq<string>,
    visited: set<Key>)
    : seq<Path>
    requires Grounded(fs, rank) && parts != [] && Among(fs, at, entries)
    decreases Unseen(fs, visited), rank(at), |parts|, 1, |entries|
  {
    if entries == [] then []
    else
      WalkEntry(fs, m, rank, base, at, entries[0], parts, visited) +
      WalkEntries(fs, m, rank, base, at, entries[1..], parts, visited)
  }

  // Into a directory the walk goes unless it is on the current descent path already.
  ghost function WalkEntry(
    fs: Files, m: SegmentMatch, rank: NodeId -> nat, base: Path, at: NodeId, e: Entry, parts: seq<string>,
    visited: set<Key>)
    : seq<Path>
    requires Grounded(fs, rank) && parts != [] && Among(fs, at, [e])
    decreases Unseen(fs, visited), rank(at), |parts|, 0, 0
  {
    if parts[0] != "**" && !m(parts[0], e.name) then []
    else if parts[0] != "**" && |parts| == 1 then [base + [e.name]]
    else if IsDirectory(fs, e.target) then
      if IsVisited(fs, e.target, visited) then []
      else
        var rest := if parts[0] == "**" then parts else parts[1..];
        DescentShrinks(fs, e.target, visited);
        Walk(fs, m, rank, base + [e.name], e.target, rest, Visit(fs, e.target, visited))
    else if parts[0] == "**" && |parts| == 1 && e.target in fs then [base + [e.name]]
    else []
  }

  lemma DescentShrinks(fs: Files, id: NodeId, visited: set<Key>)
    requires IsDirectory(fs, id) && !IsVisited(fs, id, visited)
    ensures if CycleKey(fs[id].key).Some? then Unseen(fs, Visit(fs, id, visited)) < Unseen(fs, visited)
            else Visit(fs, id, visited) == visited
  {
    if CycleKey(fs[id].key).Some? {
      assert fs[id].key in Unseen(fs, visited) && fs[id].key !in Unseen(fs, Visit(fs, id, visited));
    }
  }

  // The walk starts with its own directory visited, when it can be examined.
  ghost function Glob(
    fs: Files, m: SegmentMatch, rank: NodeId -> nat, base: Path, at: NodeId, parts: seq<string>)
    : seq<Path>
    requires Grounded(fs, rank)
  {
    Walk(fs, m, rank, base, at, parts, if IsDirectory(fs, at) then Visit(fs, at, {}) else {})
  }

  // ---- what a pattern selects ----

  // `**` stands for any number of names, every other part for one.
  predicate TextMatch(m: SegmentMatch, parts: seq<string>, names: Path)
    decreases |parts| + |names|
  {
    if parts == [] then names == []
    else if parts[0] == "**" then
      TextMatch(m, parts[1..], names) || (names != [] && TextMatch(m, parts, names[1..]))
    else names != [] && m(parts[0], names[0]) && TextMatch(m, parts[1..], names[1..])
  }

  function Find(entries: seq<Entry>, name: string): Option<Entry> {
    if entries == [] then None
    else if entries[0].name == name then Some(entries[0])
    else Find(entries[1..], name)
  }

  // The entry a name denotes in a directory that can be listed.
  function Child(fs: Files, at: NodeId, name: string): Option<Entry> {
    if IsReadable(fs, at) then Find(fs[at].entries, name) else None
  }

  // Every name is an entry of the directory the names before it lead to.
  predicate Listed(fs: Files, at: NodeId, names: Path)
    decreases |names|
  {
    names == [] || (Child(fs, at, names[0]).Some? && Listed(fs, Child(fs, at, names[0]).value.target, names[1..]))
  }

  function End(fs: Files, at: NodeId, names: Path): NodeId
    requires Listed(fs, at, names)
    decreases |names|
  {
    if names == [] then at else End(fs, Child(fs, at, names[0]).value.target, names[1..])
  }

  function Last<T>(s: seq<T>): T
    requires s != []
  {
    s[|s| - 1]
  }

  function Front<T>(s: seq<T>): seq<T>
    requires s != []
  {
    s[..|s| - 1]
  }

  // Names lead to a listed entry and match the pattern. A last `**` ends in a directory, or takes in
  // at least the name of a file that exists.
  predicate Selected(fs: Files, m: SegmentMatch, at: NodeId, parts: seq<string>, names: Path) {
    parts != [] &&
    if names == [] then TextMatch(m, parts, names)
    else
      Listed(fs, at, names) &&
      if Last(parts) != "**" || IsDirectory(fs, End(fs, at, names)) then TextMatch(m, parts, names)
      else End(fs, at, names) in fs && TextMatch(m, parts, Front(names))
  }

  // The directories the names lead through are new and all different.
  predicate NoRepeat(fs: Files, at: NodeId, names: Path, visited: set<Key>)
    decreases |names|
  {
    names != [] && Child(fs, at, names[0]).Some? ==>
      var next := Child(fs, at, names[0]).value.target;
      IsDirectory(fs, next) ==>
        !IsVisited(fs, next, visited) && NoRepeat(fs, next, names[1..], Visit(fs, next, visited))
  }

  // The names of the directories that are entered: a last part other than `**` enters nothing.
  function Entered(parts: seq<string>, names: Path): Path
    requires parts != []
  {
    if names == [] || Last(parts) == "**" then names else Front(names)
  }

  predicate Yielded(fs: Files, m: SegmentMatch, at: NodeId, parts: seq<string>, names: Path, visited: set<Key>) {
    Selected(fs, m, at, parts, names) && NoRepeat(fs, at, Entered(parts, names), visited)
  }

  // Names are unique within a directory.
  predicate DistinctNames(entries: seq<Entry>) {
    forall i, j :: 0 <= i < j < |entries| ==> entries[i].name != entries[j].name
  }

  ghost predicate UniqueNames(fs: Files) {
    forall id :: IsDirectory(fs, id) ==> DistinctNames(fs[id].entries)
  }

  // ---- where yielded paths lie ----

  lemma {:induction false} WalkStaysBelow(fs: Files, m: SegmentMatch, rank: NodeId -> nat, base: Path, at: NodeId,
      parts: seq<string>, visited: set<Key>, p: Path)
    requires Grounded(fs, rank) && p in Walk(fs, m, rank, base, at, parts, visited)
    ensures base <= p
    decreases Unseen(fs, visited), rank(at), |parts|, 2, 0
  {
    if parts[0] == "**" && |parts| > 1 && p in Walk(fs, m, rank, base, at, parts[1..], visited) {
      WalkStaysBelow(fs, m, rank, base, at, parts[1..], visited, p);
    } else if IsReadable(fs, at) && p in WalkEntries(fs, m, rank, base, at, fs[at].entries, parts, visited) {
      var e := EntryOf(fs, m, rank, base, at, fs[at].entries, parts, visited, p);
      EntryStaysBelow(fs, m, rank, base, at, e, parts, visited, p);
    }
  }

  lemma {:induction false} EntryOf(fs: Files, m: SegmentMatch, rank: NodeId -> nat, base: Path, at: NodeId,
      entries: seq<Entry>, parts: seq<string>, visited: set<Key>, p: Path)
    returns (e: Entry)
    requires Grounded(fs, rank) && parts != [] && Among(fs, at, entries)
    requires p in WalkEntries(fs, m, rank, base, at, entries, parts, visited)
    ensures e in entries && p in WalkEntry(fs, m, rank, base, at, e, parts, visited)
    decreases |entries|
  {
    if p in WalkEntry(fs, m, rank, base, at, entries[0], parts, visited) {
      e := entries[0];
    } else {
      e := EntryOf(fs, m, rank, base, at, entries[1..], parts, visited, p);
    }
  }

  lemma {:induction false} EntryStaysBelow(fs: Files, m: SegmentMatch, rank: NodeId -> nat, base: Path, at: NodeId,
      e: Entry, parts: seq<string>, visited: set<Key>, p: Path)
    requires Grounded(fs, rank) && parts != [] && Among(fs, at, [e]) &&
      p in WalkEntry(fs, m, rank, base, at, e, parts, visited)
    ensures base + [e.name] <= p
    decreases Unseen(fs, visited), rank(at), |parts|, 0, 0
  {
    if IsDirectory(fs, e.target) && p != base + [e.name] {
      DescentShrinks(fs, e.target, visited);
      var rest := if parts[0] == "**" then parts else parts[1..];
      WalkStaysBelow(fs, m, rank, base + [e.name], e.target, rest, Visit(fs, e.target, visited), p);
    }
  }

  // ---- the exact set of yielded paths ----

  lemma {:induction false} FindIsMember(entries: seq<Entry>, e: Entry)
    requires DistinctNames(entries) && e in entries
    ensures Find(entries, e.name) == Some(e)
    decreases |entries|
  {
    if e != entries[0] {
      FindIsMember(entries[1..], e);
    }
  }

  lemma {:induction false} FoundIsMember(entries: seq<Entry>, name: string)
    requires Find(entries, name).Some?
    ensures Find(entries, name).value in entries && Find(entries, name).value.name == name
    decreases |entries|
  {
    if entries[0].name != name {
      FoundIsMember(entries[1..], name);
    }
  }

  lemma {:induction false} EntryIsIncluded(fs: Files, m: SegmentMatch, rank: NodeId -> nat, base: Path, at: NodeId,
      entries: seq<Entry>, parts: seq<string>, visited: set<Key>, e: Entry, p: Path)
    requires Grounded(fs, rank) && parts != [] && Among(fs, at, entries) && e in entries
    requires p in WalkEntry(fs, m, rank, base, at, e, parts, visited)
    ensures p in WalkEntries(fs, m, rank, base, at, entries, parts, visited)
    decreases |entries|
  {
    if e != entries[0] {
      EntryIsIncluded(fs, m, rank, base, at, entries[1..], parts, visited, e, p);
    }
  }

  // A path below a directory comes from the entry its first name denotes.
  lemma FromItsEntry(fs: Files, m: SegmentMatch, rank: NodeId -> nat, base: Path, at: NodeId, parts: seq<string>,
      visited: set<Key>, names: Path)
    requires Grounded(fs, rank) && UniqueNames(fs) && parts != [] && IsReadable(fs, at) && names != []
    ensures base + names in WalkEntries(fs, m, rank, base, at, fs[at].entries, parts, visited) <==>
      (Child(fs, at, names[0]).Some? && Among(fs, at, [Child(fs, at, names[0]).value]) &&
       base + names in WalkEntry(fs, m, rank, base, at, Child(fs, at, names[0]).value, parts, visited))
  {
    var p := base + names;
    var entries := fs[at].entries;
    if p in WalkEntries(fs, m, rank, base, at, entries, parts, visited) {
      var e := EntryOf(fs, m, rank, base, at, entries, parts, visited, p);
      EntryStaysBelow(fs, m, rank, base, at, e, parts, visited, p);
      assert (base + [e.name])[|base|] == p[|base|];
      FindIsMember(entries, e);
    }
    if Child(fs, at, names[0]).Some? {
      FoundIsMember(entries, names[0]);
      var e := Child(fs, at, names[0]).value;
      if p in WalkEntry(fs, m, rank, base, at, e, parts, visited) {
        EntryIsIncluded(fs, m, rank, base, at, entries, parts, visited, e, p);
      }
    }
  }

  lemma BaseIsNoEntry(fs: Files, m: SegmentMatch, rank: NodeId -> nat, base: Path, at: NodeId, entries: seq<Entry>,
      parts: seq<string>, visited: set<Key>)
    requires Grounded(fs, rank) && parts != [] && Among(fs, at, entries)
    ensures base !in WalkEntries(fs, m, rank, base, at, entries, parts, visited)
  {
    if base in WalkEntries(fs, m, rank, base, at, entries, parts, visited) {
      var e := EntryOf(fs, m, rank, base, at, entries, parts, visited, base);
      EntryStaysBelow(fs, m, rank, base, at, e, parts, visited, base);
    }
  }

  lemma {:induction false} OnlyStarsMatchNothing(m: SegmentMatch, parts: seq<string>)
    requires parts != [] && TextMatch(m, parts, [])
    ensures parts[0] == "**" && Last(parts) == "**"
    decreases |parts|
  {
    if |parts| > 1 {
      OnlyStarsMatchNothing(m, parts[1..]);
    }
  }

  // Going through the first name of a path into the directory it denotes.
  lemma ThroughFirst(fs: Files, at: NodeId, parts: seq<string>, rest: seq<string>, names: Path, visited: set<Key>)
    requires parts != [] && rest != [] && Last(parts) == Last(rest)
    requires names != [] && Child(fs, at, names[0]).Some?
    ensures
      var next := Child(fs, at, names[0]).value.target;
      && (Listed(fs, at, names) <==> Listed(fs, next, names[1..]))
      && (Listed(fs, at, names) ==> End(fs, at, names) == End(fs, next, names[1..]))
      && (|names| > 1 || Last(parts) == "**" ==>
          Entered(parts, names) != [] && Entered(parts, names)[0] == names[0] &&
          Entered(parts, names)[1..] == Entered(rest, names[1..]))
      && (|names| > 1 ==> Front(names) != [] && Front(names)[0] == names[0] && Front(names)[1..] == Front(names[1..]))
  {
  }

  // What a literal first part asks of the first name.
  lemma YieldedByLiteral(fs: Files, m: SegmentMatch, at: NodeId, parts: seq<string>, names: Path, visited: set<Key>)
    requires parts != [] && parts[0] != "**"
    ensures Yielded(fs, m, at, parts, names, visited) <==>
      names != [] && Child(fs, at, names[0]).Some? && m(parts[0], names[0]) &&
      var next := Child(fs, at, names[0]).value.target;
      if |parts| == 1 then |names| == 1
      else IsDirectory(fs, next) && !IsVisited(fs, next, visited) &&
           Yielded(fs, m, next, parts[1..], names[1..], Visit(fs, next, visited))
  {
    if names != [] && Child(fs, at, names[0]).Some? {
      var rest := parts[1..];
      var next := Child(fs, at, names[0]).value.target;
      if |parts| == 1 {
        assert Listed(fs, next, []) && (TextMatch(m, rest, names[1..]) <==> names[1..] == []);
        assert |names| == 1 <==> names[1..] == [];
      } else {
        assert Last(rest) == Last(parts);
        ThroughFirst(fs, at, parts, rest, names, visited);
        if |names| == 1 {
          assert names[1..] == [];
          if TextMatch(m, rest, []) {
            OnlyStarsMatchNothing(m, rest);
          }
        } else {
          assert Selected(fs, m, at, parts, names) <==>
            m(parts[0], names[0]) && Selected(fs, m, next, rest, names[1..]);
          assert Listed(fs, next, names[1..]) ==> IsDirectory(fs, next);
        }
      }
    }
  }

  lemma StarsMatchAll(m: SegmentMatch, parts: seq<string>, names: Path)
    requires |parts| == 1 && parts[0] == "**"
    ensures TextMatch(m, parts, names)
  {
  }

  // What a leading `**` offers: no name, one more directory, or a last file.
  lemma YieldedByStars(fs: Files, m: SegmentMatch, at: NodeId, parts: seq<string>, names: Path, visited: set<Key>)
    requires parts != [] && parts[0] == "**"
    ensures Yielded(fs, m, at, parts, names, visited) <==>
      || (if |parts| == 1 then names == [] else Yielded(fs, m, at, parts[1..], names, visited))
      || (names != [] && Child(fs, at, names[0]).Some? &&
          var next := Child(fs, at, names[0]).value.target;
          if IsDirectory(fs, next) then
            !IsVisited(fs, next, visited) && Yielded(fs, m, next, parts, names[1..], Visit(fs, next, visited))
          else
            next in fs && |parts| == 1 && |names| == 1)
  {
    if |parts| == 1 {
      StarsMatchAll(m, parts, names);
    } else {
      assert Last(parts[1..]) == Last(parts);
    }
    if TextMatch(m, parts, []) {
      OnlyStarsMatchNothing(m, parts);
    }
    if names != [] && Child(fs, at, names[0]).Some? {
      ThroughFirst(fs, at, parts, parts, names, visited);
      var next := Child(fs, at, names[0]).value.target;
      if |parts| == 1 {
        StarsMatchAll(m, parts, names[1..]);
        StarsMatchAll(m, parts, Front(names));
        if |names| > 1 {
          StarsMatchAll(m, parts, Front(names[1..]));
        }
      }
      if |names| == 1 {
        assert names[1..] == [];
        assert Listed(fs, next, []) && End(fs, at, names) == next;
      } else {
        assert Listed(fs, next, names[1..]) ==> IsDirectory(fs, next);
        assert Selected(fs, m, at, parts, names) <==>
          (|parts| > 1 && Selected(fs, m, at, parts[1..], names)) || Selected(fs, m, next, parts, names[1..]);
      }
    }
  }

  // On any directory graph, cyclic or not, the walk yields exactly the selected paths that enter no
  // directory twice.
  lemma {:induction false} WalkIsExact(fs: Files, m: SegmentMatch, rank: NodeId -> nat, base: Path, at: NodeId,
      parts: seq<string>, visited: set<Key>, names: Path)
    requires Grounded(fs, rank) && UniqueNames(fs)
    ensures base + names in Walk(fs, m, rank, base, at, parts, visited) <==> Yielded(fs, m, at, parts, names, visited)
    decreases |parts| + |names|, 1
  {
    if parts != [] {
      if parts[0] == "**" {
        YieldedByStars(fs, m, at, parts, names, visited);
        if |parts| > 1 {
          WalkIsExact(fs, m, rank, base, at, parts[1..], visited, names);
        }
      } else {
        YieldedByLiteral(fs, m, at, parts, names, visited);
      }
      assert base + [] == base;
      if IsReadable(fs, at) {
        if names == [] {
          BaseIsNoEntry(fs, m, rank, base, at, fs[at].entries, parts, visited);
        } else {
          FromItsEntry(fs, m, rank, base, at, parts, visited, names);
          if Child(fs, at, names[0]).Some? {
            EntryIsExact(fs, m, rank, base, at, parts, visited, names);
          }
        }
      }
    }
  }

  lemma {:induction false} EntryIsExact(fs: Files, m: SegmentMatch, rank: NodeId -> nat, base: Path, at: NodeId,
      parts: seq<string>, visited: set<Key>, names: Path)
    requires Grounded(fs, rank) && UniqueNames(fs) && parts != [] && names != [] && Child(fs, at, names[0]).Some?
    ensures
      var e := Child(fs, at, names[0]).value;
      Among(fs, at, [e]) && base + names in WalkEntry(fs, m, rank, base, at, e, parts, visited) <==>
      if parts[0] != "**" && |parts| == 1 then m(parts[0], names[0]) && |names| == 1
      else if IsDirectory(fs, e.target) then
        (parts[0] == "**" || m(parts[0], names[0])) && !IsVisited(fs, e.target, visited) &&
        var rest := if parts[0] == "**" then parts else parts[1..];
        Yielded(fs, m, e.target, rest, names[1..], Visit(fs, e.target, visited))
      else parts[0] == "**" && e.target in fs && |parts| == 1 && |names| == 1
    decreases |parts| + |names|, 0
  {
    var e := Child(fs, at, names[0]).value;
    FoundIsMember(fs[at].entries, names[0]);
    var rest := if parts[0] == "**" then parts else parts[1..];
    assert base + names == (base + [e.name]) + names[1..];
    assert base + names == base + [e.name] <==> |names| == 1;
    if IsDirectory(fs, e.target) && !IsVisited(fs, e.target, visited) {
      WalkIsExact(fs, m, rank, base + [e.name], e.target, rest, Visit(fs, e.target, visited), names[1..]);
    }
  }

  // ---- cycles: how deep the walk goes ----

  lemma {:induction false} NoRepeatInFront(fs: Files, at: NodeId, names: Path, visited: set<Key>)
    requires names != [] && NoRepeat(fs, at, names, visited)
    ensures NoRepeat(fs, at, Front(names), visited)
    decreases |names|
  {
    if |names| > 1 && Child(fs, at, names[0]).Some? {
      var next := Child(fs, at, names[0]).value.target;
      assert Front(names)[1..] == Front(names[1..]);
      if IsDirectory(fs, next) {
        NoRepeatInFront(fs, next, names[1..], Visit(fs, next, visited));
      }
    }
  }

  lemma {:induction false} DepthIsBounded(fs: Files, at: NodeId, names: Path, visited: set<Key>)
    requires AllKeyed(fs) && names != [] && Listed(fs, at, names) && NoRepeat(fs, at, Front(names), visited)
    ensures |names| <= |Unseen(fs, visited)| + 1
    decreases |names|
  {
    if |names| > 1 {
      var next := Child(fs, at, names[0]).value.target;
      var key := fs[next].key;
      assert Front(names)[1..] == Front(names[1..]);
      DepthIsBounded(fs, next, names[1..], visited + {key});
      assert key in Keys(fs);
      assert Unseen(fs, visited + {key}) == Unseen(fs, visited) - {key};
    }
  }

  // Where every directory has an identity, a yielded path is no longer than the number of directories
  // not yet visited, plus one, whatever the cycles.
  lemma YieldedPathsAreBounded(fs: Files, m: SegmentMatch, rank: NodeId -> nat, base: Path, at: NodeId,
      parts: seq<string>, visited: set<Key>, p: Path)
    requires AllKeyed(fs) && UniqueNames(fs)
    requires p in Walk(fs, m, rank, base, at, parts, visited)
    ensures base <= p && |p| <= |base| + |Unseen(fs, visited)| + 1
  {
    WalkStaysBelow(fs, m, rank, base, at, parts, visited, p);
    var names := p[|base|..];
    assert base + names == p;
    WalkIsExact(fs, m, rank, base, at, parts, visited, names);
    if names != [] {
      if Last(parts) == "**" {
        NoRepeatInFront(fs, at, names, visited);
      }
      DepthIsBounded(fs, at, names, visited);
    }
  }

  // ---- without cycles the visited set changes nothing ----

  // Listings made by the protocol of the remote side may name the directory itself and its parent.
  predicate IsDot(e: Entry) {
    e.name == "." || e.name == ".."
  }

  // Directories are ranked so that every entry leads down: there is no cycle.
  ghost predicate Ranked(fs: Files, rank: NodeId -> nat) {
    forall id, e ::
      IsDirectory(fs, id) && e in fs[id].entries && !IsDot(e) && IsDirectory(fs, e.target) ==> rank(e.target) < rank(id)
  }

  ghost predicate NoDots(fs: Files) {
    forall id, e :: IsDirectory(fs, id) && e in fs[id].entries ==> !IsDot(e)
  }

  ghost predicate DistinctKeys(fs: Files) {
    forall a, b ::
      IsDirectory(fs, a) && IsDirectory(fs, b) && CycleKey(fs[a].key).Some? && fs[a].key == fs[b].key ==> a == b
  }

  ghost predicate VisitedIsAbove(fs: Files, rank: NodeId -> nat, at: NodeId, visited: set<Key>) {
    forall id :: IsDirectory(fs, id) && IsVisited(fs, id, visited) ==> rank(at) <= rank(id)
  }

  lemma {:induction false} NothingRepeats(fs: Files, rank: NodeId -> nat, at: NodeId, names: Path, visited: set<Key>)
    requires Ranked(fs, rank) && NoDots(fs) && DistinctKeys(fs) && VisitedIsAbove(fs, rank, at, visited)
    ensures NoRepeat(fs, at, names, visited)
    decreases |names|
  {
    if names != [] && Child(fs, at, names[0]).Some? {
      FoundIsMember(fs[at].entries, names[0]);
      var next := Child(fs, at, names[0]).value.target;
      if IsDirectory(fs, next) {
        assert rank(next) < rank(at);
        NothingRepeats(fs, rank, next, names[1..], Visit(fs, next, visited));
      }
    }
  }

  lemma RankedIsGrounded(fs: Files, rank: NodeId -> nat)
    requires Ranked(fs, rank) && NoDots(fs)
    ensures Grounded(fs, rank)
  {
  }

  // On an acyclic graph a glob yields exactly what the pattern selects, whether directories have
  // identities or not.
  lemma GlobYieldsWhatIsSelected(fs: Files, m: SegmentMatch, rank: NodeId -> nat, base: Path, at: NodeId,
      parts: seq<string>, names: Path)
    requires UniqueNames(fs) && NoDots(fs) && DistinctKeys(fs) && Ranked(fs, rank)
    ensures Grounded(fs, rank)
    ensures base + names in Glob(fs, m, rank, base, at, parts) <==> Selected(fs, m, at, parts, names)
  {
    var visited := if IsDirectory(fs, at) then Visit(fs, at, {}) else {};
    RankedIsGrounded(fs, rank);
    WalkIsExact(fs, m, rank, base, at, parts, visited, names);
    if parts != [] {
      NothingRepeats(fs, rank, at, Entered(parts, names), visited);
    }
  }

  // ---- each path once ----

  predicate Distinct(paths: seq<Path>) {
    forall i, j :: 0 <= i < j < |paths| ==> paths[i] != paths[j]
  }

  function Stars(parts: seq<string>): nat {
    multiset(parts)["**"]
  }

  lemma StarsSplit(parts: seq<string>)
    requires parts != []
    ensures Stars(parts) == (if parts[0] == "**" then 1 else 0) + Stars(parts[1..])
  {
    assert parts == [parts[0]] + parts[1..];
  }

  lemma {:induction false} TextLength(m: SegmentMatch, parts: seq<string>, names: Path)
    requires TextMatch(m, parts, names)
    ensures |names| >= |parts| - Stars(parts)
    ensures Stars(parts) == 0 ==> |names| == |parts|
    decreases |parts| + |names|
  {
    if parts != [] {
      StarsSplit(parts);
      if parts[0] == "**" {
        if TextMatch(m, parts[1..], names) {
          TextLength(m, parts[1..], names);
        } else {
          TextLength(m, parts, names[1..]);
        }
      } else {
        TextLength(m, parts[1..], names[1..]);
      }
    }
  }

  // How deep below the base a yielded path lies.
  lemma YieldedLength(fs: Files, m: SegmentMatch, rank: NodeId -> nat, base: Path, at: NodeId, parts: seq<string>,
      visited: set<Key>, p: Path)
    requires Grounded(fs, rank) && UniqueNames(fs) && p in Walk(fs, m, rank, base, at, parts, visited)
    ensures |p| >= |base| + |parts| - Stars(parts)
    ensures Stars(parts) == 0 ==> |p| == |base| + |parts|
  {
    WalkStaysBelow(fs, m, rank, base, at, parts, visited, p);
    var names := p[|base|..];
    assert base + names == p;
    WalkIsExact(fs, m, rank, base, at, parts, visited, names);
    if TextMatch(m, parts, names) {
      TextLength(m, parts, names);
    } else {
      TextLength(m, parts, Front(names));
      assert Last(parts) == "**" && Last(parts) in multiset(parts);
    }
  }

  lemma EntryLength(fs: Files, m: SegmentMatch, rank: NodeId -> nat, base: Path, at: NodeId, entries: seq<Entry>,
      parts: seq<string>, visited: set<Key>, p: Path)
    requires Grounded(fs, rank) && UniqueNames(fs) && parts != [] && parts[0] == "**" && Among(fs, at, entries)
    requires p in WalkEntries(fs, m, rank, base, at, entries, parts, visited)
    ensures |p| > |base| + |parts| - Stars(parts)
  {
    var e := EntryOf(fs, m, rank, base, at, entries, parts, visited, p);
    EntryStaysBelow(fs, m, rank, base, at, e, parts, visited, p);
    if IsDirectory(fs, e.target) {
      YieldedLength(fs, m, rank, base + [e.name], e.target, parts, Visit(fs, e.target, visited), p);
    }
  }

  lemma DistinctConcat(a: seq<Path>, b: seq<Path>)
    requires Distinct(a) && Distinct(b) && forall p :: p in a ==> p !in b
    ensures Distinct(a + b)
  {
    var c := a + b;
    forall i, j | 0 <= i < j < |c| ensures c[i] != c[j] {
      if i < |a| <= j {
        assert c[i] in a && c[j] == b[j - |a|];
      }
    }
  }

  // With at most one `**` no path is yielded twice.
  lemma {:induction false} WalkYieldsOnce(fs: Files, m: SegmentMatch, rank: NodeId -> nat, base: Path, at: NodeId,
      parts: seq<string>, visited: set<Key>)
    requires Grounded(fs, rank) && UniqueNames(fs) && Stars(parts) <= 1
    ensures Distinct(Walk(fs, m, rank, base, at, parts, visited))
    decreases Unseen(fs, visited), rank(at), |parts|, 2, 0
  {
    if parts != [] {
      StarsSplit(parts);
      var here :=
        if parts[0] != "**" then []
        else if |parts| > 1 then Walk(fs, m, rank, base, at, parts[1..], visited)
        else [base];
      if parts[0] == "**" && |parts| > 1 {
        WalkYieldsOnce(fs, m, rank, base, at, parts[1..], visited);
      }
      if IsReadable(fs, at) {
        var below := WalkEntries(fs, m, rank, base, at, fs[at].entries, parts, visited);
        EntriesYieldOnce(fs, m, rank, base, at, fs[at].entries, parts, visited);
        forall p | p in here ensures p !in below {
          if p in below {
            EntryLength(fs, m, rank, base, at, fs[at].entries, parts, visited, p);
            if |parts| > 1 {
              YieldedLength(fs, m, rank, base, at, parts[1..], visited, p);
            }
          }
        }
        DistinctConcat(here, below);
      }
    }
  }

  lemma {:induction false} EntriesYieldOnce(fs: Files, m: SegmentMatch, rank: NodeId -> nat, base: Path, at: NodeId,
      entries: seq<Entry>, parts: seq<string>, visited: set<Key>)
    requires Grounded(fs, rank) && UniqueNames(fs) && Stars(parts) <= 1 && parts != []
    requires Among(fs, at, entries) && DistinctNames(entries)
    ensures Distinct(WalkEntries(fs, m, rank, base, at, entries, parts, visited))
    decreases Unseen(fs, visited), rank(at), |parts|, 1, |entries|
  {
    if entries != [] {
      var first := WalkEntry(fs, m, rank, base, at, entries[0], parts, visited);
      var others := WalkEntries(fs, m, rank, base, at, entries[1..], parts, visited);
      EntryYieldsOnce(fs, m, rank, base, at, entries[0], parts, visited);
      EntriesYieldOnce(fs, m, rank, base, at, entries[1..], parts, visited);
      forall p | p in first ensures |base| < |p| && p[|base|] == entries[0].name {
        EntryStaysBelow(fs, m, rank, base, at, entries[0], parts, visited, p);
        assert (base + [entries[0].name])[|base|] == entries[0].name;
      }
      forall p | p in others ensures |base| < |p| && p[|base|] != entries[0].name {
        var e := EntryOf(fs, m, rank, base, at, entries[1..], parts, visited, p);
        EntryStaysBelow(fs, m, rank, base, at, e, parts, visited, p);
        assert (base + [e.name])[|base|] == e.name;
      }
      DistinctConcat(first, others);
    }
  }

  lemma {:induction false} EntryYieldsOnce(fs: Files, m: SegmentMatch, rank: NodeId -> nat, base: Path, at: NodeId,
      e: Entry, parts: seq<string>, visited: set<Key>)
    requires Grounded(fs, rank) && UniqueNames(fs) && Stars(parts) <= 1 && parts != [] && Among(fs, at, [e])
    ensures Distinct(WalkEntry(fs, m, rank, base, at, e, parts, visited))
    decreases Unseen(fs, visited), rank(at), |parts|, 0, 0
  {
    if IsDirectory(fs, e.target) && !IsVisited(fs, e.target, visited) {
      DescentShrinks(fs, e.target, visited);
      var rest := if parts[0] == "**" then parts else parts[1..];
      StarsSplit(parts);
      WalkYieldsOnce(fs, m, rank, base + [e.name], e.target, rest, Visit(fs, e.target, visited));
    }
  }

  // ---- the walk without a visited set ----

  // Over SSH an entry is a directory when its own attributes say so: links are not followed.
  predicate IsDirectoryEntry(fs: Files, e: Entry) {
    !e.link && IsDirectory(fs, e.target)
  }

  ghost function SshWalk(fs: Files, m: SegmentMatch, rank: NodeId -> nat, base: Path, at: NodeId,
      parts: seq<string>): seq<Path>
    requires Ranked(fs, rank)
    decreases rank(at), |parts|, 2, 0
  {
    if parts == [] then []
    else
      var here :=
        if parts[0] != "**" then []
        else if |parts| > 1 then SshWalk(fs, m, rank, base, at, parts[1..])
        else [base];
      if IsReadable(fs, at) then here + SshWalkEntries(fs, m, rank, base, at, fs[at].entries, parts) else here
  }

  ghost function SshWalkEntries(fs: Files, m: SegmentMatch, rank: NodeId -> nat, base: Path, at: NodeId,
      entries: seq<Entry>, parts: seq<string>)
    : seq<Path>
    requires Ranked(fs, rank) && parts != [] && Among(fs, at, entries)
    decreases rank(at), |parts|, 1, |entries|
  {
    if entries == [] then []
    else
      SshWalkEntry(fs, m, rank, base, at, entries[0], parts) +
      SshWalkEntries(fs, m, rank, base, at, entries[1..], parts)
  }

  ghost function SshWalkEntry(fs: Files, m: SegmentMatch, rank: NodeId -> nat, base: Path, at: NodeId, e: Entry,
      parts: seq<string>)
    : seq<Path>
    requires Ranked(fs, rank) && parts != [] && Among(fs, at, [e])
    decreases rank(at), |parts|, 0, 0
  {
    if IsDot(e) then []
    else if parts[0] == "**" then
      if IsDirectoryEntry(fs, e) then SshWalk(fs, m, rank, base + [e.name], e.target, parts)
      else if |parts| == 1 then [base + [e.name]]
      else []
    else if !m(parts[0], e.name) then []
    else if |parts| == 1 then [base + [e.name]]
    else if IsDirectoryEntry(fs, e) then SshWalk(fs, m, rank, base + [e.name], e.target, parts[1..])
    else []
  }

  // ---- the two walks agree ----

  function Proper(entries: seq<Entry>): seq<Entry> {
    if entries == [] then []
    else if IsDot(entries[0]) then Proper(entries[1..])
    else [entries[0]] + Proper(entries[1..])
  }

  // The same files, but for dot entries in the remote listings.
  ghost predicate SameFiles(local: Files, remote: Files) {
    && local.Keys == remote.Keys
    && forall id :: id in local ==>
      && IsDirectory(local, id) == IsDirectory(remote, id)
      && IsReadable(local, id) == IsReadable(remote, id)
      && (IsDirectory(local, id) ==> local[id].entries == Proper(remote[id].entries))
  }

  ghost predicate NoLinks(fs: Files) {
    forall id, e :: IsDirectory(fs, id) && e in fs[id].entries ==> !e.link && e.target in fs
  }

  ghost predicate AgreeOn(local: Files, remote: Files, rank: NodeId -> nat) {
    DistinctKeys(local) && NoLinks(local) && SameFiles(local, remote) && Ranked(remote, rank)
  }

  // Only the directory itself and its parent are left out.
  lemma {:induction false} AllButDots(entries: seq<Entry>, e: Entry)
    ensures e in Proper(entries) <==> e in entries && e.name != "." && e.name != ".."
    decreases |entries|
  {
    if entries != [] {
      AllButDots(entries[1..], e);
    }
  }

  // The local listings lead down as the remote ones do, so both walks end.
  lemma AgreeingIsGrounded(local: Files, remote: Files, rank: NodeId -> nat)
    requires AgreeOn(local, remote, rank)
    ensures Grounded(local, rank)
  {
    forall id, e | IsDirectory(local, id) && e in local[id].entries && IsDirectory(local, e.target)
      ensures rank(e.target) < rank(id)
    {
      AllButDots(remote[id].entries, e);
    }
  }

  lemma ListingsAgree(local: Files, remote: Files, rank: NodeId -> nat, at: NodeId, entries: seq<Entry>)
    requires AgreeOn(local, remote, rank) && Among(remote, at, entries)
    ensures Among(local, at, Proper(entries))
  {
    forall e | e in Proper(entries) ensures e in local[at].entries {
      AllButDots(entries, e);
      AllButDots(remote[at].entries, e);
    }
  }

  // On files without symbolic links both walks yield the same paths in the same order.
  lemma {:induction false} WalksAgree(local: Files, remote: Files, m: SegmentMatch, rank: NodeId -> nat, base: Path,
      at: NodeId, parts: seq<string>, visited: set<Key>)
    requires AgreeOn(local, remote, rank) && Grounded(local, rank) && VisitedIsAbove(local, rank, at, visited)
    ensures Walk(local, m, rank, base, at, parts, visited) == SshWalk(remote, m, rank, base, at, parts)
    decreases rank(at), |parts|, 2, 0
  {
    if parts != [] {
      if parts[0] == "**" && |parts| > 1 {
        WalksAgree(local, remote, m, rank, base, at, parts[1..], visited);
      }
      if IsReadable(local, at) {
        ListingsAgree(local, remote, rank, at, remote[at].entries);
        EntriesAgree(local, remote, m, rank, base, at, remote[at].entries, parts, visited);
      }
    }
  }

  lemma {:induction false} EntriesAgree(local: Files, remote: Files, m: SegmentMatch, rank: NodeId -> nat,
      base: Path, at: NodeId, entries: seq<Entry>, parts: seq<string>, visited: set<Key>)
    requires AgreeOn(local, remote, rank) && Grounded(local, rank) && VisitedIsAbove(local, rank, at, visited)
    requires parts != [] && Among(remote, at, entries) && Among(local, at, Proper(entries))
    ensures WalkEntries(local, m, rank, base, at, Proper(entries), parts, visited) ==
            SshWalkEntries(remote, m, rank, base, at, entries, parts)
    decreases rank(at), |parts|, 1, |entries|
  {
    if entries != [] {
      ListingsAgree(local, remote, rank, at, entries[1..]);
      EntriesAgree(local, remote, m, rank, base, at, entries[1..], parts, visited);
      if IsDot(entries[0]) {
        assert SshWalkEntry(remote, m, rank, base, at, entries[0], parts) == [];
      } else {
        EntryAgrees(local, remote, m, rank, base, at, entries[0], parts, visited);
        assert Proper(entries)[0] == entries[0] && Proper(entries)[1..] == Proper(entries[1..]);
      }
    }
  }

  lemma {:induction false} EntryAgrees(local: Files, remote: Files, m: SegmentMatch, rank: NodeId -> nat, base: Path,
      at: NodeId, e: Entry, parts: seq<string>, visited: set<Key>)
    requires AgreeOn(local, remote, rank) && Grounded(local, rank) && VisitedIsAbove(local, rank, at, visited)
    requires parts != [] && Among(remote, at, [e]) && Among(local, at, [e]) && !IsDot(e)
    ensures WalkEntry(local, m, rank, base, at, e, parts, visited) == SshWalkEntry(remote, m, rank, base, at, e, parts)
    decreases rank(at), |parts|, 0, 0
  {
    AllButDots(remote[at].entries, e);
    assert !e.link && e.target in local;
    if IsDirectory(local, e.target) {
      assert rank(e.target) < rank(at);
      var rest := if parts[0] == "**" then parts else parts[1..];
      WalksAgree(local, remote, m, rank, base + [e.name], e.target, rest, Visit(local, e.target, visited));
    }
  }

  lemma GlobsAgree(local: Files, remote: Files, m: SegmentMatch, rank: NodeId -> nat, base: Path, at: NodeId,
      parts: seq<string>)
    requires AgreeOn(local, remote, rank)
    ensures Grounded(local, rank)
    ensures Glob(local, m, rank, base, at, parts) == SshWalk(remote, m, rank, base, at, parts)
  {
    AgreeingIsGrounded(local, remote, rank);
    WalksAgree(local, remote, m, rank, base, at, parts, if IsDirectory(local, at) then Visit(local, at, {}) else {});
  }
}
