/**
 * The ranks by which the glob walk of GlobWalk descends: when there are any, and that the result does
 * not depend on them.
 */
module GlobRanks {
  import opened Options
  import opened GlobWalk

  // ---- when there are ranks ----

  // An entry of a leads to directory b, which has no identity.
  ghost predicate Descends(fs: Files, a: NodeId, b: NodeId) {
    && IsDirectory(fs, a) && IsDirectory(fs, b) && CycleKey(fs[b].key).None?
    && exists e :: e in fs[a].entries && e.target == b
  }

  ghost predicate DescendsAt(fs: Files, p: seq<NodeId>, i: nat)
    requires i + 1 < |p|
  {
    Descends(fs, p[i], p[i + 1])
  }

  // From each directory into the next one.
  ghost predicate IsDescent(fs: Files, p: seq<NodeId>) {
    p != [] && forall i :: 0 <= i < |p| - 1 ==> DescendsAt(fs, p, i)
  }

  // A cycle of directories none of which has an identity.
  ghost predicate IsBareCycle(fs: Files, p: seq<NodeId>) {
    |p| > 1 && IsDescent(fs, p) && p[0] == p[|p| - 1]
  }

  ghost predicate IsGrounded(fs: Files) {
    exists rank :: Grounded(fs, rank)
  }

  lemma {:induction false} RanksFall(fs: Files, rank: NodeId -> nat, p: seq<NodeId>)
    requires Grounded(fs, rank) && IsDescent(fs, p)
    ensures rank(p[|p| - 1]) <= rank(p[0]) && (|p| > 1 ==> rank(p[|p| - 1]) < rank(p[0]))
    decreases |p|
  {
    if |p| > 1 {
      assert DescendsAt(fs, p, 0);
      forall i | 0 <= i < |p[1..]| - 1 ensures DescendsAt(fs, p[1..], i) {
        assert DescendsAt(fs, p, i + 1);
      }
      RanksFall(fs, rank, p[1..]);
    }
  }

  // ---- the longest descent as a rank ----

  ghost predicate DescentOf(fs: Files, at: NodeId, n: nat) {
    exists p :: IsDescent(fs, p) && p[0] == at && |p| == n
  }

  // The length of the longest descent from a directory, up to a bound.
  ghost function Depth(fs: Files, at: NodeId, bound: nat): (n: nat)
    ensures n <= bound
    ensures n > 0 ==> DescentOf(fs, at, n)
    ensures forall k :: n < k <= bound ==> !DescentOf(fs, at, k)
  {
    if bound == 0 || DescentOf(fs, at, bound) then bound else Depth(fs, at, bound - 1)
  }

  lemma LongerByOne(fs: Files, a: NodeId, b: NodeId, n: nat)
    requires Descends(fs, a, b) && DescentOf(fs, b, n)
    ensures DescentOf(fs, a, n + 1)
  {
    var p :| IsDescent(fs, p) && p[0] == b && |p| == n;
    var q := [a] + p;
    forall i | 0 <= i < |q| - 1 ensures DescendsAt(fs, q, i) {
      assert i > 0 ==> DescendsAt(fs, p, i - 1);
    }
    assert IsDescent(fs, q) && q[0] == a && |q| == n + 1;
  }

  // Without a bare cycle no descent meets a directory twice.
  lemma DescentIsSimple(fs: Files, p: seq<NodeId>, i: nat, j: nat)
    requires IsDescent(fs, p) && i < j < |p| && forall q :: !IsBareCycle(fs, q)
    ensures p[i] != p[j]
  {
    var q := p[i..j + 1];
    forall k | 0 <= k < |q| - 1 ensures DescendsAt(fs, q, k) {
      assert DescendsAt(fs, p, i + k);
    }
    assert IsDescent(fs, q) && q[0] == p[i] && q[|q| - 1] == p[j];
    assert !IsBareCycle(fs, q);
  }

  lemma {:induction false} DistinctFit(p: seq<NodeId>, ids: set<NodeId>)
    requires forall i :: 0 <= i < |p| ==> p[i] in ids
    requires forall i, j :: 0 <= i < j < |p| ==> p[i] != p[j]
    ensures |p| <= |ids|
    decreases |p|
  {
    if p != [] {
      DistinctFit(p[1..], ids - {p[0]});
    }
  }

  lemma DescentsAreBounded(fs: Files, p: seq<NodeId>)
    requires IsDescent(fs, p) && |p| > 1 && forall q :: !IsBareCycle(fs, q)
    ensures |p| <= |fs.Keys|
  {
    forall i, j | 0 <= i < j < |p| ensures p[i] != p[j] {
      DescentIsSimple(fs, p, i, j);
    }
    forall i | 0 <= i < |p| ensures p[i] in fs.Keys {
      if i == 0 {
        assert DescendsAt(fs, p, 0);
      } else {
        assert DescendsAt(fs, p, i - 1);
      }
    }
    DistinctFit(p, fs.Keys);
  }

  lemma DepthFalls(fs: Files, a: NodeId, b: NodeId)
    requires Descends(fs, a, b) && forall q :: !IsBareCycle(fs, q)
    ensures Depth(fs, b, |fs.Keys|) < Depth(fs, a, |fs.Keys|)
  {
    assert IsDescent(fs, [b]) && [b][0] == b;
    assert DescentOf(fs, b, 1);
    var n := Depth(fs, b, |fs.Keys|);
    LongerByOne(fs, a, b, n);
    var p :| IsDescent(fs, p) && p[0] == a && |p| == n + 1;
    DescentsAreBounded(fs, p);
  }

  // Ranks exist exactly when every cycle of directories has one with an identity.
  lemma GroundedUnlessBareCycle(fs: Files)
    ensures IsGrounded(fs) <==> forall p :: !IsBareCycle(fs, p)
  {
    if IsGrounded(fs) {
      var rank :| Grounded(fs, rank);
      forall p ensures !IsBareCycle(fs, p) {
        if IsBareCycle(fs, p) {
          RanksFall(fs, rank, p);
        }
      }
    }
    if forall p :: !IsBareCycle(fs, p) {
      var rank := (id: NodeId) => Depth(fs, id, |fs.Keys|);
      forall id, e | IsDirectory(fs, id) && e in fs[id].entries && IsDirectory(fs, e.target) &&
                     CycleKey(fs[e.target].key).None?
        ensures rank(e.target) < rank(id)
      {
        assert Descends(fs, id, e.target);
        DepthFalls(fs, id, e.target);
      }
      assert Grounded(fs, rank);
    }
  }

  // ---- the ranks do not show ----

  lemma {:induction false} SameWalk(fs: Files, m: SegmentMatch, rank: NodeId -> nat, other: NodeId -> nat, base: Path,
      at: NodeId, parts: seq<string>, visited: set<Key>)
    requires Grounded(fs, rank) && Grounded(fs, other)
    ensures Walk(fs, m, rank, base, at, parts, visited) == Walk(fs, m, other, base, at, parts, visited)
    decreases Unseen(fs, visited), rank(at), |parts|, 2, 0
  {
    if parts != [] {
      if parts[0] == "**" && |parts| > 1 {
        SameWalk(fs, m, rank, other, base, at, parts[1..], visited);
      }
      if IsReadable(fs, at) {
        SameEntries(fs, m, rank, other, base, at, fs[at].entries, parts, visited);
      }
    }
  }

  lemma {:induction false} SameEntries(fs: Files, m: SegmentMatch, rank: NodeId -> nat, other: NodeId -> nat,
      base: Path, at: NodeId, entries: seq<Entry>, parts: seq<string>, visited: set<Key>)
    requires Grounded(fs, rank) && Grounded(fs, other) && parts != [] && Among(fs, at, entries)
    ensures WalkEntries(fs, m, rank, base, at, entries, parts, visited) ==
            WalkEntries(fs, m, other, base, at, entries, parts, visited)
    decreases Unseen(fs, visited), rank(at), |parts|, 1, |entries|
  {
    if entries != [] {
      SameEntry(fs, m, rank, other, base, at, entries[0], parts, visited);
      SameEntries(fs, m, rank, other, base, at, entries[1..], parts, visited);
    }
  }

  lemma {:induction false} SameEntry(fs: Files, m: SegmentMatch, rank: NodeId -> nat, other: NodeId -> nat, base: Path,
      at: NodeId, e: Entry, parts: seq<string>, visited: set<Key>)
    requires Grounded(fs, rank) && Grounded(fs, other) && parts != [] && Among(fs, at, [e])
    ensures WalkEntry(fs, m, rank, base, at, e, parts, visited) == WalkEntry(fs, m, other, base, at, e, parts, visited)
    decreases Unseen(fs, visited), rank(at), |parts|, 0, 0
  {
    if IsDirectory(fs, e.target) && !IsVisited(fs, e.target, visited) {
      DescentShrinks(fs, e.target, visited);
      var rest := if parts[0] == "**" then parts else parts[1..];
      SameWalk(fs, m, rank, other, base + [e.name], e.target, rest, Visit(fs, e.target, visited));
    }
  }

  // Any two ranks give the same paths in the same order.
  lemma RanksDoNotShow(fs: Files, m: SegmentMatch, rank: NodeId -> nat, other: NodeId -> nat, base: Path, at: NodeId,
      parts: seq<string>)
    requires Grounded(fs, rank) && Grounded(fs, other)
    ensures Glob(fs, m, rank, base, at, parts) == Glob(fs, m, other, base, at, parts)
  {
    SameWalk(fs, m, rank, other, base, at, parts, if IsDirectory(fs, at) then Visit(fs, at, {}) else {});
  }
}
