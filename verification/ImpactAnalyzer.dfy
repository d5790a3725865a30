/**
 * The affected-file search of packages/e2e-testing/src/recursive-impact-analyzer.ts: reverse the import
 * edges, walk them breadth-first to a bounded depth, and sort. Which imports a file has is given.
 */
module ImpactAnalyzer {
  import opened Options

  type File = string

  // Resolved imports by file, None for one that leads nowhere; a file that cannot be read has no entry.
  datatype Project = Project(files: seq<File>, imports: map<File, seq<Option<File>>>)

  type ReverseGraph = map<File, seq<File>>

  predicate Imports(p: Project, f: File, target: File) {
    f in p.files && target in p.files && f in p.imports && Some(target) in p.imports[f]
  }

  predicate Recorded(reverse: ReverseGraph, target: File, f: File) {
    target in reverse && f in reverse[target]
  }

  // ---- the reverse graph ----

  method BuildReverseGraph(p: Project) returns (reverse: ReverseGraph)
    ensures forall target, f :: Recorded(reverse, target, f) <==>
      f in p.files && target in p.files && f in p.imports && Some(target) in p.imports[f]
  {
    reverse := map[];
    for i := 0 to |p.files|
      invariant forall target, f :: Recorded(reverse, target, f) <==> f in p.files[..i] && Imports(p, f, target)
    {
      var file := p.files[i];
      if file in p.imports {
        reverse := RecordImports(p, file, reverse);
      }
    }
    assert p.files[..|p.files|] == p.files;
  }

  lemma RecordOne(reverse: ReverseGraph, target: File, file: File)
    ensures var next := reverse[target := (if target in reverse then reverse[target] else []) + [file]];
      forall t, f :: Recorded(next, t, f) <==> Recorded(reverse, t, f) || (t == target && f == file)
  {
    var deps := if target in reverse then reverse[target] else [];
    var next := reverse[target := deps + [file]];
    forall t, f ensures Recorded(next, t, f) <==> Recorded(reverse, t, f) || (t == target && f == file) {
      assert t == target ==> next[t] == deps + [file];
      assert f in deps + [file] <==> f in deps || f == file;
    }
  }

  method RecordImports(p: Project, file: File, before: ReverseGraph) returns (reverse: ReverseGraph)
    requires file in p.files && file in p.imports
    ensures forall target, f ::
      Recorded(reverse, target, f) <==> Recorded(before, target, f) || (f == file && Imports(p, f, target))
  {
    reverse := before;
    var targets := p.imports[file];
    for k := 0 to |targets|
      invariant forall target, f ::
        Recorded(reverse, target, f) <==>
        Recorded(before, target, f) || (f == file && target in p.files && Some(target) in targets[..k])
    {
      assert targets[..k + 1] == targets[..k] + [targets[k]];
      if targets[k].Some? && targets[k].value in p.files {
        var target := targets[k].value;
        RecordOne(reverse, target, file);
        reverse := reverse[target := (if target in reverse then reverse[target] else []) + [file]];
      }
    }
    assert targets[..|targets|] == targets;
  }

  // ---- what a change affects ----

  // Each file imports the one before it.
  ghost predicate IsChain(p: Project, chain: seq<File>) {
    forall i :: 0 < i < |chain| ==> Imports(p, chain[i], chain[i - 1])
  }

  ghost predicate Leads(p: Project, changed: seq<File>, chain: seq<File>, f: File) {
    chain != [] && chain[0] in changed && chain[0] in p.files && chain[|chain| - 1] == f && IsChain(p, chain)
  }

  // f is reached from a changed source file over at most depth reverse imports.
  ghost predicate Within(p: Project, changed: seq<File>, f: File, depth: int) {
    exists chain :: Leads(p, changed, chain, f) && |chain| - 1 <= depth
  }

  ghost predicate Affected(p: Project, changed: seq<File>, f: File) {
    exists chain :: Leads(p, changed, chain, f)
  }

  lemma WithinNext(p: Project, changed: seq<File>, f: File, g: File, depth: nat)
    requires Within(p, changed, f, depth) && Imports(p, g, f)
    ensures Within(p, changed, g, depth + 1)
  {
    var chain :| Leads(p, changed, chain, f) && |chain| - 1 <= depth;
    assert Leads(p, changed, chain + [g], g);
  }

  lemma WithinBefore(p: Project, changed: seq<File>, g: File, depth: nat)
    requires Within(p, changed, g, depth + 1)
    ensures Within(p, changed, g, depth) || exists f :: Within(p, changed, f, depth) && Imports(p, g, f)
  {
    var chain :| Leads(p, changed, chain, g) && |chain| - 1 <= depth + 1;
    if |chain| > 1 {
      var f := chain[|chain| - 2];
      assert Leads(p, changed, chain[..|chain| - 1], f);
      assert Within(p, changed, f, depth) && Imports(p, g, f);
    }
  }

  // ---- the search ----

  predicate Distinct(s: seq<File>) {
    forall i, j :: 0 <= i < j < |s| ==> s[i] != s[j]
  }

  ghost predicate ReachedFrom(reverse: ReverseGraph, frontier: seq<File>, f: File) {
    exists j :: 0 <= j < |frontier| && Recorded(reverse, frontier[j], f)
  }

  // One level: the dependents of the frontier that were not affected before.
  method Expand(reverse: ReverseGraph, frontier: seq<File>, affected: seq<File>) returns (wider: seq<File>,
      next: seq<File>)
    requires Distinct(affected)
    ensures wider == affected + next && Distinct(wider)
    ensures forall f :: f in wider <==> f in affected || ReachedFrom(reverse, frontier, f)
  {
    wider, next := affected, [];
    for i := 0 to |frontier|
      invariant wider == affected + next && Distinct(wider)
      invariant forall f :: f in wider <==> f in affected || ReachedFrom(reverse, frontier[..i], f)
    {
      var dependents := if frontier[i] in reverse then reverse[frontier[i]] else [];
      var added := AddNew(wider, dependents);
      assert frontier[..i + 1] == frontier[..i] + [frontier[i]];
      forall f
        ensures ReachedFrom(reverse, frontier[..i + 1], f) <==>
          ReachedFrom(reverse, frontier[..i], f) || f in dependents
      {
        ReachedFromOneMore(reverse, frontier[..i], frontier[i], f);
      }
      assert affected + (next + added) == (affected + next) + added;
      wider, next := wider + added, next + added;
    }
    assert frontier[..|frontier|] == frontier;
  }

  lemma ReachedFromOneMore(reverse: ReverseGraph, frontier: seq<File>, file: File, f: File)
    ensures ReachedFrom(reverse, frontier + [file], f) <==>
      ReachedFrom(reverse, frontier, f) || Recorded(reverse, file, f)
  {
    var longer := frontier + [file];
    if ReachedFrom(reverse, frontier, f) {
      var j :| 0 <= j < |frontier| && Recorded(reverse, frontier[j], f);
      assert longer[j] == frontier[j];
    }
    if Recorded(reverse, file, f) {
      assert longer[|frontier|] == file;
    }
  }

  // What adding each candidate to an insertion-ordered set appends to it.
  method AddNew(known: seq<File>, candidates: seq<File>) returns (added: seq<File>)
    requires Distinct(known)
    ensures Distinct(known + added)
    ensures forall f :: f in known + added <==> f in known || f in candidates
  {
    added := [];
    for k := 0 to |candidates|
      invariant Distinct(known + added)
      invariant forall f :: f in known + added <==> f in known || f in candidates[..k]
    {
      if candidates[k] !in known && candidates[k] !in added {
        assert known + (added + [candidates[k]]) == (known + added) + [candidates[k]];
        added := added + [candidates[k]];
      }
    }
  }

  // Everything within depth is affected, and only the frontier may have dependents that are not.
  ghost predicate Searched(p: Project, changed: seq<File>, affected: seq<File>, frontier: seq<File>, depth: nat) {
    && (forall f :: f in affected <==> Within(p, changed, f, depth))
    && (forall f :: f in frontier ==> f in affected)
    && (forall f, g :: f in affected && f !in frontier && Imports(p, g, f) ==> g in affected)
  }

  lemma SearchStarts(p: Project, changed: seq<File>, affected: seq<File>)
    requires forall f :: f in affected <==> f in changed && f in p.files
    ensures Searched(p, changed, affected, affected, 0)
  {
    forall f ensures f in affected <==> Within(p, changed, f, 0) {
      if f in affected {
        assert Leads(p, changed, [f], f);
      }
    }
  }

  lemma SearchWidens(p: Project, changed: seq<File>, reverse: ReverseGraph, affected: seq<File>, frontier: seq<File>,
      depth: nat, wider: seq<File>, next: seq<File>)
    requires forall target, f :: Recorded(reverse, target, f) <==> Imports(p, f, target)
    requires Searched(p, changed, affected, frontier, depth)
    requires wider == affected + next
    requires forall f :: f in wider <==> f in affected || ReachedFrom(reverse, frontier, f)
    ensures Searched(p, changed, wider, next, depth + 1)
  {
    forall g ensures g in wider <==> Within(p, changed, g, depth + 1) {
      if g in affected {
        var chain :| Leads(p, changed, chain, g) && |chain| - 1 <= depth;
        assert |chain| - 1 <= depth + 1;
      } else if ReachedFrom(reverse, frontier, g) {
        var j :| 0 <= j < |frontier| && Recorded(reverse, frontier[j], g);
        WithinNext(p, changed, frontier[j], g, depth);
      }
      if Within(p, changed, g, depth + 1) {
        WithinBefore(p, changed, g, depth);
        if !Within(p, changed, g, depth) {
          var f :| Within(p, changed, f, depth) && Imports(p, g, f);
          DependentIsReached(p, reverse, affected, frontier, f, g);
        }
      }
    }
    forall f, g | f in wider && f !in next && Imports(p, g, f) ensures g in wider {
      DependentIsReached(p, reverse, affected, frontier, f, g);
    }
  }

  lemma DependentIsReached(p: Project, reverse: ReverseGraph, affected: seq<File>, frontier: seq<File>, f: File,
      g: File)
    requires forall target, f :: Recorded(reverse, target, f) <==> Imports(p, f, target)
    requires forall f, g :: f in affected && f !in frontier && Imports(p, g, f) ==> g in affected
    requires f in affected && Imports(p, g, f)
    ensures g in affected || ReachedFrom(reverse, frontier, g)
  {
    if f in frontier {
      var j :| 0 <= j < |frontier| && frontier[j] == f;
      assert Recorded(reverse, frontier[j], g);
    }
  }

  lemma WithinIsMonotone(p: Project, changed: seq<File>, f: File, depth: int, more: int)
    requires depth <= more && Within(p, changed, f, depth)
    ensures Within(p, changed, f, more)
  {
    var chain :| Leads(p, changed, chain, f) && |chain| - 1 <= depth;
    assert |chain| - 1 <= more;
  }

  // With no frontier left the search is complete at any depth: stopping early loses nothing.
  lemma NothingLost(p: Project, changed: seq<File>, affected: seq<File>, depth: nat, f: File)
    requires Searched(p, changed, affected, [], depth)
    ensures f in affected <==> Affected(p, changed, f)
    ensures forall more :: more >= depth ==> (f in affected <==> Within(p, changed, f, more))
  {
    if Affected(p, changed, f) {
      var chain :| Leads(p, changed, chain, f);
      ChainIsAffected(p, changed, affected, depth, chain);
    }
    forall more | more >= depth ensures f in affected <==> Within(p, changed, f, more) {
      if f in affected {
        WithinIsMonotone(p, changed, f, depth, more);
      }
    }
  }

  lemma {:induction false} ChainIsAffected(p: Project, changed: seq<File>, affected: seq<File>, depth: nat,
      chain: seq<File>)
    requires Searched(p, changed, affected, [], depth)
    requires chain != [] && Leads(p, changed, chain, chain[|chain| - 1])
    ensures chain[|chain| - 1] in affected
    decreases |chain|
  {
    if |chain| == 1 {
      assert |chain| - 1 <= depth;
      assert Within(p, changed, chain[0], depth);
    } else {
      ChainIsAffected(p, changed, affected, depth, chain[..|chain| - 1]);
    }
  }

  // ---- sorting ----

  // Strings in order of their characters.
  predicate Before(a: string, b: string) {
    if b == "" then false
    else if a == "" then true
    else if a[0] == b[0] then Before(a[1..], b[1..])
    else a[0] < b[0]
  }

  // Ascending: at the first place where they differ, or where one of them ends.
  ghost predicate AscendsAt(a: string, b: string, k: nat) {
    && k <= |a| && k < |b| && a[..k] == b[..k]
    && (k == |a| || a[k] < b[k])
  }

  lemma AscendsLater(a: string, b: string, k: nat)
    requires a != [] && b != [] && a[0] == b[0]
    ensures AscendsAt(a, b, k + 1) <==> AscendsAt(a[1..], b[1..], k)
  {
    if k + 1 <= |a| && k + 1 < |b| {
      assert a[..k + 1] == [a[0]] + a[1..][..k] && b[..k + 1] == [b[0]] + b[1..][..k];
    }
  }

  lemma DifferAtOnce(a: string, b: string, k: nat)
    requires AscendsAt(a, b, k)
    ensures k > 0 ==> a != "" && a[0] == b[0]
  {
    assert k > 0 ==> a[..k][0] == b[..k][0];
  }

  lemma {:induction false} BeforeAscends(a: string, b: string)
    ensures Before(a, b) <==> exists k :: AscendsAt(a, b, k)
    decreases |a|
  {
    if a != [] && b != [] && a[0] == b[0] {
      BeforeAscends(a[1..], b[1..]);
      if k: nat :| AscendsAt(a[1..], b[1..], k) {
        AscendsLater(a, b, k);
      }
      if k: nat :| AscendsAt(a, b, k) {
        assert k > 0;
        AscendsLater(a, b, k - 1);
      }
    } else {
      assert Before(a, b) ==> AscendsAt(a, b, 0);
      forall k: nat | AscendsAt(a, b, k) ensures k == 0 {
        DifferAtOnce(a, b, k);
      }
    }
  }

  lemma {:induction false} BeforeIsTotal(a: string, b: string)
    ensures a == b || Before(a, b) || Before(b, a)
    decreases |a|
  {
    if a != "" && b != "" && a[0] == b[0] {
      BeforeIsTotal(a[1..], b[1..]);
      assert a == [a[0]] + a[1..] && b == [b[0]] + b[1..];
    }
  }

  lemma {:induction false} BeforeIsTransitive(a: string, b: string, c: string)
    requires Before(a, b) && Before(b, c)
    ensures Before(a, c)
    decreases |a|
  {
    if a != "" && a[0] == b[0] && b[0] == c[0] {
      BeforeIsTransitive(a[1..], b[1..], c[1..]);
    }
  }

  predicate Sorted(s: seq<string>) {
    forall i, j :: 0 <= i < j < |s| ==> Before(s[i], s[j])
  }

  function Insert(x: string, s: seq<string>): (r: seq<string>)
    ensures |r| == |s| + 1
    ensures forall y :: y in r <==> y == x || y in s
  {
    if s == [] then [x]
    else if Before(x, s[0]) then [x] + s
    else [s[0]] + Insert(x, s[1..])
  }

  // The library sort, on names that are all different.
  function Sort(s: seq<string>): (r: seq<string>)
    ensures |r| == |s|
    ensures forall y :: y in r <==> y in s
  {
    if s == [] then [] else Insert(s[0], Sort(s[1..]))
  }

  lemma {:induction false} InsertKeepsOrder(x: string, s: seq<string>)
    requires Sorted(s) && x !in s
    ensures Sorted(Insert(x, s))
    decreases |s|
  {
    if s != [] {
      if Before(x, s[0]) {
        forall j | 0 < j < |s| ensures Before(x, s[j]) {
          BeforeIsTransitive(x, s[0], s[j]);
        }
      } else {
        BeforeIsTotal(x, s[0]);
        InsertKeepsOrder(x, s[1..]);
        var r := Insert(x, s[1..]);
        forall j | 0 <= j < |r| ensures Before(s[0], r[j]) {
          assert r[j] in r;
        }
      }
    }
  }

  lemma {:induction false} SortSorts(s: seq<string>)
    requires Distinct(s)
    ensures Sorted(Sort(s))
    decreases |s|
  {
    if s != [] {
      SortSorts(s[1..]);
      InsertKeepsOrder(s[0], Sort(s[1..]));
    }
  }

  // ---- the analysis ----

  // Each once and in order, exactly the files within maxDepth of a changed source file.
  ghost predicate IsAnalysis(p: Project, changed: seq<File>, maxDepth: int, result: seq<File>) {
    && Sorted(result)
    && forall f :: f in result <==> Within(p, changed, f, if maxDepth < 0 then 0 else maxDepth)
  }

  method Analyze(p: Project, changed: seq<File>, maxDepth: int) returns (result: seq<File>)
    ensures IsAnalysis(p, changed, maxDepth, result)
  {
    var reverse := BuildReverseGraph(p);
    var frontier := SourceFilesIn(p.files, changed);
    var affected := AddNew([], frontier);
    assert [] + affected == affected;
    SearchStartsAt(p, changed, affected, frontier);
    var depth := 0;
    while depth < maxDepth && frontier != []
      invariant 0 <= depth && (depth <= maxDepth || depth == 0)
      invariant Distinct(affected) && Searched(p, changed, affected, frontier, depth)
    {
      var wider, next := Expand(reverse, frontier, affected);
      SearchWidens(p, changed, reverse, affected, frontier, depth, wider, next);
      affected, frontier, depth := wider, next, depth + 1;
    }
    if depth < maxDepth {
      forall f ensures f in affected <==> Within(p, changed, f, maxDepth) {
        NothingLost(p, changed, affected, depth, f);
      }
    }
    SortSorts(affected);
    result := Sort(affected);
  }

  method SourceFilesIn(files: seq<File>, changed: seq<File>) returns (frontier: seq<File>)
    ensures forall f :: f in frontier <==> f in changed && f in files
  {
    frontier := [];
    for i := 0 to |changed|
      invariant forall f :: f in frontier <==> f in changed[..i] && f in files
    {
      if changed[i] in files {
        frontier := frontier + [changed[i]];
      }
    }
  }

  lemma SearchStartsAt(p: Project, changed: seq<File>, affected: seq<File>, frontier: seq<File>)
    requires forall f :: f in frontier <==> f in changed && f in p.files
    requires forall f :: f in affected <==> f in frontier
    ensures Searched(p, changed, affected, frontier, 0)
  {
    SearchStarts(p, changed, affected);
  }

  // ---- depth ----

  lemma ChainIsInProject(p: Project, changed: seq<File>, chain: seq<File>, f: File, i: nat)
    requires Leads(p, changed, chain, f) && i < |chain|
    ensures chain[i] in p.files
  {
    if i > 0 {
      assert Imports(p, chain[i], chain[i - 1]);
    }
  }

  // More places than files: some file comes twice.
  lemma {:induction false} Pigeonhole(chain: seq<File>, files: set<File>) returns (i: nat, j: nat)
    requires (forall k :: 0 <= k < |chain| ==> chain[k] in files) && |chain| > |files|
    ensures i < j < |chain| && chain[i] == chain[j]
    decreases |chain|
  {
    var last := chain[|chain| - 1];
    if k :| 0 <= k < |chain| - 1 && chain[k] == last {
      i, j := k, |chain| - 1;
    } else {
      i, j := Pigeonhole(chain[..|chain| - 1], files - {last});
    }
  }

  // A file that is affected at all is affected by a chain that passes no file twice.
  lemma {:induction false} ShortChainSuffices(p: Project, changed: seq<File>, chain: seq<File>, f: File)
    requires Leads(p, changed, chain, f)
    ensures exists short :: Leads(p, changed, short, f) && |short| <= |p.files|
    decreases |chain|
  {
    if |chain| > |p.files| {
      var files := set g | g in p.files;
      SetIsNoLarger(p.files);
      forall k | 0 <= k < |chain| ensures chain[k] in files {
        ChainIsInProject(p, changed, chain, f, k);
      }
      var i, j := Pigeonhole(chain, files);
      var cut := chain[..i + 1] + chain[j + 1..];
      forall k | 0 < k < |cut| ensures Imports(p, cut[k], cut[k - 1]) {
        if k == i + 1 {
          assert cut[k] == chain[j + 1] && cut[k - 1] == chain[j];
        } else if k > i + 1 {
          assert cut[k] == chain[k + j - i] && cut[k - 1] == chain[k - 1 + j - i];
        }
      }
      ShortChainSuffices(p, changed, cut, f);
    }
  }

  lemma {:induction false} SetIsNoLarger(s: seq<File>)
    ensures |set g | g in s| <= |s|
    decreases |s|
  {
    if s != [] {
      SetIsNoLarger(s[1..]);
      assert (set g | g in s) == (set g | g in s[1..]) + {s[0]};
    }
  }

  // From the number of files on, a larger depth changes nothing: the result is the full closure.
  lemma DepthOfFileCountIsClosure(p: Project, changed: seq<File>, f: File, depth: int)
    requires depth >= |p.files|
    ensures Within(p, changed, f, depth) <==> Affected(p, changed, f)
  {
    if Affected(p, changed, f) {
      var chain :| Leads(p, changed, chain, f);
      ShortChainSuffices(p, changed, chain, f);
      var short :| Leads(p, changed, short, f) && |short| <= |p.files|;
      assert |short| - 1 <= depth;
    }
  }

  // ---- the analysis at two depths ----

  predicate IsSubsequence(a: seq<File>, b: seq<File>) {
    a == [] || (b != [] && if a[0] == b[0] then IsSubsequence(a[1..], b[1..]) else IsSubsequence(a, b[1..]))
  }

  lemma {:induction false} NotBeforeItself(a: string)
    ensures !Before(a, a)
    decreases |a|
  {
    if a != "" {
      NotBeforeItself(a[1..]);
    }
  }

  lemma HeadComesFirst(s: seq<File>, x: File)
    requires s != [] && Sorted(s) && x in s[1..]
    ensures Before(s[0], x) && x != s[0]
  {
    var i :| 0 <= i < |s[1..]| && s[1..][i] == x;
    assert Before(s[0], s[i + 1]);
    NotBeforeItself(x);
  }

  // Where two sorted lists start, if the members of the first are members of the second.
  lemma SortedHeads(a: seq<File>, b: seq<File>)
    requires Sorted(a) && Sorted(b) && a != [] && forall f :: f in a ==> f in b
    ensures b != [] && forall f :: f in (if a[0] == b[0] then a[1..] else a) ==> f in b[1..]
  {
    assert a[0] in b;
    forall f | f in (if a[0] == b[0] then a[1..] else a) ensures f in b[1..] {
      assert f in a && f in b;
      if a[0] == b[0] {
        HeadComesFirst(a, f);
      } else {
        HeadComesFirst(b, a[0]);
        if f != a[0] {
          HeadComesFirst(a, f);
          BeforeIsTransitive(b[0], a[0], f);
        }
        NotBeforeItself(b[0]);
      }
    }
  }

  lemma {:induction false} SortedSubset(a: seq<File>, b: seq<File>)
    requires Sorted(a) && Sorted(b) && forall f :: f in a ==> f in b
    ensures IsSubsequence(a, b)
    decreases |b|
  {
    if a != [] {
      SortedHeads(a, b);
      SortedSubset(if a[0] == b[0] then a[1..] else a, b[1..]);
    }
  }

  lemma {:induction false} SubsequenceLength(a: seq<File>, b: seq<File>)
    requires IsSubsequence(a, b)
    ensures |a| <= |b| && (|a| == |b| ==> a == b)
    decreases |b|
  {
    if a != [] {
      SubsequenceLength(if a[0] == b[0] then a[1..] else a, b[1..]);
      assert a[0] == b[0] ==> a == [a[0]] + a[1..] && b == [a[0]] + b[1..];
    }
  }

  // A deeper analysis reports what a shallower one does, in the same order, with more in between; at the
  // same depth there is only one answer.
  lemma DeeperExtends(p: Project, changed: seq<File>, depth: int, more: int, shallow: seq<File>, deep: seq<File>)
    requires depth <= more && IsAnalysis(p, changed, depth, shallow) && IsAnalysis(p, changed, more, deep)
    ensures IsSubsequence(shallow, deep)
    ensures depth == more ==> shallow == deep
  {
    var d, e := if depth < 0 then 0 else depth, if more < 0 then 0 else more;
    forall f | f in shallow ensures f in deep {
      WithinIsMonotone(p, changed, f, d, e);
    }
    SortedSubset(shallow, deep);
    if depth == more {
      SortedSubset(deep, shallow);
      SubsequenceLength(shallow, deep);
      SubsequenceLength(deep, shallow);
    }
  }

  lemma {:induction false} NothingFurther(p: Project, changed: seq<File>, depth: nat, more: nat, f: File)
    requires depth <= more && Within(p, changed, f, more)
    requires forall g :: Within(p, changed, g, depth + 1) ==> Within(p, changed, g, depth)
    ensures Within(p, changed, f, depth)
    decreases more
  {
    if more > depth {
      WithinBefore(p, changed, f, more - 1);
      if Within(p, changed, f, more - 1) {
        NothingFurther(p, changed, depth, more - 1, f);
      } else {
        var g :| Within(p, changed, g, more - 1) && Imports(p, f, g);
        NothingFurther(p, changed, depth, more - 1, g);
        WithinNext(p, changed, g, f, depth);
      }
    }
  }

  // Growth stops for good: when one level more reports nothing new, no depth ever will.
  lemma GrowthStopsForGood(p: Project, changed: seq<File>, depth: nat, more: nat, result: seq<File>)
    requires IsAnalysis(p, changed, depth, result) && IsAnalysis(p, changed, depth + 1, result) && depth <= more
    ensures IsAnalysis(p, changed, more, result)
  {
    forall g | Within(p, changed, g, depth + 1) ensures Within(p, changed, g, depth) {
      assert g in result;
    }
    forall f ensures f in result <==> Within(p, changed, f, more) {
      if f in result {
        WithinIsMonotone(p, changed, f, depth, more);
      }
      if Within(p, changed, f, more) {
        NothingFurther(p, changed, depth, more, f);
      }
    }
  }
}
