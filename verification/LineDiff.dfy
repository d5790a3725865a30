/**
 * The line diff of packages/code-review/src/wasm-diff.ts: a longest common subsequence by dynamic
 * programming, a traceback through its table, and the printer that turns it into text.
 */
module LineDiff {
  // ---- longest common subsequence ----

  type Pair = (nat, nat)

  function Max(x: nat, y: nat): nat {
    if x >= y then x else y
  }

  // The table entry for the first i elements of a and the first j of b.
  function Lcs<T(==)>(a: seq<T>, b: seq<T>, i: nat, j: nat): nat
    requires i <= |a| && j <= |b|
    decreases i + j
  {
    if i == 0 || j == 0 then 0
    else if a[i - 1] == b[j - 1] then Lcs(a, b, i - 1, j - 1) + 1
    else Max(Lcs(a, b, i - 1, j), Lcs(a, b, i, j - 1))
  }

  // A common subsequence of those prefixes, as pairs of positions increasing in both coordinates.
  ghost predicate IsMatching<T>(a: seq<T>, b: seq<T>, i: nat, j: nat, p: seq<Pair>)
    requires i <= |a| && j <= |b|
  {
    && (forall k :: 0 <= k < |p| ==> p[k].0 < i && p[k].1 < j && a[p[k].0] == b[p[k].1])
    && (forall k, l :: 0 <= k < l < |p| ==> p[k].0 < p[l].0 && p[k].1 < p[l].1)
  }

  // No common subsequence is longer than the table says.
  lemma {:induction false} NoMatchingIsLonger<T>(a: seq<T>, b: seq<T>, i: nat, j: nat, p: seq<Pair>)
    requires i <= |a| && j <= |b| && IsMatching(a, b, i, j, p)
    ensures |p| <= Lcs(a, b, i, j)
    decreases i + j
  {
    if p != [] {
      var last := p[|p| - 1];
      if a[i - 1] == b[j - 1] {
        NoMatchingIsLonger(a, b, i - 1, j - 1, p[..|p| - 1]);
      } else if last.0 < i - 1 {
        NoMatchingIsLonger(a, b, i - 1, j, p);
      } else {
        NoMatchingIsLonger(a, b, i, j - 1, p);
      }
    }
  }

  // The walk back through the table, preferring to drop from a on a tie.
  function Traceback<T(==)>(a: seq<T>, b: seq<T>, i: nat, j: nat): seq<Pair>
    requires i <= |a| && j <= |b|
    decreases i + j
  {
    if i == 0 || j == 0 then []
    else if a[i - 1] == b[j - 1] then Traceback(a, b, i - 1, j - 1) + [(i - 1, j - 1)]
    else if Lcs(a, b, i - 1, j) >= Lcs(a, b, i, j - 1) then Traceback(a, b, i - 1, j)
    else Traceback(a, b, i, j - 1)
  }

  lemma LongerMatching<T>(a: seq<T>, b: seq<T>, i: nat, j: nat, p: seq<Pair>)
    requires i < |a| && j < |b| && a[i] == b[j] && IsMatching(a, b, i, j, p)
    ensures IsMatching(a, b, i + 1, j + 1, p + [(i, j)])
  {
  }

  // A common subsequence of those prefixes as long as the table says.
  ghost predicate Spends<T>(a: seq<T>, b: seq<T>, i: nat, j: nat, p: seq<Pair>)
    requires i <= |a| && j <= |b|
  {
    IsMatching(a, b, i, j, p) && |p| == Lcs(a, b, i, j)
  }

  lemma PairSpends<T>(a: seq<T>, b: seq<T>, i: nat, j: nat, p: seq<Pair>)
    requires 0 < i <= |a| && 0 < j <= |b| && a[i - 1] == b[j - 1] && Spends(a, b, i - 1, j - 1, p)
    ensures Spends(a, b, i, j, p + [(i - 1, j - 1)])
  {
    LongerMatching(a, b, i - 1, j - 1, p);
  }

  lemma DropSpends<T>(a: seq<T>, b: seq<T>, i: nat, j: nat, p: seq<Pair>)
    requires 0 < i <= |a| && 0 < j <= |b| && a[i - 1] != b[j - 1]
    requires if Lcs(a, b, i - 1, j) >= Lcs(a, b, i, j - 1) then Spends(a, b, i - 1, j, p) else Spends(a, b, i, j - 1, p)
    ensures Spends(a, b, i, j, p)
  {
  }

  lemma {:induction false} TracebackSpends<T>(a: seq<T>, b: seq<T>, i: nat, j: nat)
    requires i <= |a| && j <= |b|
    ensures Spends(a, b, i, j, Traceback(a, b, i, j))
    decreases i + j
  {
    if i > 0 && j > 0 {
      if a[i - 1] == b[j - 1] {
        TracebackSpends(a, b, i - 1, j - 1);
        PairSpends(a, b, i, j, Traceback(a, b, i - 1, j - 1));
      } else if Lcs(a, b, i - 1, j) >= Lcs(a, b, i, j - 1) {
        TracebackSpends(a, b, i - 1, j);
        DropSpends(a, b, i, j, Traceback(a, b, i - 1, j));
      } else {
        TracebackSpends(a, b, i, j - 1);
        DropSpends(a, b, i, j, Traceback(a, b, i, j - 1));
      }
    }
  }

  lemma TracebackSpendsTheTable<T>(a: seq<T>, b: seq<T>, i: nat, j: nat)
    requires i <= |a| && j <= |b|
    ensures IsMatching(a, b, i, j, Traceback(a, b, i, j))
    ensures |Traceback(a, b, i, j)| == Lcs(a, b, i, j)
  {
    TracebackSpends(a, b, i, j);
  }

  // The traceback is a common subsequence, and none is longer.
  lemma TracebackIsOptimal<T>(a: seq<T>, b: seq<T>, p: seq<Pair>)
    ensures IsMatching(a, b, |a|, |b|, Traceback(a, b, |a|, |b|))
    ensures IsMatching(a, b, |a|, |b|, p) ==> |p| <= |Traceback(a, b, |a|, |b|)|
  {
    TracebackSpendsTheTable(a, b, |a|, |b|);
    if IsMatching(a, b, |a|, |b|, p) {
      NoMatchingIsLonger(a, b, |a|, |b|, p);
    }
  }

  method LongestCommonSubsequence<T(==)>(a: seq<T>, b: seq<T>) returns (result: seq<Pair>)
    ensures result == Traceback(a, b, |a|, |b|)
    ensures IsMatching(a, b, |a|, |b|, result)
    ensures forall p :: IsMatching(a, b, |a|, |b|, p) ==> |p| <= |result|
  {
    forall p ensures IsMatching(a, b, |a|, |b|, Traceback(a, b, |a|, |b|))
      && (IsMatching(a, b, |a|, |b|, p) ==> |p| <= |Traceback(a, b, |a|, |b|)|)
    {
      TracebackIsOptimal(a, b, p);
    }
    var m, n := |a|, |b|;
    if m == 0 || n == 0 {
      return [];
    }
    var dp := FillTable(a, b);
    result := [];
    var i, j := m, n;
    while i > 0 && j > 0
      invariant 0 <= i <= m && 0 <= j <= n
      invariant Traceback(a, b, i, j) + result == Traceback(a, b, m, n)
      decreases i + j
    {
      if a[i - 1] == b[j - 1] {
        result := [(i - 1, j - 1)] + result;
        i, j := i - 1, j - 1;
      } else if dp[i - 1, j] >= dp[i, j - 1] {
        i := i - 1;
      } else {
        j := j - 1;
      }
    }
  }

  // Row i of the table, from row i - 1.
  method FillRow<T(==)>(a: seq<T>, b: seq<T>, dp: array2<nat>, i: nat)
    requires dp.Length0 == |a| + 1 && dp.Length1 == |b| + 1 && 1 <= i <= |a|
    requires forall r, c :: r == i - 1 && 0 <= c <= |b| ==> dp[r, c] == Lcs(a, b, r, c)
    requires dp[i, 0] == 0
    modifies dp
    ensures forall c :: 0 <= c <= |b| ==> dp[i, c] == Lcs(a, b, i, c)
    ensures forall r, c :: 0 <= r <= |a| && 0 <= c <= |b| && r != i ==> dp[r, c] == old(dp[r, c])
  {
    var j := 1;
    while j <= |b|
      invariant 1 <= j <= |b| + 1
      invariant forall c :: 0 <= c < j ==> dp[i, c] == Lcs(a, b, i, c)
      invariant forall r, c :: 0 <= r <= |a| && 0 <= c <= |b| && r != i ==> dp[r, c] == old(dp[r, c])
    {
      assert dp[i - 1, j - 1] == Lcs(a, b, i - 1, j - 1) && dp[i - 1, j] == Lcs(a, b, i - 1, j);
      var entry := if a[i - 1] == b[j - 1] then dp[i - 1, j - 1] + 1 else Max(dp[i - 1, j], dp[i, j - 1]);
      assert entry == Lcs(a, b, i, j);
      dp[i, j] := entry;
      j := j + 1;
    }
  }

  method FillTable<T(==)>(a: seq<T>, b: seq<T>) returns (dp: array2<nat>)
    ensures fresh(dp) && dp.Length0 == |a| + 1 && dp.Length1 == |b| + 1
    ensures forall r, c :: 0 <= r <= |a| && 0 <= c <= |b| ==> dp[r, c] == Lcs(a, b, r, c)
  {
    dp := new nat[|a| + 1, |b| + 1]((r, c) => 0);
    var i := 1;
    while i <= |a|
      invariant 1 <= i <= |a| + 1
      invariant forall r, c :: 0 <= r < i && 0 <= c <= |b| ==> dp[r, c] == Lcs(a, b, r, c)
      invariant forall r :: i <= r <= |a| ==> dp[r, 0] == 0
    {
      FillRow(a, b, dp, i);
      i := i + 1;
    }
  }

  // ---- edit scripts ----

  datatype Edit<T> = Keep(line: T) | Delete(line: T) | Insert(line: T)

  datatype Side = Old | New

  predicate IsOn<T>(e: Edit<T>, side: Side) {
    e.Keep? || (if side.Old? then e.Delete? else e.Insert?)
  }

  // `lines` followed by those of the old or the new side of a script.
  function LinesOnto<T>(lines: seq<T>, script: seq<Edit<T>>, side: Side): seq<T>
    decreases |script|
  {
    if script == [] then lines
    else
      var before := LinesOnto(lines, script[..|script| - 1], side);
      var last := script[|script| - 1];
      if IsOn(last, side) then before + [last.line] else before
  }

  function Lines<T>(script: seq<Edit<T>>, side: Side): seq<T> {
    LinesOnto([], script, side)
  }

  function Changes<T>(script: seq<Edit<T>>): nat {
    if script == [] then 0
    else Changes(script[..|script| - 1]) + (if script[|script| - 1].Keep? then 0 else 1)
  }

  // Lines that are all deleted, or all inserted.
  function Block<T>(lines: seq<T>, side: Side): seq<Edit<T>> {
    if lines == [] then []
    else Block(lines[..|lines| - 1], side) + [OneLine(lines[|lines| - 1], side)]
  }

  function OneLine<T>(line: T, side: Side): Edit<T> {
    if side.Old? then Delete(line) else Insert(line)
  }

  // The pairs lie ahead of the cursors i and j, in order, each joining equal lines.
  ghost predicate Ahead<T>(a: seq<T>, b: seq<T>, i: nat, j: nat, p: seq<Pair>)
    decreases |p|
  {
    if p == [] then i <= |a| && j <= |b|
    else
      && i <= p[0].0 < |a| && j <= p[0].1 < |b| && a[p[0].0] == b[p[0].1]
      && Ahead(a, b, p[0].0 + 1, p[0].1 + 1, p[1..])
  }

  lemma {:induction false} MatchingIsAhead<T>(a: seq<T>, b: seq<T>, i: nat, j: nat, p: seq<Pair>)
    requires IsMatching(a, b, |a|, |b|, p) && i <= |a| && j <= |b| && (p != [] ==> i <= p[0].0 && j <= p[0].1)
    ensures Ahead(a, b, i, j, p)
    decreases |p|
  {
    if p != [] {
      MatchingIsAhead(a, b, p[0].0 + 1, p[0].1 + 1, p[1..]);
    }
  }

  // One round: up to a pair delete, then insert, then keep the common line.
  function Round<T>(a: seq<T>, b: seq<T>, i: nat, j: nat, k: nat, l: nat): seq<Edit<T>>
    requires i <= k < |a| && j <= l < |b|
  {
    Block(a[i..k], Old) + Block(b[j..l], New) + [Keep(a[k])]
  }

  function Script<T>(a: seq<T>, b: seq<T>, i: nat, j: nat, p: seq<Pair>): seq<Edit<T>>
    requires Ahead(a, b, i, j, p)
    decreases |p|
  {
    if p == [] then Block(a[i..], Old) + Block(b[j..], New)
    else Round(a, b, i, j, p[0].0, p[0].1) + Script(a, b, p[0].0 + 1, p[0].1 + 1, p[1..])
  }

  lemma {:induction false} LinesOfConcat<T>(lines: seq<T>, s: seq<Edit<T>>, t: seq<Edit<T>>, side: Side)
    ensures LinesOnto(lines, s + t, side) == LinesOnto(LinesOnto(lines, s, side), t, side)
    decreases |t|
  {
    if t == [] {
      assert s + t == s;
    } else {
      assert (s + t)[..|s + t| - 1] == s + t[..|t| - 1];
      LinesOfConcat(lines, s, t[..|t| - 1], side);
    }
  }

  lemma {:induction false} ChangesOfConcat<T>(s: seq<Edit<T>>, t: seq<Edit<T>>)
    ensures Changes(s + t) == Changes(s) + Changes(t)
    decreases |t|
  {
    if t == [] {
      assert s + t == s;
    } else {
      assert (s + t)[..|s + t| - 1] == s + t[..|t| - 1];
      ChangesOfConcat(s, t[..|t| - 1]);
    }
  }

  // A block on one side appends its lines there, and leaves the other side alone.
  lemma {:induction false} BlockAppends<T>(lines: seq<T>, block: seq<T>, side: Side)
    ensures LinesOnto(lines, Block(block, side), side) == lines + block
    decreases |block|
  {
    if block == [] {
      assert lines + block == lines;
    } else {
      var init, last := block[..|block| - 1], block[|block| - 1];
      BlockAppends(lines, init, side);
      LinesOneMore(lines, Block(init, side), OneLine(last, side), side);
      assert (lines + init) + [last] == lines + block;
    }
  }

  lemma BlockCopies<T>(a: seq<T>, i: nat, k: nat, side: Side)
    requires i <= k <= |a|
    ensures LinesOnto(a[..i], Block(a[i..k], side), side) == a[..k]
  {
    BlockAppends(a[..i], a[i..k], side);
    assert a[..i] + a[i..k] == a[..k];
  }

  lemma LinesOneMore<T>(lines: seq<T>, s: seq<Edit<T>>, e: Edit<T>, side: Side)
    ensures LinesOnto(lines, s + [e], side) == LinesOnto(lines, s, side) + if IsOn(e, side) then [e.line] else []
  {
    assert (s + [e])[..|s|] == s;
  }

  lemma BlockOneMore<T>(lines: seq<T>, from: nat, i: nat, side: Side)
    requires from <= i < |lines|
    ensures Block(lines[from..i + 1], side) == Block(lines[from..i], side) + [OneLine(lines[i], side)]
  {
    assert lines[from..i + 1][..i - from] == lines[from..i];
  }

  lemma {:induction false} BlockIsOneSided<T>(lines: seq<T>, block: seq<T>, side: Side, other: Side)
    requires side != other
    ensures LinesOnto(lines, Block(block, side), other) == lines
    decreases |block|
  {
    if block != [] {
      BlockIsOneSided(lines, block[..|block| - 1], side, other);
    }
  }

  lemma {:induction false} BlockChanges<T>(block: seq<T>, side: Side)
    ensures Changes(Block(block, side)) == |block|
    decreases |block|
  {
    if block != [] {
      BlockChanges(block[..|block| - 1], side);
    }
  }

  lemma RoundOnOldSide<T>(a: seq<T>, b: seq<T>, i: nat, j: nat, k: nat, l: nat)
    requires i <= k < |a| && j <= l < |b|
    ensures LinesOnto(a[..i], Round(a, b, i, j, k, l), Old) == a[..k + 1]
  {
    var dels, ins := Block(a[i..k], Old), Block(b[j..l], New);
    BlockCopies(a, i, k, Old);
    BlockIsOneSided(a[..k], b[j..l], New, Old);
    LinesOfConcat(a[..i], dels, ins, Old);
    LinesOfConcat(a[..i], dels + ins, [Keep(a[k])], Old);
    assert [Keep(a[k])][..0] == [] && a[..k] + [a[k]] == a[..k + 1];
  }

  lemma RoundOnNewSide<T>(a: seq<T>, b: seq<T>, i: nat, j: nat, k: nat, l: nat)
    requires i <= k < |a| && j <= l < |b| && a[k] == b[l]
    ensures LinesOnto(b[..j], Round(a, b, i, j, k, l), New) == b[..l + 1]
  {
    var dels, ins := Block(a[i..k], Old), Block(b[j..l], New);
    BlockIsOneSided(b[..j], a[i..k], Old, New);
    BlockCopies(b, j, l, New);
    LinesOfConcat(b[..j], dels, ins, New);
    LinesOfConcat(b[..j], dels + ins, [Keep(a[k])], New);
    assert [Keep(a[k])][..0] == [] && b[..l] + [b[l]] == b[..l + 1];
  }

  lemma ChangesOfRound<T>(a: seq<T>, b: seq<T>, i: nat, j: nat, k: nat, l: nat)
    requires i <= k < |a| && j <= l < |b|
    ensures Changes(Round(a, b, i, j, k, l)) == (k - i) + (l - j)
  {
    var dels, ins := Block(a[i..k], Old), Block(b[j..l], New);
    BlockChanges(a[i..k], Old);
    BlockChanges(b[j..l], New);
    ChangesOfConcat(dels, ins);
    ChangesOfConcat(dels + ins, [Keep(a[k])]);
    assert [Keep(a[k])][..0] == [];
  }

  // The script's old lines are those of a.
  lemma {:induction false} ScriptOnOldSide<T>(a: seq<T>, b: seq<T>, i: nat, j: nat, p: seq<Pair>)
    requires Ahead(a, b, i, j, p)
    ensures LinesOnto(a[..i], Script(a, b, i, j, p), Old) == a
    decreases |p|
  {
    if p == [] {
      assert a[i..|a|] == a[i..] && a[..|a|] == a;
      BlockCopies(a, i, |a|, Old);
      BlockIsOneSided(a, b[j..], New, Old);
      LinesOfConcat(a[..i], Block(a[i..], Old), Block(b[j..], New), Old);
    } else {
      var k, l := p[0].0, p[0].1;
      RoundOnOldSide(a, b, i, j, k, l);
      ScriptOnOldSide(a, b, k + 1, l + 1, p[1..]);
      LinesOfConcat(a[..i], Round(a, b, i, j, k, l), Script(a, b, k + 1, l + 1, p[1..]), Old);
    }
  }

  // Its new lines are those of b.
  lemma {:induction false} ScriptOnNewSide<T>(a: seq<T>, b: seq<T>, i: nat, j: nat, p: seq<Pair>)
    requires Ahead(a, b, i, j, p)
    ensures LinesOnto(b[..j], Script(a, b, i, j, p), New) == b
    decreases |p|
  {
    if p == [] {
      assert b[j..|b|] == b[j..] && b[..|b|] == b;
      BlockIsOneSided(b[..j], a[i..], Old, New);
      BlockCopies(b, j, |b|, New);
      LinesOfConcat(b[..j], Block(a[i..], Old), Block(b[j..], New), New);
    } else {
      var k, l := p[0].0, p[0].1;
      RoundOnNewSide(a, b, i, j, k, l);
      ScriptOnNewSide(a, b, k + 1, l + 1, p[1..]);
      LinesOfConcat(b[..j], Round(a, b, i, j, k, l), Script(a, b, k + 1, l + 1, p[1..]), New);
    }
  }

  ghost predicate HasChanges<T>(script: seq<Edit<T>>, n: int) {
    Changes(script) == n
  }

  lemma JoinChanges<T>(s: seq<Edit<T>>, t: seq<Edit<T>>, m: int, n: int)
    requires HasChanges(s, m) && HasChanges(t, n)
    ensures HasChanges(s + t, m + n)
  {
    ChangesOfConcat(s, t);
  }

  // It has one change for every line not in a pair.
  lemma {:induction false} ScriptChanges<T>(a: seq<T>, b: seq<T>, i: nat, j: nat, p: seq<Pair>, script: seq<Edit<T>>)
    requires Ahead(a, b, i, j, p) && script == Script(a, b, i, j, p)
    ensures HasChanges(script, (|a| - i) + (|b| - j) - 2 * |p|)
    decreases |p|
  {
    if p == [] {
      BlockChanges(a[i..], Old);
      BlockChanges(b[j..], New);
      JoinChanges(Block(a[i..], Old), Block(b[j..], New), |a| - i, |b| - j);
    } else {
      var k, l := p[0].0, p[0].1;
      var round, rest := Round(a, b, i, j, k, l), Script(a, b, k + 1, l + 1, p[1..]);
      ChangesOfRound(a, b, i, j, k, l);
      ScriptChanges(a, b, k + 1, l + 1, p[1..], rest);
      JoinChanges(round, rest, (k - i) + (l - j), (|a| - k - 1) + (|b| - l - 1) - 2 * (|p| - 1));
    }
  }

  // The positions of the kept lines of any script on its two sides.
  function KeptPairs<T>(script: seq<Edit<T>>): seq<Pair> {
    if script == [] then []
    else
      var init := script[..|script| - 1];
      KeptPairs(init) + (if script[|script| - 1].Keep? then [(|Lines(init, Old)|, |Lines(init, New)|)] else [])
  }

  // They are a common subsequence, and every other line is a change.
  lemma {:induction false} KeptPairsMatch<T>(script: seq<Edit<T>>)
    ensures var a, b := Lines(script, Old), Lines(script, New);
      IsMatching(a, b, |a|, |b|, KeptPairs(script)) && Changes(script) + 2 * |KeptPairs(script)| == |a| + |b|
    decreases |script|
  {
    if script != [] {
      var init, e := script[..|script| - 1], script[|script| - 1];
      KeptPairsMatch(init);
      var a, b := Lines(init, Old), Lines(init, New);
      MatchingGrows(a, b, KeptPairs(init),
                    if IsOn(e, Old) then [e.line] else [], if IsOn(e, New) then [e.line] else []);
      if e.Keep? {
        LongerMatching(a + [e.line], b + [e.line], |a|, |b|, KeptPairs(init));
      }
    }
  }

  lemma MatchingGrows<T>(a: seq<T>, b: seq<T>, p: seq<Pair>, c: seq<T>, d: seq<T>)
    requires IsMatching(a, b, |a|, |b|, p)
    ensures IsMatching(a + c, b + d, |a|, |b|, p) && IsMatching(a + c, b + d, |a + c|, |b + d|, p)
  {
  }

  function DiffScript<T(==)>(a: seq<T>, b: seq<T>): seq<Edit<T>> {
    TracebackSpendsTheTable(a, b, |a|, |b|);
    MatchingIsAhead(a, b, 0, 0, Traceback(a, b, |a|, |b|));
    Script(a, b, 0, 0, Traceback(a, b, |a|, |b|))
  }

  // The diff's script turns a into b, and no script that does so has fewer changes.
  lemma DiffScriptIsMinimal<T>(a: seq<T>, b: seq<T>, other: seq<Edit<T>>)
    ensures Lines(DiffScript(a, b), Old) == a && Lines(DiffScript(a, b), New) == b
    ensures Changes(DiffScript(a, b)) == |a| + |b| - 2 * Lcs(a, b, |a|, |b|)
    ensures Lines(other, Old) == a && Lines(other, New) == b ==> Changes(DiffScript(a, b)) <= Changes(other)
  {
    var p := Traceback(a, b, |a|, |b|);
    TracebackSpendsTheTable(a, b, |a|, |b|);
    MatchingIsAhead(a, b, 0, 0, p);
    ScriptOnOldSide(a, b, 0, 0, p);
    ScriptOnNewSide(a, b, 0, 0, p);
    ScriptChanges(a, b, 0, 0, p, DiffScript(a, b));
    assert a[..0] == [] && b[..0] == [];
    if Lines(other, Old) == a && Lines(other, New) == b {
      KeptPairsMatch(other);
      NoMatchingIsLonger(a, b, |a|, |b|, KeptPairs(other));
    }
  }

  // ---- the order of changes ----

  // Where lines were replaced, the old ones come first: no insertion stands right before a deletion.
  ghost predicate DeletesFirst<T>(script: seq<Edit<T>>) {
    forall i, j :: 0 <= i && j == i + 1 && j < |script| && script[i].Insert? ==> !script[j].Delete?
  }

  lemma {:induction false} BlockEdits<T>(block: seq<T>, side: Side)
    ensures |Block(block, side)| == |block|
    ensures forall e :: e in Block(block, side) ==> if side == Old then e.Delete? else e.Insert?
    decreases |block|
  {
    if block != [] {
      BlockEdits(block[..|block| - 1], side);
    }
  }

  lemma TwoBlocksInOrder<T>(dels: seq<T>, ins: seq<T>)
    ensures DeletesFirst(Block(dels, Old) + Block(ins, New))
  {
    BlockEdits(dels, Old);
    BlockEdits(ins, New);
    var d, e := Block(dels, Old), Block(ins, New);
    assert forall i :: 0 <= i < |d| ==> d[i] in d && d[i].Delete?;
    assert forall i :: 0 <= i < |e| ==> e[i] in e && e[i].Insert?;
  }

  lemma KeepInBetween<T>(s: seq<Edit<T>>, line: T, t: seq<Edit<T>>)
    requires DeletesFirst(s) && DeletesFirst(t)
    ensures DeletesFirst(s + [Keep(line)] + t)
  {
    var u := s + [Keep(line)] + t;
    assert forall i :: 0 <= i < |s| ==> u[i] == s[i];
    assert forall i :: 0 <= i < |t| ==> u[|s| + 1 + i] == t[i];
    forall i, j | 0 <= i && j == i + 1 && j < |u| && u[i].Insert? ensures !u[j].Delete? {
      if i > |s| {
        assert u[i] == t[i - |s| - 1] && u[j] == t[j - |s| - 1];
      }
    }
  }

  lemma {:induction false} ScriptDeletesFirst<T>(a: seq<T>, b: seq<T>, i: nat, j: nat, p: seq<Pair>)
    requires Ahead(a, b, i, j, p)
    ensures DeletesFirst(Script(a, b, i, j, p))
    decreases |p|
  {
    if p == [] {
      TwoBlocksInOrder(a[i..], b[j..]);
    } else {
      var k, l := p[0].0, p[0].1;
      TwoBlocksInOrder(a[i..k], b[j..l]);
      ScriptDeletesFirst(a, b, k + 1, l + 1, p[1..]);
      KeepInBetween(Block(a[i..k], Old) + Block(b[j..l], New), a[k], Script(a, b, k + 1, l + 1, p[1..]));
    }
  }

  // ---- lines and text ----

  function SplitLines(s: string): (lines: seq<string>)
    ensures lines != []
  {
    if s == "" then [""]
    else if s[0] == '\n' then [""] + SplitLines(s[1..])
    else
      var rest := SplitLines(s[1..]);
      [[s[0]] + rest[0]] + rest[1..]
  }

  function JoinLines(lines: seq<string>): string {
    if lines == [] then "" else if |lines| == 1 then lines[0] else lines[0] + "\n" + JoinLines(lines[1..])
  }

  predicate IsLine(s: string) {
    '\n' !in s
  }

  lemma {:induction false} SplitGivesLines(s: string)
    ensures forall l :: l in SplitLines(s) ==> IsLine(l)
    ensures JoinLines(SplitLines(s)) == s
  {
    if s != "" {
      var rest := SplitLines(s[1..]);
      SplitGivesLines(s[1..]);
      assert rest[0] in rest;
      assert s == [s[0]] + s[1..];
      if s[0] == '\n' {
        assert ([""] + rest)[1..] == rest;
      } else {
        JoinFirstLonger(s[0], rest);
      }
    }
  }

  lemma JoinFirstLonger(c: char, lines: seq<string>)
    requires lines != []
    ensures JoinLines([[c] + lines[0]] + lines[1..]) == [c] + JoinLines(lines)
  {
    assert ([[c] + lines[0]] + lines[1..])[1..] == lines[1..];
    if |lines| > 1 {
      assert ([c] + lines[0]) + "\n" + JoinLines(lines[1..]) == [c] + (lines[0] + "\n" + JoinLines(lines[1..]));
    }
  }

  // Text that starts with a terminated line splits off that line.
  lemma {:induction false} SplitTerminated(line: string, rest: string)
    requires IsLine(line)
    ensures SplitLines(line + "\n" + rest) == [line] + SplitLines(rest)
  {
    if line == "" {
      assert line + "\n" + rest == "\n" + rest;
      assert ("\n" + rest)[1..] == rest;
    } else {
      var t := line[1..] + "\n" + rest;
      assert line + "\n" + rest == [line[0]] + t;
      assert line[0] in line;
      assert forall c :: c in line[1..] ==> c in line;
      SplitTerminated(line[1..], rest);
      assert ([line[0]] + t)[1..] == t;
      assert [line[0]] + line[1..] == line;
    }
  }

  // ---- the printed diff ----

  const HEADER := "--- old\n+++ new\n"

  function Mark(e: Edit<string>): char {
    match e
    case Keep(_) => ' '
    case Delete(_) => '-'
    case Insert(_) => '+'
  }

  function MarkedLine(e: Edit<string>): string {
    [Mark(e)] + e.line
  }

  // The text so far with the lines of a script appended.
  function Render(text: string, script: seq<Edit<string>>): string
    decreases |script|
  {
    if script == [] then text
    else Render(text, script[..|script| - 1]) + (MarkedLine(script[|script| - 1]) + "\n")
  }

  function TextDiff(oldText: string, newText: string): string {
    Render(HEADER, DiffScript(SplitLines(oldText), SplitLines(newText)))
  }

  // The text a diff stands for: its lines under a blank or under the given mark, past the header.
  function Undo(diff: string, mark: char): string {
    var lines := SplitLines(diff);
    if |lines| < 3 then "" else JoinLines(Select(lines[2..|lines| - 1], mark))
  }

  function Select(lines: seq<string>, mark: char): seq<string> {
    if lines == [] then []
    else
      var before, last := Select(lines[..|lines| - 1], mark), lines[|lines| - 1];
      if last != "" && (last[0] == ' ' || last[0] == mark) then before + [last[1..]] else before
  }

  function CountMarked(lines: seq<string>): nat {
    if lines == [] then 0
    else
      var last := lines[|lines| - 1];
      CountMarked(lines[..|lines| - 1]) + (if last != "" && (last[0] == '-' || last[0] == '+') then 1 else 0)
  }

  // Lines of the diff past the header that are not context.
  function ChangedLines(diff: string): nat {
    var lines := SplitLines(diff);
    if |lines| < 3 then 0 else CountMarked(lines[2..|lines| - 1])
  }

  function MarkedLines(script: seq<Edit<string>>): seq<string> {
    seq(|script|, i requires 0 <= i < |script| => MarkedLine(script[i]))
  }

  lemma {:induction false} RenderOfConcat(text: string, s: seq<Edit<string>>, t: seq<Edit<string>>)
    ensures Render(text, s + t) == Render(Render(text, s), t)
    decreases |t|
  {
    if t == [] {
      assert s + t == s;
    } else {
      var n := |t|;
      assert (s + t)[..|s + t| - 1] == s + t[..n - 1];
      RenderOfConcat(text, s, t[..n - 1]);
    }
  }

  lemma {:induction false} RenderOnto(text: string, script: seq<Edit<string>>)
    ensures Render(text, script) == text + Render("", script)
    decreases |script|
  {
    if script != [] {
      RenderOnto(text, script[..|script| - 1]);
    }
  }

  lemma RenderFromTheFront(script: seq<Edit<string>>)
    requires script != []
    ensures Render("", script) == MarkedLine(script[0]) + "\n" + Render("", script[1..])
  {
    var first := script[..1];
    assert script == first + script[1..];
    RenderOfConcat("", first, script[1..]);
    assert first[..0] == [];
    assert Render("", first) == MarkedLine(script[0]) + "\n";
    RenderOnto(Render("", first), script[1..]);
  }

  lemma {:induction false} SplitRendered(script: seq<Edit<string>>)
    requires forall i :: 0 <= i < |script| ==> IsLine(script[i].line)
    ensures SplitLines(Render("", script)) == MarkedLines(script) + [""]
  {
    if script != [] {
      RenderFromTheFront(script);
      SplitTerminated(MarkedLine(script[0]), Render("", script[1..]));
      SplitRendered(script[1..]);
      assert MarkedLines(script) == [MarkedLine(script[0])] + MarkedLines(script[1..]);
    }
  }

  lemma {:induction false} SelectFromMarked(script: seq<Edit<string>>)
    ensures Select(MarkedLines(script), '-') == Lines(script, Old)
    ensures Select(MarkedLines(script), '+') == Lines(script, New)
    ensures CountMarked(MarkedLines(script)) == Changes(script)
  {
    if script != [] {
      var init, e := script[..|script| - 1], script[|script| - 1];
      SelectFromMarked(init);
      assert MarkedLines(script)[..|script| - 1] == MarkedLines(init);
      assert MarkedLine(e)[1..] == e.line;
    }
  }

  lemma {:induction false} LinesOfScript(script: seq<Edit<string>>)
    ensures forall i :: 0 <= i < |script| ==>
      script[i].line in Lines(script, Old) || script[i].line in Lines(script, New)
  {
    if script != [] {
      var init, e := script[..|script| - 1], script[|script| - 1];
      LinesOfScript(init);
      assert e.line in [e.line];
      forall i | 0 <= i < |script|
        ensures script[i].line in Lines(script, Old) || script[i].line in Lines(script, New)
      {
        assert i < |init| ==> script[i] == init[i];
      }
    }
  }

  lemma SplitHeader(body: string)
    ensures SplitLines(HEADER + body) == ["--- old", "+++ new"] + SplitLines(body)
  {
    assert HEADER + body == "--- old" + "\n" + ("+++ new" + "\n" + body);
    SplitTerminated("--- old", "+++ new" + "\n" + body);
    SplitTerminated("+++ new", body);
  }

  lemma BodyLines(script: seq<Edit<string>>)
    requires forall i :: 0 <= i < |script| ==> IsLine(script[i].line)
    ensures |SplitLines(Render(HEADER, script))| >= 3
    ensures SplitLines(Render(HEADER, script))[2..|SplitLines(Render(HEADER, script))| - 1] == MarkedLines(script)
  {
    RenderOnto(HEADER, script);
    SplitHeader(Render("", script));
    SplitRendered(script);
  }

  // What the text of a script gives back.
  lemma TextGivesBackScript(script: seq<Edit<string>>)
    requires forall i :: 0 <= i < |script| ==> IsLine(script[i].line)
    ensures Undo(Render(HEADER, script), '-') == JoinLines(Lines(script, Old))
    ensures Undo(Render(HEADER, script), '+') == JoinLines(Lines(script, New))
    ensures ChangedLines(Render(HEADER, script)) == Changes(script)
  {
    BodyLines(script);
    SelectFromMarked(script);
  }

  // The diff undoes both ways: its blank and '-' lines are exactly the old text, its blank and '+'
  // lines exactly the new one. Its changed lines are as few as any edit script allows.
  lemma DiffUndoesBothWays(oldText: string, newText: string, other: seq<Edit<string>>)
    ensures Undo(TextDiff(oldText, newText), '-') == oldText && Undo(TextDiff(oldText, newText), '+') == newText
    ensures var a, b := SplitLines(oldText), SplitLines(newText);
      && ChangedLines(TextDiff(oldText, newText)) == |a| + |b| - 2 * Lcs(a, b, |a|, |b|)
      && (Lines(other, Old) == a && Lines(other, New) == b ==>
          ChangedLines(TextDiff(oldText, newText)) <= Changes(other))
  {
    var a, b := SplitLines(oldText), SplitLines(newText);
    DiffScriptIsMinimal(a, b, other);
    SplitGivesLines(oldText);
    SplitGivesLines(newText);
    LinesOfScript(DiffScript(a, b));
    TextGivesBackScript(DiffScript(a, b));
  }

  predicate IsMarked(line: string, mark: char) {
    line != "" && line[0] == mark
  }

  lemma MarksInOrder(script: seq<Edit<string>>)
    requires DeletesFirst(script)
    ensures var lines := MarkedLines(script);
      forall i, j :: 0 <= i && j == i + 1 && j < |lines| && IsMarked(lines[i], '+') ==> !IsMarked(lines[j], '-')
  {
    var lines := MarkedLines(script);
    forall i, j | 0 <= i && j == i + 1 && j < |lines| && IsMarked(lines[i], '+') ensures !IsMarked(lines[j], '-') {
      assert script[i].Insert?;
    }
  }

  // In the printed text, between its header and its last line break, no `+` line stands right before a `-` line.
  lemma OldLinesArePrintedFirst(oldText: string, newText: string)
    ensures var all := SplitLines(TextDiff(oldText, newText));
      |all| >= 3 && var lines := all[2..|all| - 1];
      forall i, j :: 0 <= i && j == i + 1 && j < |lines| && IsMarked(lines[i], '+') ==> !IsMarked(lines[j], '-')
  {
    var a, b := SplitLines(oldText), SplitLines(newText);
    var script := DiffScript(a, b);
    TracebackSpendsTheTable(a, b, |a|, |b|);
    MatchingIsAhead(a, b, 0, 0, Traceback(a, b, |a|, |b|));
    ScriptDeletesFirst(a, b, 0, 0, Traceback(a, b, |a|, |b|));
    DiffScriptIsMinimal(a, b, []);
    SplitGivesLines(oldText);
    SplitGivesLines(newText);
    LinesOfScript(script);
    BodyLines(script);
    MarksInOrder(script);
  }

  // ---- the printer ----

  lemma RenderOneMore(text: string, s: seq<Edit<string>>, e: Edit<string>)
    ensures Render(text, s + [e]) == Render(text, s) + (MarkedLine(e) + "\n")
  {
    assert (s + [e])[..|s|] == s;
  }

  // The loops that append a block of deleted or inserted lines.
  method PrintBlock(text: string, lines: seq<string>, from: nat, to: nat, side: Side) returns (printed: string)
    requires from <= to <= |lines|
    ensures printed == Render(text, Block(lines[from..to], side))
  {
    printed := text;
    var i := from;
    assert Block(lines[from..from], side) == [];
    while i < to
      invariant from <= i <= to
      invariant printed == Render(text, Block(lines[from..i], side))
    {
      var e := OneLine(lines[i], side);
      BlockOneMore(lines, from, i, side);
      RenderOneMore(text, Block(lines[from..i], side), e);
      printed := printed + (MarkedLine(e) + "\n");
      i := i + 1;
    }
  }

  // What remains to be printed from cursors i and j brings `text` to `target`.
  ghost predicate Completes(text: string, a: seq<string>, b: seq<string>, i: nat, j: nat, p: seq<Pair>,
      target: string) {
    Ahead(a, b, i, j, p) && Render(text, Script(a, b, i, j, p)) == target
  }

  // One pair: the lines before it on either side, then the common line.
  method PrintRound(text: string, a: seq<string>, b: seq<string>, i: nat, j: nat, k: nat,
      l: nat) returns (printed: string)
    requires i <= k < |a| && j <= l < |b|
    ensures printed == Render(text, Round(a, b, i, j, k, l))
  {
    printed := PrintBlock(text, a, i, k, Old);
    printed := PrintBlock(printed, b, j, l, New);
    RenderOfConcat(text, Block(a[i..k], Old), Block(b[j..l], New));
    RenderOneMore(text, Block(a[i..k], Old) + Block(b[j..l], New), Keep(a[k]));
    printed := printed + (MarkedLine(Keep(a[k])) + "\n");
  }

  lemma RoundCompletes(text: string, a: seq<string>, b: seq<string>, i: nat, j: nat, p: seq<Pair>, target: string)
    requires Completes(text, a, b, i, j, p, target) && p != []
    ensures i <= p[0].0 < |a| && j <= p[0].1 < |b|
    ensures Completes(Render(text, Round(a, b, i, j, p[0].0, p[0].1)), a, b, p[0].0 + 1, p[0].1 + 1, p[1..], target)
  {
    RenderOfConcat(text, Round(a, b, i, j, p[0].0, p[0].1), Script(a, b, p[0].0 + 1, p[0].1 + 1, p[1..]));
  }

  lemma EndCompletes(text: string, a: seq<string>, b: seq<string>, i: nat, j: nat, target: string)
    requires Completes(text, a, b, i, j, [], target)
    ensures Render(Render(text, Block(a[i..|a|], Old)), Block(b[j..|b|], New)) == target
  {
    assert a[i..|a|] == a[i..] && b[j..|b|] == b[j..];
    RenderOfConcat(text, Block(a[i..], Old), Block(b[j..], New));
  }

  method PrintScript(a: seq<string>, b: seq<string>, lcs: seq<Pair>, ghost target: string) returns (result: string)
    requires Completes(HEADER, a, b, 0, 0, lcs, target)
    ensures result == target
  {
    result := HEADER;
    var i, j := 0, 0;
    assert lcs[0..] == lcs;
    for k := 0 to |lcs|
      invariant Completes(result, a, b, i, j, lcs[k..], target)
    {
      assert lcs[k..][0] == lcs[k] && lcs[k..][1..] == lcs[k + 1..];
      RoundCompletes(result, a, b, i, j, lcs[k..], target);
      result := PrintRound(result, a, b, i, j, lcs[k].0, lcs[k].1);
      i, j := lcs[k].0 + 1, lcs[k].1 + 1;
    }
    assert lcs[|lcs|..] == [];
    EndCompletes(result, a, b, i, j, target);
    result := PrintBlock(result, a, i, |a|, Old);
    result := PrintBlock(result, b, j, |b|, New);
  }

  method ComputeTextDiff(oldText: string, newText: string) returns (result: string)
    ensures result == TextDiff(oldText, newText)
    ensures Undo(result, '-') == oldText && Undo(result, '+') == newText
  {
    DiffUndoesBothWays(oldText, newText, []);
    var oldLines, newLines := SplitLines(oldText), SplitLines(newText);
    var lcs := LongestCommonSubsequence(oldLines, newLines);
    MatchingIsAhead(oldLines, newLines, 0, 0, lcs);
    result := PrintScript(oldLines, newLines, lcs, TextDiff(oldText, newText));
  }
}
