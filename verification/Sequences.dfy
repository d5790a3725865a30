/** What more than one module needs of sequences. */
module Sequences {
  lemma Regroup<T>(a: seq<T>, b: seq<T>, c: seq<T>)
    ensures (a + b) + c == a + (b + c)
  {
  }

  // How many elements have a property.
  ghost function Count<T>(s: seq<T>, p: T -> bool): nat {
    |Places(s, p)|
  }

  ghost function Places<T>(s: seq<T>, p: T -> bool): set<nat> {
    set i: nat | i < |s| && p(s[i])
  }

  lemma CountNone<T>(p: T -> bool)
    ensures Count([], p) == 0
  {
    assert Places([], p) == {};
  }

  lemma CountLast<T>(s: seq<T>, p: T -> bool)
    requires s != []
    ensures Count(s, p) == Count(s[..|s| - 1], p) + if p(s[|s| - 1]) then 1 else 0
  {
    var n: nat := |s| - 1;
    assert Places(s, p) == Places(s[..n], p) + if p(s[n]) then {n} else {};
  }

  lemma {:induction false} CountFirst<T>(s: seq<T>, p: T -> bool)
    requires s != []
    ensures Count(s, p) == (if p(s[0]) then 1 else 0) + Count(s[1..], p)
    decreases |s|
  {
    CountLast(s, p);
    if |s| == 1 {
      CountNone(p);
      assert s[..0] == [] && s[1..] == [];
    } else {
      CountFirst(s[..|s| - 1], p);
      CountLast(s[1..], p);
      assert s[..|s| - 1][1..] == s[1..][..|s| - 2];
    }
  }
}
