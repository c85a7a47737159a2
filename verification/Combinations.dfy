/** Combinations in the order itertools produces them, and all non-empty ones by size. */
module Combinations {
  import opened Prelude
  import opened Graphs

  function Prefixed<T>(x: T, cs: seq<seq<T>>): (r: seq<seq<T>>)
    ensures |r| == |cs|
  {
    seq(|cs|, i requires 0 <= i < |cs| => [x] + cs[i])
  }

  /** The k-element combinations of `pool`, by position. */
  function Combos<T>(pool: seq<T>, k: nat): seq<seq<T>> {
    if k == 0 then [[]]
    else if pool == [] then []
    else Prefixed(pool[0], Combos(pool[1..], k - 1)) + Combos(pool[1..], k)
  }

  /** All combinations of sizes 1 to m. */
  function UpTo<T>(pool: seq<T>, m: nat): seq<seq<T>> {
    if m == 0 then [] else UpTo(pool, m - 1) + Combos(pool, m)
  }

  function NonEmptyCombos<T>(pool: seq<T>): seq<seq<T>> {
    UpTo(pool, |pool|)
  }

  /** The members of `s` in pool order. */
  function Select<T(==)>(pool: seq<T>, s: set<T>): seq<T> {
    if pool == [] then [] else (if pool[0] in s then [pool[0]] else []) + Select(pool[1..], s)
  }

  // ---- Every combination is a selection ----

  lemma {:induction false} SelectElements<T>(pool: seq<T>, s: set<T>)
    ensures Elements(Select(pool, s)) == Elements(pool) * s
  {
    if pool != [] {
      SelectElements(pool[1..], s);
      assert pool == [pool[0]] + pool[1..];
      assert Elements(pool) == {pool[0]} + Elements(pool[1..]);
      assert Elements(Select(pool, s)) == (if pool[0] in s then {pool[0]} else {}) + Elements(Select(pool[1..], s));
    }
  }

  lemma {:induction false} SelectSize<T>(pool: seq<T>, s: set<T>)
    requires NoDuplicates(pool) && s <= Elements(pool)
    ensures |Select(pool, s)| == |s|
  {
    if pool == [] {
      assert s == {};
    } else {
      assert pool == [pool[0]] + pool[1..];
      assert pool[0] !in pool[1..];
      var rest := s - {pool[0]};
      assert rest <= Elements(pool[1..]);
      SelectSize(pool[1..], rest);
      SelectAgrees(pool[1..], s, rest);
    }
  }

  lemma {:induction false} SelectAgrees<T>(pool: seq<T>, s: set<T>, t: set<T>)
    requires forall x :: x in pool ==> (x in s <==> x in t)
    ensures Select(pool, s) == Select(pool, t)
  {
    if pool != [] {
      SelectAgrees(pool[1..], s, t);
    }
  }

  lemma InConcat<T>(c: T, p: seq<T>, q: seq<T>)
    ensures c in p + q <==> c in p || c in q
  {
  }

  lemma InPrefixed<T>(x: T, cs: seq<seq<T>>, c: seq<T>)
    ensures c in Prefixed(x, cs) <==> c != [] && c[0] == x && c[1..] in cs
  {
    var p := Prefixed(x, cs);
    if c in p {
      var i :| 0 <= i < |p| && p[i] == c;
      assert c == [x] + cs[i];
      assert c[1..] == cs[i];
    }
    if c != [] && c[0] == x && c[1..] in cs {
      var i :| 0 <= i < |cs| && cs[i] == c[1..];
      assert p[i] == [x] + cs[i] == c;
    }
  }

  /** A combination either starts with the first pool member or avoids it. */
  predicate IsCombo<T(==)>(pool: seq<T>, k: nat, c: seq<T>)
    decreases |pool|
  {
    if k == 0 then c == []
    else
      && pool != []
      && (IsCombo(pool[1..], k, c) || (c != [] && c[0] == pool[0] && IsCombo(pool[1..], k - 1, c[1..])))
  }

  lemma {:induction false} CombosMember<T>(pool: seq<T>, k: nat, c: seq<T>)
    ensures c in Combos(pool, k) <==> IsCombo(pool, k, c)
    decreases |pool|
  {
    if k > 0 && pool != [] {
      InConcat(c, Prefixed(pool[0], Combos(pool[1..], k - 1)), Combos(pool[1..], k));
      InPrefixed(pool[0], Combos(pool[1..], k - 1), c);
      CombosMember(pool[1..], k, c);
      if c != [] {
        CombosMember(pool[1..], k - 1, c[1..]);
      }
    }
  }

  lemma ConsElements<T>(x: T, s: seq<T>)
    ensures Elements([x] + s) == {x} + Elements(s)
  {
  }

  lemma {:induction false} ComboSize<T>(pool: seq<T>, k: nat, c: seq<T>)
    requires IsCombo(pool, k, c)
    ensures |c| == k
    decreases |pool|
  {
    if k > 0 {
      if IsCombo(pool[1..], k, c) {
        ComboSize(pool[1..], k, c);
      } else {
        ComboSize(pool[1..], k - 1, c[1..]);
      }
    }
  }

  /** A combination of a duplicate-free pool is the selection of its own elements. */
  lemma {:induction false} ComboIsSelection<T>(pool: seq<T>, k: nat, c: seq<T>)
    requires NoDuplicates(pool) && IsCombo(pool, k, c)
    ensures Elements(c) <= Elements(pool) && c == Select(pool, Elements(c))
    decreases |pool|
  {
    if k == 0 {
      SelectNothing(pool);
      assert Elements(c) == {};
    } else {
      var x, rest := pool[0], pool[1..];
      assert pool == [x] + rest;
      ConsElements(x, rest);
      if IsCombo(rest, k, c) {
        ComboIsSelection(rest, k, c);
        SelectSkips(x, rest, Elements(c));
      } else {
        var d := c[1..];
        ComboIsSelection(rest, k - 1, d);
        assert c == [x] + d;
        ConsElements(x, d);
        SelectTakes(x, rest, Elements(d));
      }
    }
  }

  lemma SelectSkips<T>(x: T, rest: seq<T>, s: set<T>)
    requires NoDuplicates([x] + rest) && s <= Elements(rest)
    ensures Select([x] + rest, s) == Select(rest, s)
  {
    assert ([x] + rest)[0] == x && ([x] + rest)[1..] == rest;
    assert x !in rest;
  }

  lemma SelectTakes<T>(x: T, rest: seq<T>, s: set<T>)
    requires NoDuplicates([x] + rest)
    ensures Select([x] + rest, {x} + s) == [x] + Select(rest, s)
  {
    assert ([x] + rest)[0] == x && ([x] + rest)[1..] == rest;
    assert x !in rest;
    SelectAgrees(rest, {x} + s, s);
  }

  lemma {:induction false} SelectNothing<T>(pool: seq<T>)
    ensures Select(pool, {}) == []
  {
    if pool != [] {
      SelectNothing(pool[1..]);
    }
  }

  /** Every selection is a combination. */
  lemma {:induction false} SelectionIsCombo<T>(pool: seq<T>, k: nat, s: set<T>)
    requires NoDuplicates(pool) && s <= Elements(pool) && |s| == k
    ensures IsCombo(pool, k, Select(pool, s))
    decreases |pool|
  {
    if k == 0 {
      SelectNothing(pool);
    } else {
      NonEmptyPool(pool, s);
      var x, rest := pool[0], pool[1..];
      if x in s {
        SelectionIsCombo(rest, k - 1, s - {x});
        TakenSelection(x, rest, k, s);
      } else {
        SelectionIsCombo(rest, k, s);
        SkippedSelection(x, rest, k, s);
      }
      assert [x] + rest == pool;
    }
  }

  lemma SkippedSelection<T>(x: T, rest: seq<T>, k: nat, s: set<T>)
    requires NoDuplicates([x] + rest) && s <= Elements(rest) && k > 0 && IsCombo(rest, k, Select(rest, s))
    ensures IsCombo([x] + rest, k, Select([x] + rest, s))
  {
    SelectSkips(x, rest, s);
    ComboSkips(x, rest, k, Select(rest, s));
  }

  lemma NonEmptyPool<T>(pool: seq<T>, s: set<T>)
    requires NoDuplicates(pool) && s <= Elements(pool) && |s| > 0
    ensures pool != [] && NoDuplicates(pool[1..]) && s - {pool[0]} <= Elements(pool[1..])
    ensures pool[0] !in s ==> s <= Elements(pool[1..])
    ensures pool[0] in s ==> |s - {pool[0]}| == |s| - 1
  {
    var y :| y in s;
    assert y in pool;
    assert pool == [pool[0]] + pool[1..];
    ConsElements(pool[0], pool[1..]);
  }

  lemma TakenSelection<T>(x: T, rest: seq<T>, k: nat, s: set<T>)
    requires NoDuplicates([x] + rest) && x in s && k > 0 && IsCombo(rest, k - 1, Select(rest, s - {x}))
    ensures IsCombo([x] + rest, k, Select([x] + rest, s))
  {
    SelectTakes(x, rest, s - {x});
    assert s == {x} + (s - {x});
    ComboExtends(x, rest, k, Select(rest, s - {x}));
  }

  lemma ComboExtends<T>(x: T, rest: seq<T>, k: nat, c: seq<T>)
    requires k > 0 && IsCombo(rest, k - 1, c)
    ensures IsCombo([x] + rest, k, [x] + c)
  {
    assert ([x] + rest)[1..] == rest && ([x] + c)[1..] == c;
  }

  lemma ComboSkips<T>(x: T, rest: seq<T>, k: nat, c: seq<T>)
    requires k > 0 && IsCombo(rest, k, c)
    ensures IsCombo([x] + rest, k, c)
  {
    assert ([x] + rest)[1..] == rest;
  }

  // ---- No combination is listed twice ----

  lemma {:induction false} CombosDistinct<T>(pool: seq<T>, k: nat)
    requires NoDuplicates(pool)
    ensures NoDuplicates(Combos(pool, k))
  {
    if k > 0 && pool != [] {
      var x, rest := pool[0], pool[1..];
      assert pool == [x] + rest;
      assert x !in rest;
      CombosDistinct(rest, k - 1);
      CombosDistinct(rest, k);
      var p, q := Prefixed(x, Combos(rest, k - 1)), Combos(rest, k);
      forall i, j | 0 <= i < j < |p|
        ensures p[i] != p[j]
      {
        assert p[i] == [x] + Combos(rest, k - 1)[i] && p[j] == [x] + Combos(rest, k - 1)[j];
        assert p[i][1..] == Combos(rest, k - 1)[i] && p[j][1..] == Combos(rest, k - 1)[j];
      }
      forall i, j | 0 <= i < |p| && 0 <= j < |q|
        ensures p[i] != q[j]
      {
        CombosMember(rest, k, q[j]);
        ComboIsSelection(rest, k, q[j]);
        assert x in Elements(p[i]) by { assert p[i][0] == x; }
        assert x !in Elements(q[j]);
      }
      DistinctConcat(p, q);
    }
  }

  lemma DistinctConcat<T>(p: seq<T>, q: seq<T>)
    requires NoDuplicates(p) && NoDuplicates(q)
    requires forall i, j :: 0 <= i < |p| && 0 <= j < |q| ==> p[i] != q[j]
    ensures NoDuplicates(p + q)
  {
  }

  lemma DistinctBySize<T>(p: seq<seq<T>>, q: seq<seq<T>>, m: nat)
    requires NoDuplicates(p) && NoDuplicates(q)
    requires forall i :: 0 <= i < |p| ==> |p[i]| < m
    requires forall j :: 0 <= j < |q| ==> |q[j]| == m
    ensures NoDuplicates(p + q)
  {
  }

  lemma {:induction false} UpToIsCombo<T>(pool: seq<T>, m: nat, c: seq<T>)
    requires c in UpTo(pool, m)
    ensures 1 <= |c| <= m && IsCombo(pool, |c|, c)
  {
    InConcat(c, UpTo(pool, m - 1), Combos(pool, m));
    if c in UpTo(pool, m - 1) {
      UpToIsCombo(pool, m - 1, c);
    } else {
      CombosMember(pool, m, c);
      ComboSize(pool, m, c);
    }
  }

  lemma {:induction false} ComboInUpTo<T>(pool: seq<T>, m: nat, k: nat, c: seq<T>)
    requires 1 <= k <= m && IsCombo(pool, k, c)
    ensures c in UpTo(pool, m)
  {
    InConcat(c, UpTo(pool, m - 1), Combos(pool, m));
    if k == m {
      CombosMember(pool, m, c);
    } else {
      ComboInUpTo(pool, m - 1, k, c);
    }
  }

  lemma {:induction false} UpToDistinct<T>(pool: seq<T>, m: nat)
    requires NoDuplicates(pool)
    ensures NoDuplicates(UpTo(pool, m))
  {
    if m > 0 {
      UpToDistinct(pool, m - 1);
      CombosDistinct(pool, m);
      UpToSizes(pool, m - 1);
      CombosSizes(pool, m);
      DistinctBySize(UpTo(pool, m - 1), Combos(pool, m), m);
    }
  }

  lemma CombosSizes<T>(pool: seq<T>, k: nat)
    ensures forall j :: 0 <= j < |Combos(pool, k)| ==> |Combos(pool, k)[j]| == k
  {
    var cs := Combos(pool, k);
    forall j | 0 <= j < |cs|
      ensures |cs[j]| == k
    {
      CombosMember(pool, k, cs[j]);
      ComboSize(pool, k, cs[j]);
    }
  }

  lemma {:induction false} UpToSizes<T>(pool: seq<T>, m: nat)
    ensures forall i :: 0 <= i < |UpTo(pool, m)| ==> 1 <= |UpTo(pool, m)[i]| < m + 1
  {
    if m > 0 {
      UpToSizes(pool, m - 1);
      CombosSizes(pool, m);
    }
  }

  // ---- How many there are ----

  function Power2(n: nat): nat {
    if n == 0 then 1 else 2 * Power2(n - 1)
  }

  lemma {:induction false} TooLarge<T>(pool: seq<T>, k: nat)
    requires k > |pool|
    ensures |Combos(pool, k)| == 0
  {
    if pool != [] {
      TooLarge(pool[1..], k - 1);
      TooLarge(pool[1..], k);
    }
  }

  /** Pascal's rule, summed. */
  lemma {:induction false} UpToCount<T>(pool: seq<T>, m: nat)
    requires pool != []
    ensures |UpTo(pool, m)| == |UpTo(pool[1..], m)| + if m == 0 then 0 else 1 + |UpTo(pool[1..], m - 1)|
  {
    if m > 0 {
      UpToCount(pool, m - 1);
      assert |Combos(pool, m)| == |Combos(pool[1..], m - 1)| + |Combos(pool[1..], m)|;
      if m == 1 {
        assert Combos(pool[1..], 0) == [[]];
      } else {
        assert |UpTo(pool[1..], m - 1)| == |UpTo(pool[1..], m - 2)| + |Combos(pool[1..], m - 1)|;
      }
    }
  }

  lemma {:induction false} Count<T>(pool: seq<T>)
    ensures |NonEmptyCombos(pool)| == Power2(|pool|) - 1
  {
    if pool != [] {
      var rest, n := pool[1..], |pool|;
      Count(rest);
      UpToCount(pool, n);
      NoneTooLarge(rest);
    }
  }

  lemma NoneTooLarge<T>(rest: seq<T>)
    ensures |UpTo(rest, |rest| + 1)| == |UpTo(rest, |rest|)|
  {
    TooLarge(rest, |rest| + 1);
  }

  /** Of a duplicate-free pool, the list has each non-empty subset exactly once. */
  lemma EverySubsetOnce<T>(pool: seq<T>)
    requires NoDuplicates(pool)
    ensures var all := NonEmptyCombos(pool);
            && NoDuplicates(all) && |all| == Power2(|pool|) - 1
            && (forall c :: c in all ==> c != [] && NoDuplicates(c) && Elements(c) <= Elements(pool))
            && (forall c, d :: c in all && d in all && Elements(c) == Elements(d) ==> c == d)
            && (forall s :: s != {} && s <= Elements(pool) ==> exists c :: c in all && Elements(c) == s)
  {
    var all := NonEmptyCombos(pool);
    UpToDistinct(pool, |pool|);
    Count(pool);
    forall c | c in all
      ensures c != [] && NoDuplicates(c) && Elements(c) <= Elements(pool) && c == Select(pool, Elements(c))
    {
      UpToIsCombo(pool, |pool|, c);
      ComboIsSelection(pool, |c|, c);
      SelectDistinct(pool, Elements(c));
    }
    forall s | s != {} && s <= Elements(pool)
      ensures exists c :: c in all && Elements(c) == s
    {
      SubsetListed(pool, s);
    }
  }

  lemma {:induction false} SelectDistinct<T>(pool: seq<T>, s: set<T>)
    requires NoDuplicates(pool)
    ensures NoDuplicates(Select(pool, s))
  {
    if pool != [] {
      assert pool == [pool[0]] + pool[1..];
      assert pool[0] !in pool[1..];
      SelectDistinct(pool[1..], s);
      SelectElements(pool[1..], s);
      assert pool[0] !in Elements(Select(pool[1..], s));
    }
  }

  lemma SubsetListed<T>(pool: seq<T>, s: set<T>)
    requires NoDuplicates(pool) && s != {} && s <= Elements(pool)
    ensures Select(pool, s) in NonEmptyCombos(pool) && Elements(Select(pool, s)) == s
  {
    var k := |s|;
    SelectionIsCombo(pool, k, s);
    SelectElements(pool, s);
    SubsetBounds(pool, s);
    ComboInUpTo(pool, |pool|, k, Select(pool, s));
  }

  lemma SubsetBounds<T>(pool: seq<T>, s: set<T>)
    requires s != {} && s <= Elements(pool)
    ensures 1 <= |s| <= |pool|
  {
    SizeOfElements(pool);
    SubsetSize(s, Elements(pool));
    var x :| x in s;
    SubsetSize({x}, s);
  }

  lemma {:induction false} SizeOfElements<T>(pool: seq<T>)
    ensures |Elements(pool)| <= |pool|
  {
    if pool != [] {
      SizeOfElements(pool[1..]);
      assert pool == [pool[0]] + pool[1..];
      assert Elements(pool) == {pool[0]} + Elements(pool[1..]);
    }
  }
}
