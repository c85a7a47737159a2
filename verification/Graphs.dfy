/** Finite dependency graphs: paths, cycles and topological orders.
    `g[n]` is the set of nodes that `n` depends on. */
module Graphs {
  import opened Prelude

  type Graph<!T> = map<T, set<T>>

  /** Every consecutive pair of `p` is a dependency edge of `g`. */
  ghost predicate IsPath<T>(g: Graph<T>, p: seq<T>) {
    && |p| > 0
    && forall i :: 0 <= i < |p| - 1 ==> p[i] in g && p[i + 1] in g[p[i]]
  }

  ghost predicate IsCycle<T>(g: Graph<T>, p: seq<T>) {
    IsPath(g, p) && |p| >= 2 && p[0] == p[|p| - 1]
  }

  ghost predicate Cyclic<T(!new)>(g: Graph<T>) {
    exists p: seq<T> :: IsCycle(g, p)
  }

  /** `a` depends on `b`, directly or through other nodes. */
  ghost predicate DependsOn<T(!new)>(g: Graph<T>, a: T, b: T) {
    exists p: seq<T> :: IsPath(g, p) && |p| >= 2 && p[0] == a && p[|p| - 1] == b
  }

  predicate NoDuplicates<T(==)>(s: seq<T>) {
    forall i, j :: 0 <= i < j < |s| ==> s[i] != s[j]
  }

  function Elements<T(==)>(s: seq<T>): set<T> {
    set x | x in s
  }

  /** How many of the first `n` flags are set. */
  function CountTrue(flags: seq<bool>, n: nat): nat
    requires n <= |flags|
  {
    if n == 0 then 0 else CountTrue(flags, n - 1) + if flags[n - 1] then 1 else 0
  }

  /** Counting the flagged entries of a list without duplicates counts the flagged set. */
  lemma {:induction false} FlaggedCount<T>(ids: seq<T>, flags: seq<bool>, n: nat, s: set<T>)
    requires NoDuplicates(ids) && |flags| == |ids| && n <= |ids|
    requires forall x :: x in s <==> exists j :: 0 <= j < n && flags[j] && ids[j] == x
    ensures CountTrue(flags, n) == |s|
  {
    if n == 0 {
      assert s == {};
    } else {
      var last := ids[n - 1];
      var s' := if flags[n - 1] then s - {last} else s;
      forall x
        ensures x in s' <==> exists j :: 0 <= j < n - 1 && flags[j] && ids[j] == x
      {
        if x in s' {
          var j :| 0 <= j < n && flags[j] && ids[j] == x;
          assert j < n - 1;
        }
      }
      FlaggedCount(ids, flags, n - 1, s');
    }
  }

  /** Entry `i` of `order` is a node that comes after all its dependencies. */
  ghost predicate ComesAfter<T>(g: Graph<T>, order: seq<T>, i: nat)
    requires i < |order|
  {
    order[i] in g && forall d :: d in g[order[i]] ==> d in order[..i]
  }

  /** `order` lists every node once and only after everything the node depends on. */
  ghost predicate TopologicalOrder<T>(g: Graph<T>, order: seq<T>) {
    && NoDuplicates(order)
    && Elements(order) == g.Keys
    && forall i :: 0 <= i < |order| ==> ComesAfter(g, order, i)
  }

  lemma DirectDependency<T(!new)>(g: Graph<T>, a: T, b: T)
    requires a in g && b in g[a]
    ensures DependsOn(g, a, b)
  {
    var p := [a, b];
    assert IsPath(g, p) && |p| >= 2 && p[0] == a && p[|p| - 1] == b;
  }

  lemma DependencyPrepend<T(!new)>(g: Graph<T>, a: T, b: T, c: T)
    requires a in g && b in g[a] && DependsOn(g, b, c)
    ensures DependsOn(g, a, c)
  {
    var p :| IsPath(g, p) && |p| >= 2 && p[0] == b && p[|p| - 1] == c;
    var q := [a] + p;
    assert forall i :: 0 < i < |q| ==> q[i] == p[i - 1];
    assert forall i :: 0 <= i < |q| - 1 ==> q[i] in g && q[i + 1] in g[q[i]];
    assert IsPath(g, q) && |q| >= 2 && q[0] == a && q[|q| - 1] == c;
  }

  lemma PathTail<T>(g: Graph<T>, p: seq<T>)
    requires IsPath(g, p) && |p| >= 2
    ensures IsPath(g, p[1..]) && p[1..][|p| - 2] == p[|p| - 1]
  {
    var q := p[1..];
    forall i | 0 <= i < |q| - 1
      ensures q[i] in g && q[i + 1] in g[q[i]]
    {
      assert q[i] == p[i + 1] && q[i + 1] == p[(i + 1) + 1];
    }
  }

  /** A set closed under dependencies contains everything its members depend on. */
  lemma {:induction false} ClosedUnderPaths<T>(g: Graph<T>, s: set<T>, p: seq<T>)
    requires IsPath(g, p) && p[0] in s
    requires forall n :: n in s && n in g ==> g[n] <= s
    ensures p[|p| - 1] in s
  {
    if |p| > 1 {
      assert p[1] in g[p[0]];
      PathTail(g, p);
      ClosedUnderPaths(g, s, p[1..]);
    }
  }

  /** More places than values: some value occurs twice. */
  lemma {:induction false} Pigeonhole<T>(p: seq<T>, s: set<T>) returns (i: nat, j: nat)
    requires |p| > |s| && forall k :: 0 <= k < |p| ==> p[k] in s
    ensures i < j < |p| && p[i] == p[j]
  {
    var last := |p| - 1;
    if k :| 0 <= k < last && p[k] == p[last] {
      return k, last;
    }
    assert |s - {p[last]}| == |s| - 1;
    i, j := Pigeonhole(p[..last], s - {p[last]});
  }

  /** A walk of any length that never leaves `s`. */
  lemma {:induction false} Walk<T>(g: Graph<T>, s: set<T>, n: nat) returns (p: seq<T>)
    requires s != {} && forall m :: m in s ==> m in g && g[m] * s != {}
    ensures |p| == n + 1 && IsPath(g, p) && forall k :: 0 <= k < |p| ==> p[k] in s
  {
    if n == 0 {
      var m :| m in s;
      p := [m];
    } else {
      var q := Walk(g, s, n - 1);
      assert g[q[n - 1]] * s != {};
      var m :| m in g[q[n - 1]] * s;
      p := q + [m];
    }
  }

  /** The heart of every progress argument: if each member of a non-empty set waits for
      another member of the set, the graph has a cycle. */
  lemma EveryoneWaitsIsCyclic<T(!new)>(g: Graph<T>, s: set<T>)
    requires s != {} && forall n :: n in s ==> n in g && g[n] * s != {}
    ensures Cyclic(g)
  {
    var p := Walk(g, s, |s|);
    var i, j := Pigeonhole(p, s);
    var c := p[i..j + 1];
    assert forall k :: 0 <= k < |c| ==> c[k] == p[i + k];
    assert IsCycle(g, c);
  }

  /** Along a path, positions in a topological order strictly decrease. */
  lemma {:induction false} PathsDescend<T>(g: Graph<T>, order: seq<T>, p: seq<T>, i: nat, j: nat)
    requires TopologicalOrder(g, order) && IsPath(g, p) && |p| >= 2
    requires i < |order| && j < |order| && order[i] == p[0] && order[j] == p[|p| - 1]
    ensures j < i
  {
    assert ComesAfter(g, order, i);
    assert p[1] in order[..i];
    var k :| 0 <= k < i && order[..i][k] == p[1];
    if |p| > 2 {
      PathTail(g, p);
      PathsDescend(g, order, p[1..], k, j);
    }
  }

  lemma OrderedIsAcyclic<T(!new)>(g: Graph<T>, order: seq<T>)
    requires TopologicalOrder(g, order)
    ensures !Cyclic(g)
  {
    if p :| IsCycle(g, p) {
      assert p[0] in g;
      assert p[0] in order;
      var i :| 0 <= i < |order| && order[i] == p[0];
      PathsDescend(g, order, p, i, i);
    }
  }

  /** Topological sort that repeatedly removes the nodes that wait for nothing. */
  method SortGraph<T(==,!new)>(full: Graph<T>, ids: seq<T>) returns (acyclic: bool, ghost ordered: seq<T>)
    requires NoDuplicates(ids) && Elements(ids) == full.Keys && EdgesInside(full)
    ensures acyclic <==> !Cyclic(full)
    ensures acyclic ==> TopologicalOrder(full, ordered)
  {
    var graph := full;
    ordered := [];
    while graph.Keys != {}
      invariant Sorting(full, graph, ordered)
      decreases |graph.Keys|
    {
      var roots := Roots(graph, ids);
      if roots == [] {
        Stuck(full, graph, ordered, ids);
        return false, [];
      }
      ghost var before, done := graph, ordered;
      graph, ordered := RemoveRoots(graph, roots, ordered);
      graph := DropDependencies(graph, roots, ids);
      RoundDone(full, before, done, roots, graph);
    }
    Finished(full, graph, ordered);
    OrderedIsAcyclic(full, ordered);
    return true, ordered;
  }

  ghost predicate EdgesInside<T(!new)>(g: Graph<T>) {
    forall n, d :: n in g && d in g[n] ==> d in g
  }

  /** What each round of the sort keeps: `graph` is what is left, without the edges into
      the nodes already `ordered`. */
  ghost predicate Sorting<T(!new)>(full: Graph<T>, graph: Graph<T>, ordered: seq<T>) {
    && (forall n :: n in full <==> n in graph || n in ordered)
    && (forall n :: n in graph ==> n !in ordered)
    && NoDuplicates(ordered)
    && (forall n, d :: n in graph ==> (d in graph[n] <==> d in full[n] && d !in ordered))
    && (forall i :: 0 <= i < |ordered| ==> ComesAfter(full, ordered, i))
  }

  lemma StuckNodeWaits<T(!new)>(full: Graph<T>, graph: Graph<T>, ordered: seq<T>, n: T)
    requires Sorting(full, graph, ordered) && EdgesInside(full)
    requires n in graph && graph[n] != {}
    ensures n in full && full[n] * graph.Keys != {}
  {
    var d :| d in graph[n];
    assert n in full;
    assert d in full[n] && d !in ordered;
    assert d in full && d in graph.Keys;
    assert d in full[n] * graph.Keys;
  }

  /** A round without roots means that every remaining node waits for a remaining node. */
  lemma Stuck<T(!new)>(full: Graph<T>, graph: Graph<T>, ordered: seq<T>, ids: seq<T>)
    requires Sorting(full, graph, ordered) && graph.Keys != {} && EdgesInside(full)
    requires NoDuplicates(ids) && Elements(ids) == full.Keys && Roots(graph, ids) == []
    ensures Cyclic(full)
  {
    forall n | n in graph.Keys
      ensures full[n] * graph.Keys != {}
    {
      assert n in Elements(ids);
      assert n !in Roots(graph, ids);
      StuckNodeWaits(full, graph, ordered, n);
    }
    EveryoneWaitsIsCyclic(full, graph.Keys);
  }

  lemma RoundDone<T(!new)>(full: Graph<T>, before: Graph<T>, done: seq<T>, roots: seq<T>, after: Graph<T>)
    requires Sorting(full, before, done) && roots != [] && NoDuplicates(roots)
    requires forall n :: n in roots ==> n in before && before[n] == {}
    requires after.Keys == before.Keys - Elements(roots)
    requires forall n :: n in after ==> after[n] == before[n] - Elements(roots)
    ensures Sorting(full, after, done + roots) && |after.Keys| < |before.Keys|
  {
    forall i | 0 <= i < |roots|
      ensures roots[i] in full && roots[i] !in done && forall d :: d in full[roots[i]] ==> d in done
    {
      var n := roots[i];
      assert n in before && n !in done;
      forall d | d in full[n] ensures d in done { assert d !in before[n]; }
    }
    AppendRoots(full, done, roots);
    RemainingEdges(full, before, done, roots, after);
    assert roots[0] in before.Keys && roots[0] !in after.Keys;
    SmallerSet(after.Keys, before.Keys);
  }

  lemma RemainingEdges<T(!new)>(full: Graph<T>, before: Graph<T>, done: seq<T>, roots: seq<T>, after: Graph<T>)
    requires Sorting(full, before, done)
    requires after.Keys == before.Keys - Elements(roots)
    requires forall n :: n in after ==> after[n] == before[n] - Elements(roots)
    ensures forall n, d :: n in after ==> (d in after[n] <==> d in full[n] && d !in done + roots)
  {
    forall n, d | n in after
      ensures d in after[n] <==> d in full[n] && d !in done + roots
    {
      assert n in before && after[n] == before[n] - Elements(roots);
      assert d in before[n] <==> d in full[n] && d !in done;
      assert d in Elements(roots) <==> d in roots;
    }
  }

  /** Nodes of `graph` without dependencies, in dictionary order. */
  function Roots<T(==,!new)>(graph: Graph<T>, ids: seq<T>): (roots: seq<T>)
    requires NoDuplicates(ids)
    ensures NoDuplicates(roots)
    ensures forall n :: n in roots <==> n in ids && n in graph && graph[n] == {}
  {
    if ids == [] then []
    else if ids[0] in graph && graph[ids[0]] == {} then [ids[0]] + Roots(graph, ids[1..])
    else Roots(graph, ids[1..])
  }

  lemma Finished<T(!new)>(full: Graph<T>, graph: Graph<T>, ordered: seq<T>)
    requires Sorting(full, graph, ordered) && graph.Keys == {}
    ensures TopologicalOrder(full, ordered)
  {
    forall n ensures n in Elements(ordered) <==> n in full.Keys { assert n !in graph.Keys; }
  }

  /** Moves the roots from the graph to the end of the order. */
  method RemoveRoots<T(==)>(graph: Graph<T>, roots: seq<T>, ghost ordered: seq<T>)
    returns (r: Graph<T>, ghost extended: seq<T>)
    ensures r == graph - Elements(roots)
    ensures extended == ordered + roots
  {
    r, extended := graph, ordered;
    for k := 0 to |roots|
      invariant r == graph - Elements(roots[..k])
      invariant extended == ordered + roots[..k]
    {
      assert roots[..k + 1] == roots[..k] + [roots[k]];
      extended := extended + [roots[k]];
      r := r - {roots[k]};
    }
    assert roots[..|roots|] == roots;
  }

  /** Removes the finished steps from every remaining dependency set. */
  method DropDependencies<T(==)>(graph: Graph<T>, roots: seq<T>, ids: seq<T>) returns (r: Graph<T>)
    requires graph.Keys <= Elements(ids) && NoDuplicates(ids)
    ensures r.Keys == graph.Keys
    ensures forall n :: n in r ==> r[n] == graph[n] - Elements(roots)
  {
    r := graph;
    for k := 0 to |ids|
      invariant r.Keys == graph.Keys
      invariant forall n :: n in r ==> r[n] == if n in ids[..k] then graph[n] - Elements(roots) else graph[n]
    {
      assert ids[..k + 1] == ids[..k] + [ids[k]];
      if ids[k] in r {
        r := r[ids[k] := r[ids[k]] - Elements(roots)];
      }
    }
    assert ids[..|ids|] == ids;
  }

  lemma AppendRoots<T(!new)>(full: Graph<T>, done: seq<T>, roots: seq<T>)
    requires NoDuplicates(done) && NoDuplicates(roots)
    requires forall i :: 0 <= i < |roots| ==>
               roots[i] in full && roots[i] !in done && forall d :: d in full[roots[i]] ==> d in done
    requires forall i :: 0 <= i < |done| ==> ComesAfter(full, done, i)
    ensures NoDuplicates(done + roots)
    ensures forall i :: 0 <= i < |done + roots| ==> ComesAfter(full, done + roots, i)
  {
    var all := done + roots;
    forall i | 0 <= i < |all|
      ensures ComesAfter(full, all, i)
    {
      if i < |done| {
        assert ComesAfter(full, done, i);
        assert all[..i] == done[..i];
      } else {
        assert all[..i] == done + roots[..i - |done|];
      }
    }
  }
}
