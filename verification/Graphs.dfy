/** Dependency graphs: what it means for a set of steps to be closed, acyclic and topologically ordered. */
module Graphs {
  import opened Prelude

  /** A graph maps each step name to the names it depends on, in the order they are written. */
  type Graph = map<string, seq<string>>

  ghost predicate DependsOn(g: Graph, n: string, m: string) {
    n in g && m in g[n]
  }

  ghost predicate Closed(g: Graph) {
    forall n, m :: DependsOn(g, n, m) ==> m in g
  }

  /** Each element is a dependency of the next one. */
  ghost predicate IsChain(g: Graph, c: seq<string>) {
    forall i, j :: 0 <= i && i + 1 == j < |c| ==> DependsOn(g, c[j], c[i])
  }

  /** A chain whose last element is a dependency of its first. */
  ghost predicate IsCycle(g: Graph, c: seq<string>) {
    |c| > 0 && IsChain(g, c) && DependsOn(g, c[0], c[|c| - 1])
  }

  ghost predicate Acyclic(g: Graph) {
    forall c :: !IsCycle(g, c)
  }

  /** Every dependency of a listed step is listed before it. */
  ghost predicate DependenciesFirst(g: Graph, order: seq<string>) {
    forall i, m :: 0 <= i < |order| && DependsOn(g, order[i], m) ==> m in order[..i]
  }

  ghost predicate TopoOrder(g: Graph, order: seq<string>) {
    Lists(order, g.Keys) && DependenciesFirst(g, order)
  }

  /** A graph that has a topological order is closed and acyclic. */
  lemma TopoOrderAccepts(g: Graph, order: seq<string>)
    requires TopoOrder(g, order)
    ensures Closed(g) && Acyclic(g)
  {
    forall n, m | DependsOn(g, n, m) ensures m in g {
      assert n in Elems(order);
      var i :| 0 <= i < |order| && order[i] == n;
      assert m in order[..i];
      assert m in Elems(order);
    }
    forall c | IsCycle(g, c) ensures false {
      assert c[0] in Elems(order);
      var p0 := Place(g, order, c[0]);
      assert DependsOn(g, order[p0], c[|c| - 1]);
      assert c[|c| - 1] in order[..p0];
      CycleClimbs(g, order, c, |c| - 1);
    }
  }

  ghost function Place(g: Graph, order: seq<string>, n: string): (p: nat)
    requires Lists(order, g.Keys) && n in g
    ensures p < |order| && order[p] == n
  {
    assert n in Elems(order);
    var p :| 0 <= p < |order| && order[p] == n;
    p
  }

  lemma {:induction false} CycleClimbs(g: Graph, order: seq<string>, c: seq<string>, i: nat)
    requires TopoOrder(g, order) && IsChain(g, c) && i < |c| && c[0] in g
    ensures c[i] in g && Place(g, order, c[0]) + i <= Place(g, order, c[i])
  {
    if i > 0 {
      CycleClimbs(g, order, c, i - 1);
      assert DependsOn(g, c[i], c[i - 1]);
      var p := Place(g, order, c[i]);
      assert DependsOn(g, order[p], c[i - 1]);
      assert c[i - 1] in order[..p];
    }
  }

  ghost predicate DependsInto(g: Graph, n: string, s: set<string>) {
    exists m :: m in s && DependsOn(g, n, m)
  }

  /** In an acyclic graph every non-empty set of steps holds one that depends on no other of the set. */
  lemma MinimalStep(g: Graph, s: set<string>) returns (n: string)
    requires Acyclic(g) && s != {}
    ensures n in s && !DependsInto(g, n, s)
  {
    if x :| x in s && !DependsInto(g, x, s) {
      n := x;
    } else {
      n :| n in s;
      Chase(g, s, [n]);
    }
  }

  /** Following dependencies inside a finite set for ever closes a cycle. */
  lemma {:induction false} Chase(g: Graph, s: set<string>, p: seq<string>)
    requires forall x :: x in s ==> DependsInto(g, x, s)
    requires |p| > 0 && Elems(p) <= s && IsChain(g, p)
    ensures !Acyclic(g)
    decreases s - Elems(p)
  {
    assert p[0] in Elems(p);
    var m :| m in s && DependsOn(g, p[0], m);
    if m in p {
      var j :| 0 <= j < |p| && p[j] == m;
      ClosedPrefix(g, p, j);
    } else {
      var q := [m] + p;
      assert Elems(q) == Elems(p) + {m};
      LongerChain(g, p, m);
      Chase(g, s, q);
    }
  }

  lemma ClosedPrefix(g: Graph, p: seq<string>, j: nat)
    requires IsChain(g, p) && j < |p| && DependsOn(g, p[0], p[j])
    ensures IsCycle(g, p[..j + 1])
  {
  }

  lemma LongerChain(g: Graph, p: seq<string>, m: string)
    requires IsChain(g, p) && |p| > 0 && DependsOn(g, p[0], m)
    ensures IsChain(g, [m] + p)
  {
  }
}
