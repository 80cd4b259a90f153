/** The converter from DAX documents to workflow steps, and the graph it produces. */
module Dax {
  import opened Prelude
  import opened Graphs
  import opened Api
  import opened Validation

  datatype Child = Child(ref: string, parents: seq<string>)

  /** A document: job identifiers, and children with the parents they depend on. */
  datatype Adag = Adag(jobs: seq<string>, childs: seq<Child>)

  /** Lower-casing is left abstract; only where it is injective matters below. */
  type Lower = string -> string

  function Map(f: Lower, names: seq<string>): seq<string> {
    seq(|names|, i requires 0 <= i < |names| => f(names[i]))
  }

  /** The parents of the last child entry of a reference. */
  function ParentsOf(childs: seq<Child>, ref: string): seq<string> {
    if childs == [] then [] else
      var last := childs[|childs| - 1];
      if last.ref == ref then last.parents else ParentsOf(childs[..|childs| - 1], ref)
  }

  predicate IsChild(childs: seq<Child>, ref: string) {
    exists i :: 0 <= i < |childs| && childs[i].ref == ref
  }

  /** Entry `i` is the last one of the reference. */
  ghost predicate IsLast(childs: seq<Child>, ref: string, i: int) {
    0 <= i < |childs| && childs[i].ref == ref && forall j :: i < j < |childs| ==> childs[j].ref != ref
  }

  lemma {:induction false} ParentsOfLast(childs: seq<Child>, ref: string)
    ensures forall i :: IsLast(childs, ref, i) ==> ParentsOf(childs, ref) == childs[i].parents
    ensures IsChild(childs, ref) ==> exists i :: IsLast(childs, ref, i)
  {
    if childs != [] {
      var front, last := childs[..|childs| - 1], |childs| - 1;
      if childs[last].ref == ref {
        assert IsLast(childs, ref, last);
      } else {
        ParentsOfLast(front, ref);
        forall i ensures IsLast(childs, ref, i) <==> IsLast(front, ref, i) {
          assert 0 <= i < last ==> front[i] == childs[i];
        }
        if i :| 0 <= i < |childs| && childs[i].ref == ref {
          assert front[i].ref == ref;
        }
      }
    }
  }

  method MapJobsToDependencies(adag: Adag, lower: Lower) returns (childMap: map<string, seq<string>>)
    ensures forall ref :: ref in childMap <==> IsChild(adag.childs, ref)
    ensures forall ref :: ref in childMap ==> childMap[ref] == Map(lower, ParentsOf(adag.childs, ref))
    ensures forall ref, i :: IsLast(adag.childs, ref, i) ==>
              && ref in childMap && |childMap[ref]| == |adag.childs[i].parents|
              && forall j :: 0 <= j < |childMap[ref]| ==> childMap[ref][j] == lower(adag.childs[i].parents[j])
  {
    childMap := map[];
    for i := 0 to |adag.childs|
      invariant forall ref :: ref in childMap <==> IsChild(adag.childs[..i], ref)
      invariant forall ref :: ref in childMap ==> childMap[ref] == Map(lower, ParentsOf(adag.childs[..i], ref))
    {
      var child := adag.childs[i];
      var dependencies := [];
      for j := 0 to |child.parents|
        invariant dependencies == Map(lower, child.parents[..j])
      {
        dependencies := dependencies + [lower(child.parents[j])];
      }
      assert child.parents[..|child.parents|] == child.parents;
      assert adag.childs[..i + 1] == adag.childs[..i] + [child];
      assert (adag.childs[..i] + [child])[..i] == adag.childs[..i];
      forall ref ensures IsChild(adag.childs[..i + 1], ref) <==> ref == child.ref || IsChild(adag.childs[..i], ref) {
        if IsChild(adag.childs[..i], ref) {
          var k :| 0 <= k < i && adag.childs[..i][k].ref == ref;
          assert adag.childs[..i + 1][k].ref == ref;
        }
        assert adag.childs[..i + 1][i] == child;
      }
      childMap := childMap[child.ref := dependencies];
    }
    assert adag.childs[..|adag.childs|] == adag.childs;
    forall ref ensures forall i :: IsLast(adag.childs, ref, i) ==>
      ParentsOf(adag.childs, ref) == adag.childs[i].parents {
      ParentsOfLast(adag.childs, ref);
    }
  }

  lemma {:induction false} NoParentsUnlessChild(childs: seq<Child>, ref: string)
    requires !IsChild(childs, ref)
    ensures ParentsOf(childs, ref) == []
  {
    if childs != [] {
      var front := childs[..|childs| - 1];
      assert forall i :: 0 <= i < |front| ==> front[i] == childs[i];
      NoParentsUnlessChild(front, ref);
    }
  }

  function NewStep(name: string, dependencies: seq<string>): Step {
    Step(Some(JobTemplate(map[], name)), None, dependencies)
  }

  /** There is a step for each job's lower-case name, made from a job of that name and its lower-case parents. */
  ghost predicate Converted(childs: seq<Child>, jobs: seq<string>, lower: Lower, steps: Steps) {
    && steps.Keys == (set id | id in jobs :: lower(id))
    && forall n :: n in steps ==> exists id :: id in jobs && lower(id) == n
                                               && steps[n] == NewStep(n, Map(lower, ParentsOf(childs, id)))
  }

  /** The loop over the jobs; a later job replaces an earlier one with the same lower-case name. */
  method ConvertSteps(adag: Adag, lower: Lower) returns (steps: Steps)
    ensures Converted(adag.childs, adag.jobs, lower, steps)
  {
    var childMap := MapJobsToDependencies(adag, lower);
    steps := map[];
    for i := 0 to |adag.jobs|
      invariant Converted(adag.childs, adag.jobs[..i], lower, steps)
    {
      var id := adag.jobs[i];
      assert adag.jobs[..i + 1] == adag.jobs[..i] + [id];
      if !IsChild(adag.childs, id) {
        NoParentsUnlessChild(adag.childs, id);
      }
      steps := steps[lower(id) := NewStep(lower(id), if id in childMap then childMap[id] else [])];
    }
    assert adag.jobs[..|adag.jobs|] == adag.jobs;
  }

  // ---- The graph of the document ----

  function InputGraph(adag: Adag): Graph {
    map id | id in adag.jobs :: ParentsOf(adag.childs, id)
  }

  /** The names of a graph: its steps and everything they depend on. */
  ghost predicate IsName(g: Graph, n: string) {
    n in g || exists k :: DependsOn(g, k, n)
  }

  ghost predicate InjectiveOn(g: Graph, f: Lower) {
    forall m, n :: IsName(g, m) && IsName(g, n) && f(m) == f(n) ==> m == n
  }

  ghost predicate IsImage(g: Graph, f: Lower, h: Graph) {
    && (forall n :: n in g ==> f(n) in h && h[f(n)] == Map(f, g[n]))
    && forall k :: k in h ==> exists n :: n in g && f(n) == k
  }

  lemma ImageDependsOn(g: Graph, f: Lower, h: Graph, n: string, m: string)
    requires IsImage(g, f, h) && InjectiveOn(g, f) && n in g && IsName(g, m)
    ensures DependsOn(h, f(n), f(m)) <==> DependsOn(g, n, m)
  {
    if DependsOn(g, n, m) {
      var i :| 0 <= i < |g[n]| && g[n][i] == m;
      assert h[f(n)][i] == f(m);
    }
    if DependsOn(h, f(n), f(m)) {
      var i :| 0 <= i < |h[f(n)]| && h[f(n)][i] == f(m);
      assert DependsOn(g, n, g[n][i]);
    }
  }

  lemma ImageClosed(g: Graph, f: Lower, h: Graph)
    requires IsImage(g, f, h) && InjectiveOn(g, f)
    ensures Closed(h) <==> Closed(g)
  {
    if Closed(h) {
      forall n, m | DependsOn(g, n, m) ensures m in g {
        ImageDependsOn(g, f, h, n, m);
        var k :| k in g && f(k) == f(m);
      }
    }
    if Closed(g) {
      forall x, y | DependsOn(h, x, y) ensures y in h {
        var n :| n in g && f(n) == x;
        var i :| 0 <= i < |h[x]| && h[x][i] == y;
        assert DependsOn(g, n, g[n][i]);
      }
    }
  }

  lemma CycleMaps(g: Graph, f: Lower, h: Graph, c: seq<string>)
    requires IsImage(g, f, h) && InjectiveOn(g, f) && forall i :: 0 <= i < |c| ==> c[i] in g
    ensures IsCycle(h, Map(f, c)) <==> IsCycle(g, c)
  {
    var d := Map(f, c);
    forall i, j | 0 <= i < |c| && 0 <= j < |c| ensures DependsOn(h, d[j], d[i]) <==> DependsOn(g, c[j], c[i]) {
      ImageDependsOn(g, f, h, c[j], c[i]);
    }
  }

  lemma CycleInGraph(g: Graph, c: seq<string>)
    requires IsCycle(g, c)
    ensures forall i :: 0 <= i < |c| ==> c[i] in g
  {
    forall i | 0 <= i < |c| ensures c[i] in g {
      if i > 0 {
        assert DependsOn(g, c[i], c[i - 1]);
      }
    }
  }

  lemma ImageAcyclic(g: Graph, f: Lower, h: Graph)
    requires IsImage(g, f, h) && InjectiveOn(g, f)
    ensures Acyclic(h) <==> Acyclic(g)
  {
    forall c | IsCycle(g, c) ensures !Acyclic(h) {
      CycleInGraph(g, c);
      CycleMaps(g, f, h, c);
      assert IsCycle(h, Map(f, c));
    }
    forall d | IsCycle(h, d) ensures !Acyclic(g) {
      CycleInGraph(h, d);
      var c := Preimage(g, f, h, d);
      CycleMaps(g, f, h, c);
      assert Map(f, c) == d;
    }
  }

  lemma {:induction false} Preimage(g: Graph, f: Lower, h: Graph, d: seq<string>) returns (c: seq<string>)
    requires IsImage(g, f, h) && forall i :: 0 <= i < |d| ==> d[i] in h
    ensures |c| == |d| && forall i :: 0 <= i < |c| ==> c[i] in g && f(c[i]) == d[i]
  {
    if d == [] {
      c := [];
    } else {
      var front := Preimage(g, f, h, d[..|d| - 1]);
      var last := d[|d| - 1];
      assert last in h;
      var n :| n in g && f(n) == last;
      c := front + [n];
    }
  }

  /**
   * When lower-casing keeps apart all names of a document, the validator accepts the converted steps
   * exactly if the document's own graph is closed and acyclic.
   */
  lemma ConvertedIsValidIff(adag: Adag, lower: Lower, steps: Steps)
    requires InjectiveOn(InputGraph(adag), lower)
    requires Converted(adag.childs, adag.jobs, lower, steps)
    ensures ValidSteps(steps) <==> Closed(InputGraph(adag)) && Acyclic(InputGraph(adag))
  {
    var g, h := InputGraph(adag), GraphOf(steps);
    forall n | n in g ensures lower(n) in h && h[lower(n)] == Map(lower, g[n]) {
      assert lower(n) in steps;
      var id :| id in adag.jobs && lower(id) == lower(n)
                && steps[lower(n)] == NewStep(lower(n), Map(lower, ParentsOf(adag.childs, id)));
      assert IsName(g, id) && IsName(g, n);
    }
    assert IsImage(g, lower, h);
    ImageClosed(g, lower, h);
    ImageAcyclic(g, lower, h);
  }
}
