/** The depth-first search that admits a dependency graph, with its shared marks and its cycle recorder. */
module TopologicalSort {
  import opened Prelude
  import opened Graphs

  datatype SortError = NotFound(name: string) | Forbidden(cycle: seq<string>)

  /** The empty strings with which the result list starts. */
  function Blanks(n: nat): seq<string> {
    seq(n, _ => "")
  }

  // ---- The cost of a search ----

  /** The number of dependency entries of the steps in `s`. */
  ghost function Entries(g: Graph, s: set<string>): nat
    requires s <= g.Keys
  {
    if s == {} then 0 else
      var n :| n in s;
      |g[n]| + Entries(g, s - {n})
  }

  lemma {:induction false} EntriesOfAdded(g: Graph, s: set<string>, n: string)
    requires s <= g.Keys && n in s
    ensures Entries(g, s) == |g[n]| + Entries(g, s - {n})
  {
    var m :| m in s && Entries(g, s) == |g[m]| + Entries(g, s - {m});
    if m != n {
      EntriesOfAdded(g, s - {m}, n);
      EntriesOfAdded(g, s - {n}, m);
      assert s - {m} - {n} == s - {n} - {m};
    }
  }

  lemma {:induction false} EntriesOfUnion(g: Graph, a: set<string>, b: set<string>)
    requires a <= g.Keys && b <= g.Keys && a !! b
    ensures Entries(g, a + b) == Entries(g, a) + Entries(g, b)
  {
    if a == {} {
      assert a + b == b;
    } else {
      var n :| n in a;
      EntriesOfAdded(g, a, n);
      EntriesOfAdded(g, a + b, n);
      assert a + b - {n} == (a - {n}) + b;
      EntriesOfUnion(g, a - {n}, b);
    }
  }

  /** What an inner visit adds to the entries already charged. */
  lemma EntriesOfVisit(g: Graph, base: set<string>, before: set<string>, after: set<string>)
    requires base <= before <= after <= g.Keys
    ensures Entries(g, before - base) + Entries(g, after - before) == Entries(g, after - base)
  {
    EntriesOfUnion(g, before - base, after - before);
    assert before - base + (after - before) == after - base;
  }

  lemma EntriesGrow(g: Graph, before: set<string>, after: set<string>)
    requires before <= after <= g.Keys
    ensures Entries(g, before) + Entries(g, after - before) == Entries(g, after) <= Entries(g, g.Keys)
  {
    EntriesOfUnion(g, before, after - before);
    assert before + (after - before) == after;
    EntriesOfUnion(g, after, g.Keys - after);
    assert after + (g.Keys - after) == g.Keys;
  }

  lemma DependenciesFirstSnoc(g: Graph, order: seq<string>, n: string)
    requires DependenciesFirst(g, order) && n in g && Elems(g[n]) <= Elems(order)
    ensures DependenciesFirst(g, order + [n])
  {
    var next := order + [n];
    forall i, m | 0 <= i < |next| && DependsOn(g, next[i], m) ensures m in next[..i] {
      if i < |order| {
        assert next[..i] == order[..i];
        assert DependsOn(g, order[i], m);
      } else {
        assert next[..i] == order;
        assert m in Elems(g[n]);
      }
    }
  }

  // ---- What an error witnesses ----

  /** A recorded cycle is simple; it is empty only when the cycle runs through a step named "". */
  ghost predicate WitnessesCycle(g: Graph, cycle: seq<string>) {
    if cycle == [] then exists c :: IsCycle(g, c) && NoDup(c) && c[|c| - 1] == ""
    else IsCycle(g, cycle) && NoDup(cycle) && cycle[|cycle| - 1] != ""
  }

  ghost predicate WitnessesMissing(g: Graph, name: string) {
    name !in g && exists k :: DependsOn(g, k, name)
  }

  /** What a reported error says about the graph. */
  ghost predicate Witnessed(g: Graph, e: SortError) {
    match e
    case NotFound(name) => WitnessesMissing(g, name)
    case Forbidden(cycle) => WitnessesCycle(g, cycle)
  }

  lemma WitnessRejects(g: Graph, e: SortError)
    requires Witnessed(g, e)
    ensures !(Closed(g) && Acyclic(g))
  {
  }

  // ---- The search ----

  class Search {
    const g: Graph
    var sorted: seq<string>
    var temporary: set<string>
    var permanent: set<string>
    var cycle: seq<string>
    var isCyclic: bool
    var cycleStart: string

    /** The open calls, innermost first: each one is a dependency of the next. */
    ghost var stack: seq<string>
    /** What has been appended to `sorted`. */
    ghost var order: seq<string>
    /** The place on the stack of the step that closed a cycle. */
    ghost var hit: nat
    /** How often `Visit` has been entered. */
    ghost var calls: nat

    constructor (g: Graph)
      ensures this.g == g && Searching() && stack == [] && permanent == {} && calls == 0
    {
      this.g := g;
      sorted := Blanks(|g|);
      temporary, permanent, cycle, isCyclic, cycleStart := {}, {}, [], false, "";
      stack, order, hit, calls := [], [], 0, 0;
    }

    ghost function Seen(): set<string>
      reads this
    {
      temporary + permanent
    }

    /** The open calls form a simple chain of steps, and exactly these are marked temporary. */
    ghost predicate OpenCalls()
      reads this
    {
      && temporary == Elems(stack)
      && NoDup(stack)
      && IsChain(g, stack)
      && temporary !! permanent
      && Seen() <= g.Keys
    }

    /** The appended part lists the permanent steps, dependencies first. */
    ghost predicate Ordered()
      reads this
    {
      && sorted == Blanks(|g|) + order
      && Lists(order, permanent)
      && DependenciesFirst(g, order)
    }

    ghost predicate Searching()
      reads this
    {
      OpenCalls() && Ordered() && !isCyclic && cycle == [] && cycleStart == ""
    }

    /**
     * A cycle has been met above the open calls `base`: the step at `hit` is a dependency of the
     * innermost one.  The recorder holds what the calls above `base` have appended while unwinding;
     * it stays empty when the closing step's name is the empty string.
     */
    ghost predicate Caught(base: seq<string>)
      reads this
    {
      && OpenCalls()
      && isCyclic
      && |base| <= |stack|
      && stack[|stack| - |base|..] == base
      && hit < |stack|
      && DependsOn(g, stack[0], stack[hit])
      && (if stack[hit] == "" then cycle == [] && cycleStart == ""
          else if hit < |stack| - |base| then cycle == stack[..hit + 1] && cycleStart == ""
          else cycle == stack[..|stack| - |base|] && cycleStart == stack[hit])
    }

    /** Marks `n` temporary and enters it. */
    method Open(n: string)
      requires Searching() && n in g && n !in Seen()
      requires stack != [] ==> DependsOn(g, stack[0], n)
      modifies this`temporary, this`stack
      ensures Searching() && stack == [n] + old(stack) && Seen() == old(Seen()) + {n}
    {
      temporary := temporary + {n};
      stack := [n] + stack;
    }

    /** Leaves `n`, all of whose dependencies are done, and appends it. */
    method Close(n: string)
      requires Searching() && stack != [] && stack[0] == n
      requires Elems(g[n]) <= permanent
      modifies this`temporary, this`permanent, this`sorted, this`order, this`stack
      ensures Searching() && stack == old(stack[1..])
      ensures permanent == old(permanent) + {n} && Seen() == old(Seen())
    {
      temporary := temporary - {n};
      permanent := permanent + {n};
      sorted := sorted + [n];
      DependenciesFirstSnoc(g, order, n);
      order := order + [n];
      stack := stack[1..];
    }

    /** `n` is still open, so the calls from it down to the innermost one form a cycle. */
    method CloseCycle(n: string)
      requires Searching() && n in temporary && DependsOn(g, stack[0], n)
      modifies this`isCyclic, this`cycleStart, this`hit
      ensures Caught(stack)
    {
      isCyclic := true;
      cycleStart := n;
      ghost var closing: nat :| closing < |stack| && stack[closing] == n;
      hit := closing;
    }

    /** Appends `n` to the cycle unless the closing step has been passed already. */
    method Record(n: string, ghost base: seq<string>)
      requires Caught([n] + base)
      modifies this`cycle, this`cycleStart
      ensures Caught(base)
    {
      assert stack[|stack| - |base| - 1] == n;
      assert stack[|stack| - |base|..] == base;
      if |cycleStart| != 0 {
        cycle := cycle + [n];
        if n == cycleStart {
          cycleStart := "";
        }
      }
    }

    method Visit(n: string) returns (err: Option<SortError>)
      requires Searching()
      requires if stack == [] then n in g else DependsOn(g, stack[0], n)
      modifies this
      ensures OpenCalls() && old(Seen()) <= Seen()
      ensures err.Some? ==> err.value.NotFound? && err.value.name !in g && exists k :: DependsOn(g, k, err.value.name)
      ensures err.None? && !isCyclic ==>
                Searching() && stack == old(stack) && n in permanent && old(permanent) <= permanent
      ensures err.None? && isCyclic ==> Caught(old(stack))
      ensures calls <= old(calls) + 1 + Entries(g, Seen() - old(Seen()))
      decreases g.Keys - Seen(), 0
    {
      calls := calls + 1;
      if n !in g {
        return Some(NotFound(n));
      }
      if n in temporary {
        CloseCycle(n);
        return None;
      } else if n in permanent {
        return None;
      }
      Open(n);
      ghost var entered := Seen();
      err := VisitDependencies(n, old(stack));
      EntriesOfAdded(g, Seen() - old(Seen()), n);
      assert Seen() - old(Seen()) - {n} == Seen() - entered;
      if err.None? && !isCyclic {
        Close(n);
      }
    }

    /** The loop of `Visit` over the dependencies of the step it has just opened. */
    method VisitDependencies(n: string, ghost base: seq<string>) returns (err: Option<SortError>)
      requires Searching() && stack == [n] + base
      modifies this
      ensures OpenCalls() && old(Seen()) <= Seen()
      ensures err.Some? ==> err.value.NotFound? && err.value.name !in g && exists k :: DependsOn(g, k, err.value.name)
      ensures err.None? && !isCyclic ==>
                Searching() && stack == old(stack) && Elems(g[n]) <= permanent && old(permanent) <= permanent
      ensures err.None? && isCyclic ==> Caught(base)
      ensures calls <= old(calls) + |g[n]| + Entries(g, Seen() - old(Seen()))
      decreases g.Keys - Seen(), 1
    {
      var i := 0;
      while i < |g[n]|
        invariant 0 <= i <= |g[n]|
        invariant Searching() && stack == old(stack)
        invariant old(Seen()) <= Seen() && old(permanent) <= permanent
        invariant Elems(g[n][..i]) <= permanent
        invariant calls <= old(calls) + i + Entries(g, Seen() - old(Seen()))
      {
        ghost var seen := Seen();
        err := Visit(g[n][i]);
        EntriesOfVisit(g, old(Seen()), seen, Seen());
        if err.Some? {
          return;
        }
        if isCyclic {
          Record(n, base);
          return None;
        }
        assert g[n][..i + 1] == g[n][..i] + [g[n][i]];
        i := i + 1;
      }
      assert g[n][..|g[n]|] == g[n];
      return None;
    }

    /** The outer loop. */
    method VisitRoots(keys: seq<string>) returns (err: Option<SortError>)
      requires Searching() && stack == [] && permanent == {} && calls == 0
      requires Elems(keys) <= g.Keys
      modifies this
      ensures err.None? ==> Searching() && stack == [] && Elems(keys) <= permanent
      ensures err.Some? ==> Witnessed(g, err.value)
      ensures calls <= |keys| + Entries(g, g.Keys)
    {
      var i := 0;
      while i < |keys|
        invariant 0 <= i <= |keys|
        invariant Searching() && stack == []
        invariant Elems(keys[..i]) <= permanent
        invariant calls <= i + Entries(g, permanent)
      {
        assert keys[i] in Elems(keys);
        assert keys[..i + 1] == keys[..i] + [keys[i]];
        err := VisitRoot(keys[i]);
        if err.Some? {
          return;
        }
        i := i + 1;
      }
      assert keys[..|keys|] == keys;
      EntriesGrow(g, permanent, permanent);
      return None;
    }

    /** One turn of the outer loop. */
    method VisitRoot(k: string) returns (err: Option<SortError>)
      requires Searching() && stack == [] && k in g
      modifies this
      ensures err.None? ==> Searching() && stack == [] && old(permanent) + {k} <= permanent
      ensures err.Some? ==> Witnessed(g, err.value)
      ensures calls - old(calls) <=
              1 + Entries(g, if err.None? then permanent else g.Keys) - Entries(g, old(permanent))
    {
      assert Seen() == permanent;
      if k in permanent {
        return None;
      }
      err := Visit(k);
      EntriesGrow(g, old(permanent), Seen());
      assert stack == [] ==> Seen() == permanent;
      if err.None? && isCyclic {
        CaughtIsCycle(this);
        err := Some(Forbidden(cycle));
      }
    }
  }

  /**
   * Searches from every step in the order `keys`.  The program sorts the names first; nothing below
   * depends on which order is taken.
   */
  method Sort(g: Graph, keys: seq<string>) returns (r: Result<seq<string>, SortError>, ghost calls: nat)
    requires Lists(keys, g.Keys)
    ensures r.Ok? <==> Closed(g) && Acyclic(g)
    ensures r.Ok? ==> |r.value| == 2 * |g| && r.value[..|g|] == Blanks(|g|) && TopoOrder(g, r.value[|g|..])
    ensures r.Err? ==> Witnessed(g, r.error)
    ensures calls <= |g| + Entries(g, g.Keys)
  {
    var search := new Search(g);
    var err := search.VisitRoots(keys);
    ListsSize(keys, g.Keys);
    calls := search.calls;
    if err.Some? {
      WitnessRejects(g, err.value);
      r := Err(err.value);
    } else {
      FinishedIsOrdered(search);
      r := Ok(search.sorted);
    }
  }

  lemma FinishedIsOrdered(search: Search)
    requires search.Searching() && search.stack == [] && search.g.Keys <= search.permanent
    ensures var g, sorted := search.g, search.sorted;
            |sorted| == 2 * |g| && sorted[..|g|] == Blanks(|g|) && TopoOrder(g, sorted[|g|..])
    ensures Closed(search.g) && Acyclic(search.g)
  {
    var g := search.g;
    assert search.permanent == g.Keys;
    ListsSize(search.order, g.Keys);
    TopoOrderAccepts(g, search.order);
    assert search.sorted[..|g|] == Blanks(|g|) && search.sorted[|g|..] == search.order;
  }

  lemma CaughtIsCycle(search: Search)
    requires search.Caught([])
    ensures WitnessesCycle(search.g, search.cycle)
  {
    var c := search.stack[..search.hit + 1];
    assert IsCycle(search.g, c) && NoDup(c);
  }
}
