/**
 * A pass that nothing disturbs is a path of protocol steps with the outcome of the step loop: the same
 * statuses and the same jobs.
 */
module PassRefinement {
  import opened Prelude
  import opened Api
  import opened Jobs
  import opened Scheduling
  import opened Processing
  import opened Protocol
  import opened Paths

  // ---- Listing by identifier and listing by position ----

  ghost function Filter(w: World, ids: seq<nat>, namespace: string, selector: Labels): seq<nat>
    requires Elems(ids) <= w.store.Keys
  {
    if ids == [] then [] else
      var last := ids[|ids| - 1];
      assert last in Elems(ids) && Elems(ids[..|ids| - 1]) <= Elems(ids);
      Filter(w, ids[..|ids| - 1], namespace, selector)
      + if Selected(w.store[last], namespace, selector) then [last] else []
  }

  /** The identifiers that a listing selects. */
  ghost function Chosen(w: World, ids: set<nat>, namespace: string, selector: Labels): set<nat>
    requires ids <= w.store.Keys
  {
    set id | id in ids && Selected(w.store[id], namespace, selector)
  }

  lemma {:induction false} FilterLists(w: World, ids: seq<nat>, namespace: string, selector: Labels)
    requires Elems(ids) <= w.store.Keys && NoDup(ids)
    ensures Lists(Filter(w, ids, namespace, selector), Chosen(w, Elems(ids), namespace, selector))
  {
    if ids == [] {
      assert Chosen(w, Elems(ids), namespace, selector) == {};
    } else {
      var front, last := ids[..|ids| - 1], ids[|ids| - 1];
      assert last in Elems(ids) && Elems(ids) == Elems(front) + {last} && last !in Elems(front);
      FilterLists(w, front, namespace, selector);
      ChosenMore(w, Elems(front), last, namespace, selector);
      if Selected(w.store[last], namespace, selector) {
        ListsSnoc(Filter(w, front, namespace, selector), Chosen(w, Elems(front), namespace, selector), last);
      }
    }
  }

  lemma ChosenMore(w: World, ids: set<nat>, last: nat, namespace: string, selector: Labels)
    requires ids <= w.store.Keys && last in w.store
    ensures Chosen(w, ids + {last}, namespace, selector) ==
            Chosen(w, ids, namespace, selector) + if Selected(w.store[last], namespace, selector) then {last} else {}
  {
  }

  lemma {:induction false} FilterBodies(w: World, ids: seq<nat>, namespace: string, selector: Labels)
    requires Elems(ids) <= w.store.Keys && NoDup(ids)
    ensures Elems(Filter(w, ids, namespace, selector)) <= w.store.Keys
    ensures Bodies(w, Filter(w, ids, namespace, selector)) == ListJobs(Bodies(w, ids), namespace, selector)
  {
    FilterLists(w, ids, namespace, selector);
    if ids != [] {
      var front, last := ids[..|ids| - 1], ids[|ids| - 1];
      assert last in Elems(ids) && Elems(front) <= Elems(ids);
      FilterLists(w, front, namespace, selector);
      FilterBodies(w, front, namespace, selector);
      assert Bodies(w, ids)[..|ids| - 1] == Bodies(w, front);
      assert Bodies(w, ids)[|ids| - 1] == w.store[last];
    }
  }

  // ---- One turn ----

  /** The surroundings of a pass, with the store listed as `ids`. */
  ghost function EnvAt(c: Cluster, w: World, key: string, ids: seq<nat>): Env
    requires IsBusy(c, w, key) && Elems(ids) <= w.store.Keys
  {
    Env(c[key].namespace, WorkerOf(c, w, key).copy.labels, c[key].steps, Bodies(w, ids))
  }

  /** The worker is between steps and can record what it finds. */
  ghost predicate Underway(c: Cluster, w: World, key: string, ids: seq<nat>) {
    && IsBusy(c, w, key) && Lists(ids, w.store.Keys)
    && var worker := WorkerOf(c, w, key);
       && worker.stage.Ranging? && worker.copy.statuses.Some? && worker.rest <= c[key].steps.Keys
       && (worker.attached ==> w.flows[key].cached == worker.copy)
  }

  /** An undisturbed listing for a step is the one the step loop makes. */
  lemma ListingExists(c: Cluster, w: World, key: string, ids: seq<nat>, n: string) returns (found: seq<nat>)
    requires Underway(c, w, key, ids) && n in WorkerOf(c, w, key).rest
    ensures CanExamine(c, w, key, n, found)
    ensures TurnOf(c, w, key, n, found) == Turn(EnvAt(c, w, key, ids), Read(WorkerOf(c, w, key).copy.statuses), n)
  {
    if IsSlot(c, Slot(key, n)) {
      var namespace, selector := c[key].namespace, SlotLabels(c, WorkerOf(c, w, key).copy.labels, Slot(key, n));
      found := Filter(w, ids, namespace, selector);
      FilterLists(w, ids, namespace, selector);
      FilterBodies(w, ids, namespace, selector);
      assert Listed(c, w, WorkerOf(c, w, key).copy.labels, Slot(key, n)) == Chosen(w, Elems(ids), namespace, selector);
    } else {
      found := [];
    }
  }

  /** The flow of a workflow whose pass has done one turn and is between steps again. */
  function Turned(flow: Flow, n: string, turn: Action): Flow
    requires flow.worker.Busy?
  {
    if turn.Write? then Written(flow, n, turn.status) else flow.(worker := WentOn(flow.worker, n))
  }

  /** What a turn may change, and how. */
  ghost predicate TurnDone(w: World, key: string, n: string, turn: Action, after: World)
    requires key in w.flows && w.flows[key].worker.Busy?
  {
    && after.store == w.store && after.now == w.now
    && after.flows == w.flows[key := Turned(w.flows[key], n, turn)]
    && after.log == w.log + (if turn.Create? && Satisfied(w, Slot(key, n)) then [JobCreated(Slot(key, n))] else [])
    && forall m :: m != n ==> (Satisfied(after, Slot(key, m)) <==> Satisfied(w, Slot(key, m)))
  }

  lemma TurnIsPath(c: Cluster, start: World, w: World, key: string, ids: seq<nat>, n: string) returns (after: World)
    requires Leads(c, start, w) && Underway(c, w, key, ids) && n in WorkerOf(c, w, key).rest
    ensures Leads(c, start, after)
    ensures TurnDone(w, key, n, Turn(EnvAt(c, w, key, ids), Read(WorkerOf(c, w, key).copy.statuses), n), after)
  {
    var turn := Turn(EnvAt(c, w, key, ids), Read(WorkerOf(c, w, key).copy.statuses), n);
    after := ExamineIsPath(c, start, w, key, ids, n);
    TurnedFlows(w, key, n, turn);
    if turn.Create? {
      after := CheckIsPath(c, start, after, key, n);
    }
  }

  lemma TurnedFlows(w: World, key: string, n: string, turn: Action)
    requires key in w.flows && w.flows[key].worker.Busy? && w.flows[key].worker.stage.Ranging?
    ensures var examined := SetFlow(w, key, AfterTurn(w.flows[key], n, turn));
            if turn.Create? then AtStage(examined, key, Ranging).flows == w.flows[key := Turned(w.flows[key], n, turn)]
            else examined.flows == w.flows[key := Turned(w.flows[key], n, turn)]
  {
  }

  /** The listing and what follows from it at once. */
  lemma ExamineIsPath(c: Cluster, start: World, w: World, key: string, ids: seq<nat>, n: string)
    returns (examined: World)
    requires Leads(c, start, w) && Underway(c, w, key, ids) && n in WorkerOf(c, w, key).rest
    ensures Leads(c, start, examined)
    ensures var turn := Turn(EnvAt(c, w, key, ids), Read(WorkerOf(c, w, key).copy.statuses), n);
            && (turn.Create? ==> IsSlot(c, Slot(key, n)))
            && examined == SetFlow(w, key, AfterTurn(w.flows[key], n, turn))
  {
    var found := ListingExists(c, w, key, ids, n);
    examined := AfterExamine(c, w, key, n, found);
    LeadsOn(c, start, w, Examine(key, n, found), examined);
  }

  /** From an empty listing on. */
  lemma CheckIsPath(c: Cluster, start: World, w: World, key: string, n: string) returns (after: World)
    requires Leads(c, start, w) && IsBusy(c, w, key) && WorkerOf(c, w, key).stage == FoundNone(n)
             && IsSlot(c, Slot(key, n))
    ensures Leads(c, start, after)
    ensures after.store == w.store && after.now == w.now && after.flows == AtStage(w, key, Ranging).flows
    ensures after.log == w.log + (if Satisfied(w, Slot(key, n)) then [JobCreated(Slot(key, n))] else [])
    ensures forall m :: m != n ==> (Satisfied(after, Slot(key, m)) <==> Satisfied(w, Slot(key, m)))
  {
    var checked := AfterCheck(c, w, key);
    LeadsOn(c, start, w, CheckExpectation(key), checked);
    if Satisfied(w, Slot(key, n)) {
      after := LaunchIsPath(c, start, checked, key, n);
    } else {
      after := checked;
    }
  }

  lemma LaunchIsPath(c: Cluster, start: World, w: World, key: string, n: string) returns (after: World)
    requires Leads(c, start, w) && IsBusy(c, w, key) && WorkerOf(c, w, key).stage == MayCreate(n)
             && IsSlot(c, Slot(key, n))
    ensures Leads(c, start, after)
    ensures after.store == w.store && after.now == w.now && after.flows == AtStage(w, key, Ranging).flows
    ensures after.log == w.log + [JobCreated(Slot(key, n))]
    ensures after.expected == w.expected[Slot(key, n) := w.now]
  {
    var id := FreeId(w.jobs.Keys);
    var created := AfterCreate(c, w, key, id, "");
    LeadsOn(c, start, w, CreateJob(key, id, ""), created);
    after := AfterExpect(c, created, key);
    LeadsOn(c, start, created, ExpectCreation(key), after);
  }

  // ---- The pass ----

  ghost function LogOf(key: string, launched: seq<string>): seq<LogEntry> {
    seq(|launched|, i requires 0 <= i < |launched| => JobCreated(Slot(key, launched[i])))
  }

  /** The steps with an expectation that has not expired. */
  ghost function AwaitedSteps(c: Cluster, w: World, key: string): set<string>
    requires key in c
  {
    set n | n in c[key].steps && !Satisfied(w, Slot(key, n))
  }

  /** The flow of a workflow whose pass has done the turns of `order`, as the step loop does them. */
  ghost function Passed(flow: Flow, env: Env, order: seq<string>): Flow
    requires flow.worker.Busy? && Elems(order) <= env.steps.Keys
  {
    var worker, first := flow.worker, Read(flow.worker.copy.statuses);
    var copy := worker.copy.(statuses := Some(RunOrder(env, order, first)));
    flow.(worker := worker.(copy := copy, rest := worker.rest - Elems(order),
                            changed := worker.changed || Writes(env, order, first),
                            complete := worker.complete && forall n :: n in order ==> Done(first, n)),
          cached := if worker.attached then copy else flow.cached)
  }

  /** The state of an undisturbed pass that has done the turns of `order`. */
  ghost predicate PassDone(c: Cluster, w: World, key: string, ids: seq<nat>, order: seq<string>, after: World)
    requires Underway(c, w, key, ids) && Elems(order) <= WorkerOf(c, w, key).rest
  {
    var env, first := EnvAt(c, w, key, ids), Read(WorkerOf(c, w, key).copy.statuses);
    && after.store == w.store && after.now == w.now
    && after.flows == w.flows[key := Passed(w.flows[key], env, order)]
    && after.log == w.log + LogOf(key, Launches(env, order, first, AwaitedSteps(c, w, key)))
    && forall n :: n !in order ==> (Satisfied(after, Slot(key, n)) <==> Satisfied(w, Slot(key, n)))
  }

  /**
   * Left to itself and with a server that takes its jobs, a pass that ranges over `order` arrives at
   * what the step loop makes of the workflow, and creates exactly the jobs of its launches, in their order.
   */
  lemma {:induction false} UndisturbedPass(c: Cluster, w: World, key: string, ids: seq<nat>, order: seq<string>)
    returns (after: World)
    requires Underway(c, w, key, ids) && NoDup(order) && Elems(order) <= WorkerOf(c, w, key).rest
    ensures Leads(c, w, after) && PassDone(c, w, key, ids, order, after) && Underway(c, after, key, ids)
  {
    if order == [] {
      LeadsNowhere(c, w);
      after := w;
      NothingPassed(w.flows[key], EnvAt(c, w, key, ids));
      assert w.flows[key := w.flows[key]] == w.flows;
    } else {
      var front, n := order[..|order| - 1], order[|order| - 1];
      assert n in Elems(order) && Elems(order) == Elems(front) + {n} && n !in front;
      var now := UndisturbedPass(c, w, key, ids, front);
      after := OneTurnMore(c, w, now, key, ids, front, n);
      assert front + [n] == order;
    }
  }

  lemma OneTurnMore(c: Cluster, w: World, now: World, key: string, ids: seq<nat>, front: seq<string>, n: string)
    returns (after: World)
    requires Underway(c, w, key, ids) && Elems(front) <= WorkerOf(c, w, key).rest && n in WorkerOf(c, w, key).rest
             && n !in front
    requires Leads(c, w, now) && PassDone(c, w, key, ids, front, now) && Underway(c, now, key, ids)
    ensures Elems(front + [n]) <= WorkerOf(c, w, key).rest
    ensures Leads(c, w, after) && PassDone(c, w, key, ids, front + [n], after) && Underway(c, after, key, ids)
  {
    after := TurnIsPath(c, w, now, key, ids, n);
    TurnProlongsPass(c, w, now, after, key, ids, front, n);
  }

  lemma NothingPassed(flow: Flow, env: Env)
    requires flow.worker.Busy? && flow.worker.copy.statuses.Some?
             && (flow.worker.attached ==> flow.cached == flow.worker.copy)
    ensures Elems([]) <= env.steps.Keys && Passed(flow, env, []) == flow
  {
    assert flow.worker.rest - Elems([]) == flow.worker.rest;
  }

  lemma PassedMore(flow: Flow, env: Env, front: seq<string>, n: string)
    requires flow.worker.Busy? && Elems(front) <= env.steps.Keys && n in env.steps && n !in front
    ensures Elems(front + [n]) <= env.steps.Keys
    ensures var now := Passed(flow, env, front);
            Turned(now, n, Turn(env, Read(now.worker.copy.statuses), n)) == Passed(flow, env, front + [n])
  {
    var first := Read(flow.worker.copy.statuses);
    assert (front + [n])[..|front|] == front;
    assert Elems(front + [n]) == Elems(front) + {n};
    assert flow.worker.rest - Elems(front) - {n} == flow.worker.rest - Elems(front + [n]);
    WritesMore(env, front, n, first);
    RunLeavesOthers(env, front, first, n);
    assert forall m :: m in front + [n] <==> m in front || m == n;
  }

  lemma TurnProlongsPass(c: Cluster, w: World, now: World, after: World, key: string, ids: seq<nat>, front: seq<string>,
      n: string)
    requires Underway(c, w, key, ids) && Elems(front) <= WorkerOf(c, w, key).rest && n in WorkerOf(c, w, key).rest
             && n !in front
    requires PassDone(c, w, key, ids, front, now) && IsBusy(c, now, key)
    requires TurnDone(now, key, n, Turn(EnvAt(c, w, key, ids), Read(WorkerOf(c, now, key).copy.statuses), n), after)
    ensures Elems(front + [n]) <= WorkerOf(c, w, key).rest && PassDone(c, w, key, ids, front + [n], after)
  {
    var env, first := EnvAt(c, w, key, ids), Read(WorkerOf(c, w, key).copy.statuses);
    FlowsProlonged(w.flows, key, env, front, n);
    LogProlonged(w.log, env, front, n, first, AwaitedSteps(c, w, key), key);
    StillAwaited(c, w, now, key, front, n);
    ExpectedProlonged(w, now, after, key, front, n);
  }

  lemma StillAwaited(c: Cluster, w: World, now: World, key: string, front: seq<string>, n: string)
    requires key in c && n in c[key].steps && n !in front
    requires forall m :: m !in front ==> (Satisfied(now, Slot(key, m)) <==> Satisfied(w, Slot(key, m)))
    ensures n in AwaitedSteps(c, w, key) <==> !Satisfied(now, Slot(key, n))
  {
  }

  lemma ExpectedProlonged(w: World, now: World, after: World, key: string, front: seq<string>, n: string)
    requires forall m :: m !in front ==> (Satisfied(now, Slot(key, m)) <==> Satisfied(w, Slot(key, m)))
    requires forall m :: m != n ==> (Satisfied(after, Slot(key, m)) <==> Satisfied(now, Slot(key, m)))
    ensures forall m :: m !in front + [n] ==> (Satisfied(after, Slot(key, m)) <==> Satisfied(w, Slot(key, m)))
  {
    assert forall m :: m !in front + [n] ==> m !in front && m != n;
  }

  lemma FlowsProlonged(flows: map<string, Flow>, key: string, env: Env, front: seq<string>, n: string)
    requires key in flows && flows[key].worker.Busy? && Elems(front) <= env.steps.Keys && n in env.steps && n !in front
    ensures Elems(front + [n]) <= env.steps.Keys
    ensures var now := flows[key := Passed(flows[key], env, front)];
            now[key := Turned(now[key], n, Turn(env, Read(now[key].worker.copy.statuses), n))] ==
              flows[key := Passed(flows[key], env, front + [n])]
  {
    PassedMore(flows[key], env, front, n);
  }

  lemma LogProlonged(log: seq<LogEntry>, env: Env, front: seq<string>, n: string, first: Statuses, awaited: set<string>,
      key: string)
    requires Elems(front) <= env.steps.Keys && n in env.steps
    ensures Elems(front + [n]) <= env.steps.Keys
    ensures var more := if Turn(env, RunOrder(env, front, first), n).Create? && n !in awaited
                        then [JobCreated(Slot(key, n))] else [];
            log + LogOf(key, Launches(env, front + [n], first, awaited)) ==
            log + LogOf(key, Launches(env, front, first, awaited)) + more
  {
    LaunchesSnoc(env, front, n, first, awaited);
    LogOfSnoc(key, Launches(env, front, first, awaited), n);
  }

  lemma LogOfSnoc(key: string, launched: seq<string>, n: string)
    ensures LogOf(key, launched + [n]) == LogOf(key, launched) + [JobCreated(Slot(key, n))]
  {
  }

  /**
   * An undisturbed pass from its beginning to its end: it sends what the step loop makes of the workflow,
   * if the loop asks for that or the pass has labelled the workflow.
   */
  lemma UndisturbedPassEnds(c: Cluster, w: World, key: string, ids: seq<nat>, order: seq<string>) returns (after: World)
    requires Underway(c, w, key, ids) && Lists(order, c[key].steps.Keys)
    requires WorkerOf(c, w, key).rest == c[key].steps.Keys && WorkerOf(c, w, key).complete
             && !WorkerOf(c, w, key).copy.finished
    ensures Leads(c, w, after) && key in after.flows
    ensures var copy, flow := WorkerOf(c, w, key).copy, w.flows[key];
            var (result, asks) := ProcessSteps(WorkflowOf(c[key], copy), Bodies(w, ids), order, w.now);
            after.flows[key].versions ==
              if WorkerOf(c, w, key).changed || asks
              then flow.versions + [copy.(statuses := Some(result.statuses), finished := IsFinished(result.conditions))]
              else flow.versions
  {
    var passed := UndisturbedPass(c, w, key, ids, order);
    after := SetFlow(passed, key, AfterEnd(passed.flows[key], true));
    LeadsOn(c, w, passed, End(key, true), after);
    LoopResult(c, w, key, ids, order);
  }

  lemma LoopResult(c: Cluster, w: World, key: string, ids: seq<nat>, order: seq<string>)
    requires Underway(c, w, key, ids) && Lists(order, c[key].steps.Keys)
    ensures var copy, env, first := WorkerOf(c, w, key).copy, EnvAt(c, w, key, ids),
            Read(WorkerOf(c, w, key).copy.statuses);
            var (result, asks) := ProcessSteps(WorkflowOf(c[key], copy), Bodies(w, ids), order, w.now);
            && result.statuses == RunOrder(env, order, first)
            && IsFinished(result.conditions) == (copy.finished || forall n :: n in order ==> Done(first, n))
            && asks == (Writes(env, order, first) || forall n :: n in order ==> Done(first, n))
  {
    var workflow := WorkflowOf(c[key], WorkerOf(c, w, key).copy);
    assert EnvOf(workflow, Bodies(w, ids)) == EnvAt(c, w, key, ids);
    assert forall n :: n in order <==> n in Elems(order);
    assert IsTerminal(COMPLETED) && COMPLETED in AddCompleteCondition(workflow, w.now).conditions;
    assert workflow.conditions == [COMPLETED] ==> COMPLETED in workflow.conditions;
  }
}
