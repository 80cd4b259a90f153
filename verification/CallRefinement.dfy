/**
 * The start of a call in the protocol is the call on the cached workflow: it proceeds under the same
 * conditions, takes the same branch, sends the same workflow and leaves the same in the cache.
 */
module CallRefinement {
  import opened Prelude
  import opened Api
  import opened Jobs
  import opened Expectations
  import opened Validation
  import opened Processing
  import opened TransitionerModel
  import opened Protocol
  import opened ProtocolTheorems

  /** The snapshot shows the workflow; whether the statuses map is there is not part of a workflow value. */
  ghost predicate Shows(snap: Snapshot, w: Workflow) {
    && snap.labels == w.labels && snap.hasSelector == w.jobsSelector.Some?
    && Read(snap.statuses) == w.statuses && snap.finished == IsFinished(w.conditions)
  }

  lemma FinishedShows(s: Submission, snap: Snapshot)
    ensures Shows(snap, WorkflowOf(s, snap))
  {
    if snap.finished {
      assert COMPLETED in WorkflowOf(s, snap).conditions && IsTerminal(COMPLETED);
    }
  }

  /**
   * Between passes, exactly one of `Default`, `Reject` and `Begin` can happen if the job store is synced and
   * the cached workflow is neither complete nor paused, and none otherwise.
   */
  lemma StartsIff(c: Cluster, w: World, key: string)
    requires key in c && key in w.flows && w.flows[key].worker.Idle?
    ensures var cached := w.flows[key].cached;
            var paused := PAUSE_LABEL in cached.labels && cached.labels[PAUSE_LABEL] == "true";
            var proceeds := w.synced && !cached.finished && !paused;
            var raw := UID_LABEL !in cached.labels;
            var rejected := (VALID_LABEL !in cached.labels || cached.labels[VALID_LABEL] == "false")
                            && !(c[key].checks.Passed() && ValidSpec(WorkflowOf(c[key], cached)));
            && (PreconditionsMet(WorkflowOf(c[key], cached), w.synced) <==> proceeds)
            && (CanDefault(c, w, key) <==> proceeds && raw)
            && (CanReject(c, w, key) <==> proceeds && !raw && rejected)
            && (CanBegin(c, w, key) <==> proceeds && !raw && !rejected)
  {
    FinishedShows(c[key], w.flows[key].cached);
  }

  /** Defaulting: what is sent, and what shows in the cached workflow. */
  lemma DefaultIsProcess(c: Cluster, w: World, key: string, input: Input)
    requires CanDefault(c, w, key) && SnapInv(c, w.log, key, w.flows[key].cached)
    requires Elems(input.order) <= c[key].steps.Keys
    ensures var workflow, flow := WorkflowOf(c[key], w.flows[key].cached), AfterDefault(c[key], w.flows[key], true);
            var (after, asks) := Process(workflow, input);
            asks && Shows(Newest(flow), after) && Newest(flow).statuses.Some?
            && Shows(flow.cached, Remnant(workflow, after, c[key].hasLabels))
  {
    FinishedShows(c[key], w.flows[key].cached);
  }

  /** A negative verdict is recorded in the cached workflow, and sent if it is the first. */
  lemma RejectIsProcess(c: Cluster, w: World, key: string, input: Input)
    requires CanReject(c, w, key) && Elems(input.order) <= c[key].steps.Keys && input.checks == c[key].checks
    ensures var workflow, flow := WorkflowOf(c[key], w.flows[key].cached), AfterReject(w.flows[key], true);
            var (after, asks) := Process(workflow, input);
            && Shows(flow.cached, after) && Remnant(workflow, after, true) == after
            && flow.versions == w.flows[key].versions + if asks then [flow.cached] else []
  {
    FinishedShows(c[key], w.flows[key].cached);
  }

  /** A pass begins exactly on a workflow with which a call gets to its steps, and with the labels it has there. */
  lemma BeginIsProcess(c: Cluster, w: World, key: string)
    requires key in c && key in w.flows && CanStart(c, w, key)
    ensures var workflow := WorkflowOf(c[key], w.flows[key].cached);
            && (CanBegin(c, w, key) <==> ReachesSteps(workflow, c[key].checks))
            && Shows(Started(w.flows[key].cached), Accepted(workflow))
            && (AfterBegin(c[key], w.flows[key]).worker.changed <==> NeedsValidation(workflow.labels))
  {
    FinishedShows(c[key], w.flows[key].cached);
  }

  // ---- Expectations ----

  /** A stored job is observed for the workflows that own it by their selector. */
  lemma ObservedIffOwned(c: Cluster, w: World, id: nat, key: string, snap: Snapshot)
    requires id in w.store && key in c && snap.hasSelector
    ensures CanObserveJob(c, w, id, key) <==>
              Owns(WorkflowOf(c[key], snap), w.store[id]) && STEP_LABEL in w.store[id].labels
  {
    assert WorkflowOf(c[key], snap).jobsSelector == Some(map[UID_LABEL := c[key].uid]);
  }

  /** What is awaited after the history of operations, under the keys `names`, is what the protocol keeps. */
  ghost predicate Kept(expected: map<Slot, int>, history: seq<Operation>, names: map<string, string>) {
    forall key, step, now :: key in names ==>
      (Awaited(history, names[key], step, now) <==>
       Slot(key, step) in expected && now <= expected[Slot(key, step)] + 300_000_000_000)
  }

  /** The operations that an event performs; a restart begins with an empty store. */
  ghost function HistoryAfter(c: Cluster, w: World, history: seq<Operation>, names: map<string, string>, e: Event):
      seq<Operation>
    requires Enabled(c, w, e) && c.Keys == names.Keys
  {
    match e
    case Restart => []
    case ObserveJob(id, key) => history + [Observed(names[key], w.store[id].labels[STEP_LABEL])]
    case ExpectCreation(key) => history + [Expected(names[key], PendingSlot(w, key).step, w.now)]
    case _ => history
  }

  /**
   * The expectations of the protocol are those of the nested map: every event performs the operations of
   * its handler, and a check passes exactly if the step is not awaited.
   */
  lemma ExpectationsKept(c: Cluster, w: World, e: Event, history: seq<Operation>, names: map<string, string>)
    requires Enabled(c, w, e) && c.Keys == names.Keys && Kept(w.expected, history, names)
    requires forall k, l :: k in names && l in names && names[k] == names[l] ==> k == l
    ensures Kept(Next(c, w, e).expected, HistoryAfter(c, w, history, names, e), names)
    ensures e.CheckExpectation? ==>
              (CheckPasses(c, w, e.key) <==>
               !Awaited(history, names[e.key], PendingSlot(w, e.key).step, w.now))
  {
    var after := HistoryAfter(c, w, history, names, e);
    forall key, step, now | key in names
      ensures Awaited(after, names[key], step, now) <==>
              && Slot(key, step) in Next(c, w, e).expected
              && now <= Next(c, w, e).expected[Slot(key, step)] + 300_000_000_000
    {
      match e
      case Restart => AwaitedAfter([], Deleted(""), names[key], step, now);
      case ObserveJob(id, k) =>
        AwaitedAfter(history, Observed(names[k], w.store[id].labels[STEP_LABEL]), names[key], step, now);
      case ExpectCreation(k) =>
        AwaitedAfter(history, Expected(names[k], PendingSlot(w, k).step, w.now), names[key], step, now);
      case _ =>
    }
  }
}
