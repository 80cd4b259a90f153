/**
 * A step can get two jobs although no expectation expires and the controller never restarts: a pass
 * lists the jobs of the step before the informer delivers its job, and checks the expectation after
 * the informer has cleared it.
 */
module Race {
  import opened Prelude
  import opened Graphs
  import opened Api
  import opened Jobs
  import opened Processing
  import opened Protocol
  import opened ProtocolInvariants
  import opened ProtocolTheorems

  /** No time passes, nothing restarts, and no job ends. */
  predicate Early(e: Event) {
    Calm(e) && !e.FinishJob?
  }

  ghost predicate EarlyRun(c: Cluster, ws: seq<World>, es: seq<Event>) {
    IsRun(c, ws, es) && forall i :: 0 <= i < |es| ==> Early(es[i]) && Forward(ws[i], es[i])
  }

  /** The world can be reached without time passing, without a restart and before any job ends. */
  ghost predicate Reachable(c: Cluster, w: World) {
    exists ws, es :: EarlyRun(c, ws, es) && ws[|es|] == w
  }

  lemma ReachNext(c: Cluster, w: World, e: Event, after: World)
    requires Reachable(c, w) && IsStep(c, w, e, after) && Early(e) && Forward(w, e)
    ensures Reachable(c, after)
  {
    var ws, es :| EarlyRun(c, ws, es) && ws[|es|] == w;
    RunSnoc(c, ws, es, e, after);
    assert EarlyRun(c, ws + [after], es + [e]);
  }

  lemma ReachableInv(c: Cluster, w: World)
    requires Reachable(c, w)
    ensures WellFormed(c) && Inv(c, w)
  {
    var ws, es :| EarlyRun(c, ws, es) && ws[|es|] == w;
    RunInv(c, ws, es, |es|);
  }

  /**
   * From any reachable world in which a pass has found no job for a step that has one, the informer's
   * delivery of that job lets the pass create another.
   */
  lemma DeliveryAfterListingDuplicates(c: Cluster, w: World, key: string, id: nat) returns (after: World)
    requires Reachable(c, w) && CanCheck(c, w, key) && w.listing.Some?
    requires id in w.jobs && w.jobs[id].slot == PendingSlot(w, key)
    ensures Reachable(c, after) && Twice(after.jobs, PendingSlot(w, key)) && after.listing == w.listing
  {
    ReachableInv(c, w);
    assert JobInv(c, w.log, w.jobs[id]);
    var stored, observed := Delivery(c, w, key, id);
    ReachNext(c, w, StoreJob(id), stored);
    ReachNext(c, stored, ObserveJob(id, key), observed);
    after := DuplicateReached(c, observed, key);
  }

  lemma DuplicateReached(c: Cluster, w: World, key: string) returns (after: World)
    requires Reachable(c, w) && CheckPasses(c, w, key) && IsSlot(c, PendingSlot(w, key))
             && HasJob(w.jobs, PendingSlot(w, key))
    ensures Reachable(c, after) && Twice(after.jobs, PendingSlot(w, key)) && after.listing == w.listing
  {
    var other := FreeId(w.jobs.Keys);
    var checked;
    checked, after := CheckedThenCreated(c, w, key, other, "");
    ReachNext(c, w, CheckExpectation(key), checked);
    ReachNext(c, checked, CreateJob(key, other, ""), after);
  }

  /** The informer stores the job and its handler clears the expectation. */
  lemma Delivery(c: Cluster, w: World, key: string, id: nat) returns (stored: World, observed: World)
    requires WellFormed(c) && CanCheck(c, w, key) && w.listing.Some?
    requires id in w.jobs && w.jobs[id].slot == PendingSlot(w, key) && JobInv(c, w.log, w.jobs[id])
    ensures IsStep(c, w, StoreJob(id), stored) && IsStep(c, stored, ObserveJob(id, key), observed)
    ensures observed.jobs == w.jobs && observed.listing == w.listing
    ensures CheckPasses(c, observed, key) && PendingSlot(observed, key) == PendingSlot(w, key)
    ensures IsSlot(c, PendingSlot(observed, key)) && HasJob(observed.jobs, PendingSlot(observed, key))
  {
    stored := AfterStoreJob(w, id);
    OwnerFound(c, stored, key, id);
    observed := AfterObserveJob(c, stored, id, key);
  }

  lemma OwnerFound(c: Cluster, w: World, key: string, id: nat)
    requires WellFormed(c) && id in w.store && id in w.jobs && key in c && w.jobs[id].slot.key == key
    requires LabelledFor(c, w.jobs[id].slot, w.store[id])
    ensures CanObserveJob(c, w, id, key) && Slot(key, w.store[id].labels[STEP_LABEL]) == w.jobs[id].slot
  {
    IdentifiedAsWorkflow(c, key);
    OwnsOnlyItsJobs(AsWorkflow(c[key]), AsWorkflow(c[key]), w.jobs[id].slot.step, w.store[id]);
  }

  // ---- A run that gets there ----

  /**
   * The workflow has a single step, which runs a job and depends on nothing; it is not paused, and the
   * validator has nothing against it.
   */
  ghost predicate OneStep(c: Cluster, key: string, n: string) {
    && WellFormed(c) && key in c && !Paused(c[key].labels) && c[key].checks.Passed()
    && (c[key].deadline.Some? ==> c[key].deadline.value >= 0)
    && exists step: Step ::
         c[key].steps == map[n := step] && step.jobTemplate.Some? && step.externalRef.None? && step.dependencies == []
  }

  lemma OneStepIsAcceptable(c: Cluster, key: string, n: string)
    requires OneStep(c, key, n)
    ensures Acceptable(c[key]) && IsSlot(c, Slot(key, n)) && c[key].steps[n].dependencies == []
            && c[key].steps.Keys == {n}
  {
    var g := GraphOf(c[key].steps);
    assert Elems([n]) == g.Keys;
    assert TopoOrder(g, [n]);
    TopoOrderAccepts(g, [n]);
  }

  /** Synced, nothing stored, no pass over the workflow, and a cached copy that has been defaulted. */
  ghost predicate Resting(c: Cluster, w: World, key: string) {
    && Reachable(c, w) && w.synced && w.listing.Some? && w.store == map[]
    && key in w.flows && w.flows[key].worker.Idle? && w.flows[key].seen + 1 == |w.flows[key].versions|
    && var cached := w.flows[key].cached;
       && UID_LABEL in cached.labels && cached.hasSelector && cached.statuses == Some(map[])
       && !cached.finished && !Paused(cached.labels)
  }

  ghost function StartWorld(c: Cluster): World {
    World(0, map[], [], map[], None, false, map[], map k | k in c :: InitialFlow(c[k]))
  }

  lemma StartReachable(c: Cluster)
    requires WellFormed(c)
    ensures Reachable(c, StartWorld(c))
  {
    var w := StartWorld(c);
    var es: seq<Event> := [];
    assert EarlyRun(c, [w], es) && [w][|es|] == w;
  }

  /** The controller starts, syncs and sets the defaults of the workflow, which come back with the next poll. */
  lemma StartUp(c: Cluster, key: string) returns (w: World)
    requires WellFormed(c) && key in c && !Paused(c[key].labels)
    ensures Resting(c, w, key) && w.jobs == map[] && w.expected == map[] && NeedsValidation(w.flows[key].cached.labels)
  {
    var w0 := StartWorld(c);
    StartReachable(c);
    var w1 := w0.(listing := Some(w0.jobs.Keys));
    ReachNext(c, w0, InitialList, w1);
    var w2 := w1.(synced := true);
    ReachNext(c, w1, MarkSynced, w2);
    w := SetDefaults(c, w2, key);
  }

  lemma SetDefaults(c: Cluster, w: World, key: string) returns (after: World)
    requires Reachable(c, w) && WellFormed(c) && key in c && !Paused(c[key].labels)
    requires w.synced && w.listing.Some? && w.store == map[] && key in w.flows && w.flows[key] == InitialFlow(c[key])
    ensures Resting(c, after, key) && after.jobs == w.jobs && after.expected == w.expected
    ensures NeedsValidation(after.flows[key].cached.labels)
  {
    LabelKeysDiffer();
    var defaulted := SetFlow(w, key, AfterDefault(c[key], w.flows[key], true));
    ReachNext(c, w, Default(key, true), defaulted);
    after := SetFlow(defaulted, key, Refreshed(defaulted.flows[key], 1));
    ReachNext(c, defaulted, Refresh(key, 1), after);
  }

  /** A pass begins and lists no job for the step. */
  lemma ListNothing(c: Cluster, w: World, key: string, n: string) returns (listed: World)
    requires OneStep(c, key, n) && Resting(c, w, key)
    ensures Reachable(c, listed) && CanCheck(c, listed, key) && PendingSlot(listed, key) == Slot(key, n)
    ensures listed.jobs == w.jobs && listed.expected == w.expected && listed.store == map[]
    ensures listed.synced && listed.listing.Some? && ListedNone(c, listed, key)
    ensures WorkerOf(c, listed, key).changed == NeedsValidation(w.flows[key].cached.labels)
  {
    OneStepIsAcceptable(c, key, n);
    var begun := BeginPass(c, w, key);
    listed := ExamineEmpty(c, begun, key, n);
    ReachNext(c, begun, Examine(key, n, []), listed);
  }

  /** The pass has come to its last step with nothing recorded; the cache has the newest version. */
  ghost predicate ListedNone(c: Cluster, w: World, key: string) {
    && IsBusy(c, w, key)
    && var worker := WorkerOf(c, w, key);
       && worker.rest == {} && !worker.complete && w.flows[key].seen + 1 == |w.flows[key].versions|
       && UID_LABEL in worker.copy.labels && worker.copy.hasSelector && worker.copy.statuses == Some(map[])
       && !worker.copy.finished && !Paused(worker.copy.labels)
  }

  lemma BeginPass(c: Cluster, w: World, key: string) returns (begun: World)
    requires key in c && Acceptable(c[key]) && Resting(c, w, key)
    ensures Reachable(c, begun) && begun == SetFlow(w, key, AfterBegin(c[key], w.flows[key]))
    ensures var copy := Started(w.flows[key].cached); UID_LABEL in copy.labels && !Paused(copy.labels)
  {
    LabelKeysDiffer();
    VerdictIff(c[key], w.flows[key].cached);
    begun := SetFlow(w, key, AfterBegin(c[key], w.flows[key]));
    ReachNext(c, w, Begin(key), begun);
  }

  lemma ExamineEmpty(c: Cluster, w: World, key: string, n: string) returns (listed: World)
    requires IsSlot(c, Slot(key, n)) && c[key].steps[n].dependencies == [] && IsBusy(c, w, key) && w.store == map[]
    requires var worker := WorkerOf(c, w, key);
             worker.stage.Ranging? && worker.rest == {n} && worker.copy.statuses == Some(map[])
    ensures IsStep(c, w, Examine(key, n, []), listed)
    ensures listed == SetFlow(w, key,
            w.flows[key].(worker := WorkerOf(c, w, key).(rest := {}, complete := false, stage := FoundNone(n))))
  {
    assert Listed(c, w, WorkerOf(c, w, key).copy.labels, Slot(key, n)) == {};
    assert WorkerOf(c, w, key).rest - {n} == {};
    listed := AfterExamine(c, w, key, n, []);
  }

  /** The pass creates the job, expects it and ends; the job is not delivered yet. */
  lemma LaunchFirst(c: Cluster, w: World, key: string, n: string) returns (launched: World)
    requires Reachable(c, w) && CanCheck(c, w, key) && PendingSlot(w, key) == Slot(key, n) && IsSlot(c, Slot(key, n))
    requires w.jobs == map[] && w.expected == map[] && w.store == map[] && w.synced && w.listing.Some?
    requires ListedNone(c, w, key) && WorkerOf(c, w, key).changed
    ensures Resting(c, launched, key)
    ensures 0 in launched.jobs && launched.jobs[0].slot == Slot(key, n)
  {
    var checked := AfterCheck(c, w, key);
    ReachNext(c, w, CheckExpectation(key), checked);
    var created := AfterCreate(c, checked, key, 0, "");
    ReachNext(c, checked, CreateJob(key, 0, ""), created);
    launched := ExpectAndEnd(c, created, key);
  }

  lemma ExpectAndEnd(c: Cluster, w: World, key: string) returns (ended: World)
    requires Reachable(c, w) && CanExpect(c, w, key) && ListedNone(c, w, key) && w.store == map[] && w.synced
             && w.listing.Some?
    requires WorkerOf(c, w, key).changed
    ensures Resting(c, ended, key) && ended.jobs == w.jobs
  {
    var expected := AfterExpect(c, w, key);
    ReachNext(c, w, ExpectCreation(key), expected);
    var updated := SetFlow(expected, key, AfterEnd(expected.flows[key], true));
    ReachNext(c, expected, End(key, true), updated);
    ended := PollNewest(c, updated, key);
  }

  /** The update of the first pass comes back, and queues the workflow for a second one. */
  lemma PollNewest(c: Cluster, w: World, key: string) returns (polled: World)
    requires Reachable(c, w) && key in w.flows && w.flows[key].worker.Idle?
             && w.flows[key].seen + 1 < |w.flows[key].versions|
    ensures Reachable(c, polled) && key in polled.flows && polled == SetFlow(w, key, polled.flows[key])
    ensures polled.flows[key] == w.flows[key].(cached := Newest(w.flows[key]), seen := |w.flows[key].versions| - 1)
  {
    var newest := |w.flows[key].versions| - 1;
    polled := SetFlow(w, key, Refreshed(w.flows[key], newest));
    ReachNext(c, w, Refresh(key, newest), polled);
  }

  /**
   * Every workflow of a single job step that is accepted and not paused has a run, without restart and in
   * no time at all, in which the step gets two jobs.
   */
  lemma TwoJobsWithoutExpiryOrRestart(c: Cluster, key: string, n: string) returns (w: World)
    requires OneStep(c, key, n)
    ensures Reachable(c, w) && Twice(w.jobs, Slot(key, n)) && w.listing.Some?
  {
    OneStepIsAcceptable(c, key, n);
    var ready := StartUp(c, key);
    var listed := ListNothing(c, ready, key, n);
    var launched := LaunchFirst(c, listed, key, n);
    var again := ListNothing(c, launched, key, n);
    w := DeliveryAfterListingDuplicates(c, again, key, 0);
  }
}
