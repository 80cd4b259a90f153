/** What holds of all runs: causal order, only valid workflows, and when exactly a step gets a second job. */
module ProtocolTheorems {
  import opened Prelude
  import opened Graphs
  import opened Api
  import opened Jobs
  import opened Scheduling
  import opened Validation
  import opened Protocol
  import opened ProtocolInvariants

  // ---- Causal order ----

  /**
   * Whatever the age of the copies the passes read: when a job is created for a step, jobs of all the
   * steps it depends on, directly or through others, have been created and have finished before.
   * `chain` leads from such a step to the step itself, each element a dependency of the next.
   */
  lemma CreatedAfterDependenciesFinished(c: Cluster, ws: seq<World>, es: seq<Event>, key: string, chain: seq<string>,
      i: nat)
    requires IsRun(c, ws, es)
    requires var log := ws[|es|].log; i < |log| && |chain| > 1 && log[i] == JobCreated(Slot(key, chain[|chain| - 1]))
    requires key in c && IsChain(GraphOf(c[key].steps), chain)
    ensures JobFinished(Slot(key, chain[0])) in ws[|es|].log[..i]
    ensures JobCreated(Slot(key, chain[0])) in ws[|es|].log[..i]
  {
    RunInv(c, ws, es, |es|);
    ChainFinished(c, ws[|es|].log, key, chain, i);
  }

  /** One link of the chain; `created` is the creation of the dependency's job. */
  lemma DependencyFinished(c: Cluster, log: seq<LogEntry>, key: string, step: string, needed: string, i: nat)
    returns (created: nat)
    requires LogInv(c, log) && key in c && DependsOn(GraphOf(c[key].steps), step, needed)
    requires i < |log| && log[i] == JobCreated(Slot(key, step))
    ensures created < i && log[created] == JobCreated(Slot(key, needed))
    ensures JobFinished(Slot(key, needed)) in log[..i] && JobCreated(Slot(key, needed)) in log[..i]
  {
    assert EntryInv(c, log[..i], log[i]);
    var finished :| 0 <= finished < i && log[finished] == JobFinished(Slot(key, needed));
    assert EntryInv(c, log[..finished], log[finished]);
    created :| 0 <= created < finished && log[created] == JobCreated(Slot(key, needed));
  }

  lemma {:induction false} ChainFinished(c: Cluster, log: seq<LogEntry>, key: string, chain: seq<string>, i: nat)
    requires LogInv(c, log) && key in c && IsChain(GraphOf(c[key].steps), chain)
    requires i < |log| && |chain| > 1 && log[i] == JobCreated(Slot(key, chain[|chain| - 1]))
    ensures JobFinished(Slot(key, chain[0])) in log[..i]
    ensures JobCreated(Slot(key, chain[0])) in log[..i]
    decreases |chain|
  {
    var n := |chain|;
    var created := DependencyFinished(c, log, key, chain[n - 1], chain[n - 2], i);
    if n > 2 {
      ChainFinished(c, log, key, chain[..n - 1], created);
    }
  }

  /**
   * Every job that is ever created belongs to a job step of a workflow that is not paused and that the
   * validator accepts as a whole once it has been defaulted.
   */
  lemma OnlyValidWorkflowsGetJobs(c: Cluster, ws: seq<World>, es: seq<Event>, id: nat)
    requires IsRun(c, ws, es) && id in ws[|es|].jobs
    ensures var slot := ws[|es|].jobs[id].slot;
            && IsSlot(c, slot) && !Paused(c[slot.key].labels)
            && c[slot.key].checks.Passed() && ValidSpec(WorkflowOf(c[slot.key], DefaultsOf(c[slot.key])))
  {
    RunInv(c, ws, es, |es|);
    assert JobInv(c, ws[|es|].log, ws[|es|].jobs[id]);
  }

  /** The server, the workflow store or a pass holds the workflow like this. */
  ghost predicate Held(flow: Flow, snap: Snapshot) {
    snap in flow.versions || snap == flow.cached || (flow.worker.Busy? && snap == flow.worker.copy)
  }

  lemma HeldIsSound(c: Cluster, log: seq<LogEntry>, synced: bool, key: string, flow: Flow, snap: Snapshot)
    requires key in c && FlowInv(c, log, synced, key, flow) && Held(flow, snap)
    ensures Sound(log, key, Read(snap.statuses)) && (snap.finished ==> AllComplete(c[key].steps, Read(snap.statuses)))
  {
  }

  /** A status says complete only of a step a job of which has finished, wherever it is held and however old it is. */
  lemma CompleteMeansFinished(c: Cluster, ws: seq<World>, es: seq<Event>, key: string, snap: Snapshot, n: string)
    requires IsRun(c, ws, es) && key in c
    requires key in ws[|es|].flows && Held(ws[|es|].flows[key], snap) && Done(Read(snap.statuses), n)
    ensures JobFinished(Slot(key, n)) in ws[|es|].log
  {
    RunInv(c, ws, es, |es|);
    HeldIsSound(c, ws[|es|].log, ws[|es|].synced, key, ws[|es|].flows[key], snap);
  }

  /** A workflow that carries the Complete condition has had a job of each of its steps finish. */
  lemma FinishedMeansAllFinished(c: Cluster, ws: seq<World>, es: seq<Event>, key: string, snap: Snapshot, n: string)
    requires IsRun(c, ws, es) && key in c
    requires key in ws[|es|].flows && Held(ws[|es|].flows[key], snap) && snap.finished && n in c[key].steps
    ensures JobFinished(Slot(key, n)) in ws[|es|].log
  {
    RunInv(c, ws, es, |es|);
    HeldIsSound(c, ws[|es|].log, ws[|es|].synced, key, ws[|es|].flows[key], snap);
    CompleteMeansFinished(c, ws, es, key, snap, n);
  }

  // ---- Turns, in terms of the jobs of the step ----

  /** The stored job is the only one of its slot in the store. */
  ghost predicate OnlyStored(jobs: map<nat, ServerJob>, store: map<nat, Job>, slot: Slot, id: nat) {
    && id in store && id in jobs && jobs[id].slot == slot
    && forall other :: other in store && other in jobs && jobs[other].slot == slot ==> other == id
  }

  /**
   * A turn goes on to create a job exactly when the step is ready in the copy and no job of it is
   * stored; it writes a status exactly when the step is ready, one job of it is stored, and the status of
   * that job is not the recorded one.
   */
  lemma TurnMeaning(c: Cluster, w: World, key: string, step: string, found: seq<nat>)
    requires WellFormed(c) && Inv(c, w) && CanExamine(c, w, key, step, found)
    ensures var slot, statuses, turn := Slot(key, step), Read(WorkerOf(c, w, key).copy.statuses),
            TurnOf(c, w, key, step, found);
            var ready := IsSlot(c, slot) && !Done(statuses, step) && DependenciesResolved(c[key].steps[step], statuses);
            && (turn.Create? <==> ready && !HasStored(w.jobs, w.store, slot))
            && (turn.Write? ==> ready && exists id :: OnlyStored(w.jobs, w.store, slot, id)
                                                      && turn.status.complete == IsJobFinished(w.store[id])
                                                      && w.store[id].reference == Some(turn.status.reference))
            && (forall id: nat ::
                  ready && OnlyStored(w.jobs, w.store, slot, id) && w.store[id].reference.Some?
                  && !(step in statuses && statuses[step].complete == IsJobFinished(w.store[id])) ==>
                    turn.Write?)
  {
    FoundAreStored(c, w, key, step, found);
    TurnOfStored(c, w, key, step, found);
  }

  lemma TurnOfStored(c: Cluster, w: World, key: string, step: string, found: seq<nat>)
    requires CanExamine(c, w, key, step, found) && FoundIsStored(c, w, Slot(key, step), found)
    ensures var slot, statuses, turn := Slot(key, step), Read(WorkerOf(c, w, key).copy.statuses),
            TurnOf(c, w, key, step, found);
            var ready := IsSlot(c, slot) && !Done(statuses, step) && DependenciesResolved(c[key].steps[step], statuses);
            && (turn.Create? <==> ready && !HasStored(w.jobs, w.store, slot))
            && (turn.Write? ==> ready && exists id :: OnlyStored(w.jobs, w.store, slot, id)
                                                      && turn.status.complete == IsJobFinished(w.store[id])
                                                      && w.store[id].reference == Some(turn.status.reference))
            && (forall id: nat ::
                  ready && OnlyStored(w.jobs, w.store, slot, id) && w.store[id].reference.Some?
                  && !(step in statuses && statuses[step].complete == IsJobFinished(w.store[id])) ==>
                    turn.Write?)
  {
    TurnOfFound(c, w, key, step, found);
  }

  lemma TurnOfFound(c: Cluster, w: World, key: string, step: string, found: seq<nat>)
    requires CanExamine(c, w, key, step, found)
    ensures var statuses, turn := Read(WorkerOf(c, w, key).copy.statuses), TurnOf(c, w, key, step, found);
            var ready := IsSlot(c, Slot(key, step)) && !Done(statuses, step)
              && DependenciesResolved(c[key].steps[step], statuses);
            && (turn.Create? <==> ready && found == [])
            && (turn.Write? ==> ready && |found| == 1 && found[0] in w.store
                                && turn.status.complete == IsJobFinished(w.store[found[0]])
                                && w.store[found[0]].reference == Some(turn.status.reference))
            && (ready && |found| == 1 && found[0] in w.store && w.store[found[0]].reference.Some?
                && !(step in statuses && statuses[step].complete == IsJobFinished(w.store[found[0]])) ==>
                  turn.Write?)
  {
    assert found != [] ==> found[0] in Elems(found);
  }

  /** What was listed for the pair is what is stored of it. */
  ghost predicate FoundIsStored(c: Cluster, w: World, slot: Slot, found: seq<nat>) {
    IsSlot(c, slot) ==>
      && (HasStored(w.jobs, w.store, slot) <==> found != [])
      && (|found| == 1 ==> OnlyStored(w.jobs, w.store, slot, found[0]))
      && forall id: nat :: OnlyStored(w.jobs, w.store, slot, id) ==> found == [id]
  }

  lemma FoundAreStored(c: Cluster, w: World, key: string, step: string, found: seq<nat>)
    requires WellFormed(c) && Inv(c, w) && CanExamine(c, w, key, step, found)
    ensures FoundIsStored(c, w, Slot(key, step), found)
  {
    var slot := Slot(key, step);
    if IsSlot(c, slot) {
      assert FlowInv(c, w.log, w.synced, key, w.flows[key]);
      ListedForPass(c, w, WorkerOf(c, w, key).copy.labels, slot, found);
      StoredOfSlot(w.jobs, w.store, slot, found);
    }
  }

  lemma ListedForPass(c: Cluster, w: World, labels: Labels, slot: Slot, found: seq<nat>)
    requires WellFormed(c) && JobsInv(c, w.log, w.jobs) && StoreInv(w.jobs, w.store) && IsSlot(c, slot)
    requires labels == ValidatedLabels(c[slot.key], true) && Lists(found, Listed(c, w, labels, slot))
    ensures w.store.Keys <= w.jobs.Keys && Lists(found, set id | id in w.store && w.jobs[id].slot == slot)
  {
    ListedAreOfSlot(c, w, slot);
  }

  lemma StoredOfSlot(jobs: map<nat, ServerJob>, store: map<nat, Job>, slot: Slot, found: seq<nat>)
    requires store.Keys <= jobs.Keys && Lists(found, set id | id in store && jobs[id].slot == slot)
    ensures HasStored(jobs, store, slot) <==> found != []
    ensures |found| == 1 ==> OnlyStored(jobs, store, slot, found[0])
    ensures forall id: nat :: OnlyStored(jobs, store, slot, id) ==> found == [id]
  {
    forall id: nat | OnlyStored(jobs, store, slot, id) ensures found == [id] {
      assert Elems(found) == {id};
      ListsSize(found, {id});
      assert found[0] in Elems(found);
    }
    assert found != [] ==> found[0] in Elems(found);
    assert forall id :: id in store && jobs[id].slot == slot ==> id in Elems(found);
  }

  // ---- At most one job ----

  ghost predicate Single(jobs: map<nat, ServerJob>) {
    forall i, j :: i in jobs && j in jobs && jobs[i].slot == jobs[j].slot ==> i == j
  }

  ghost predicate Twice(jobs: map<nat, ServerJob>, slot: Slot) {
    exists i, j :: i != j && i in jobs && j in jobs && jobs[i].slot == slot && jobs[j].slot == slot
  }

  /** The slot whose expectation the worker is about to check, or for which it may create a job. */
  function PendingSlot(w: World, key: string): Slot
    requires key in w.flows && w.flows[key].worker.Busy? && !w.flows[key].worker.stage.Ranging?
  {
    Slot(key, w.flows[key].worker.stage.step)
  }

  /** The check lets the worker go on. */
  ghost predicate CheckPasses(c: Cluster, w: World, key: string) {
    CanCheck(c, w, key) && Satisfied(w, PendingSlot(w, key))
  }

  /** At the check, a listing would still find no job, and no expectation is recorded, expired or not. */
  ghost predicate Clean(c: Cluster, w: World, key: string)
    requires CanCheck(c, w, key)
  {
    && Listed(c, w, WorkerOf(c, w, key).copy.labels, PendingSlot(w, key)) == {}
    && PendingSlot(w, key) !in w.expected
  }

  /** A check lets the pass go on exactly if nothing is recorded for the step, or for more than five minutes. */
  lemma CheckPassesIff(c: Cluster, w: World, key: string)
    requires CanCheck(c, w, key)
    ensures var slot := PendingSlot(w, key);
            && (CheckPasses(c, w, key) <==> slot !in w.expected || w.now > w.expected[slot] + 300_000_000_000)
            && Next(c, w, CheckExpectation(key)) ==
               AtStage(w, key, if CheckPasses(c, w, key) then MayCreate(slot.step) else Ranging)
  {
  }

  /** What a pass expects holds for five minutes. */
  lemma ExpectationHolds(c: Cluster, w: World, key: string, elapsed: nat)
    requires CanExpect(c, w, key)
    ensures var later := Next(c, Next(c, w, ExpectCreation(key)), Tick(elapsed));
            Satisfied(later, PendingSlot(w, key)) <==> elapsed > 300_000_000_000
  {
  }

  /** A job whose creation is never observed does not hold up its step for more than five minutes. */
  lemma CheckPassesAfterTimeout(c: Cluster, w: World, key: string, elapsed: nat)
    requires Inv(c, w) && CanCheck(c, w, key) && elapsed > 300_000_000_000
    ensures var later := Next(c, w, Tick(elapsed));
            && CanCheck(c, later, key) && CheckPasses(c, later, key)
            && CanCreate(c, Next(c, later, CheckExpectation(key)), key)
            && PendingSlot(Next(c, later, CheckExpectation(key)), key) == PendingSlot(w, key)
  {
    PendingIsSlot(c, w, key);
    PassesLater(c, w, key, elapsed);
  }

  lemma PendingIsSlot(c: Cluster, w: World, key: string)
    requires Inv(c, w) && CanCheck(c, w, key)
    ensures IsSlot(c, PendingSlot(w, key)) && IsPast(w, PendingSlot(w, key))
  {
    FlowKnown(c, w, key);
  }

  /** No expectation of the slot is from the future. */
  predicate IsPast(w: World, slot: Slot) {
    slot in w.expected ==> w.expected[slot] <= w.now
  }

  lemma PassesLater(c: Cluster, w: World, key: string, elapsed: nat)
    requires CanCheck(c, w, key) && IsSlot(c, PendingSlot(w, key)) && IsPast(w, PendingSlot(w, key))
    requires elapsed > 300_000_000_000
    ensures var later := Next(c, w, Tick(elapsed));
            && CanCheck(c, later, key) && CheckPasses(c, later, key)
            && CanCreate(c, Next(c, later, CheckExpectation(key)), key)
            && PendingSlot(Next(c, later, CheckExpectation(key)), key) == PendingSlot(w, key)
  {
  }

  /** After a restart the controller is as in an initial world; server and jobs are as they were. */
  lemma RestartForgets(c: Cluster, w: World, initial: World)
    requires w.flows.Keys == c.Keys && Initial(c, initial) && forall k :: k in c ==> w.flows[k].versions != []
    ensures var after := Next(c, w, Restart);
            && after == initial.(now := w.now, jobs := w.jobs, log := w.log, flows := after.flows)
            && after.flows == map k | k in c ::
                 Flow(w.flows[k].versions, Newest(w.flows[k]), |w.flows[k].versions| - 1, initial.flows[k].worker)
  {
  }

  /** In every reachable world the check is clean exactly when the step has no job yet. */
  lemma CleanIffNoJob(c: Cluster, w: World, key: string)
    requires WellFormed(c) && Inv(c, w) && CanCheck(c, w, key)
    ensures Clean(c, w, key) <==> !HasJob(w.jobs, PendingSlot(w, key))
  {
    var slot := PendingSlot(w, key);
    assert FlowInv(c, w.log, w.synced, key, w.flows[key]);
    ListedAreOfSlot(c, w, slot);
    if Listed(c, w, WorkerOf(c, w, key).copy.labels, slot) != {} {
      var id :| id in Listed(c, w, WorkerOf(c, w, key).copy.labels, slot);
      assert id in w.jobs && w.jobs[id].slot == slot;
    }
    if HasStored(w.jobs, w.store, slot) {
      var id :| id in w.store && id in w.jobs && w.jobs[id].slot == slot;
      assert id in Listed(c, w, WorkerOf(c, w, key).copy.labels, slot);
    }
  }

  /** A worker that may create a job does so for a step without one. */
  ghost predicate Unmade(jobs: map<nat, ServerJob>, flows: map<string, Flow>) {
    forall k :: k in flows && flows[k].worker.Busy? && flows[k].worker.stage.MayCreate? ==>
      !HasJob(jobs, Slot(k, flows[k].worker.stage.step))
  }

  lemma SingleKept(c: Cluster, w: World, e: Event)
    requires Enabled(c, w, e) && Single(w.jobs) && Unmade(w.jobs, w.flows)
    requires e.CheckExpectation? && CheckPasses(c, w, e.key) ==> !HasJob(w.jobs, PendingSlot(w, e.key))
    ensures Single(Next(c, w, e).jobs) && Unmade(Next(c, w, e).jobs, Next(c, w, e).flows)
  {
    match e
    case FinishJob(id, failed) => SameSlots(w.jobs, AfterFinishJob(w, id, failed).jobs, w.store);
    case CreateJob(key, id, reference) => CreateSingle(c, w, key, id, reference);
    case Examine(key, step, found) => ExamineUnmade(c, w, key, step, found);
    case CheckExpectation(key) => CheckUnmade(c, w, key);
    case _ => OthersUnmade(c, w, e);
  }

  lemma OthersUnmade(c: Cluster, w: World, e: Event)
    requires Enabled(c, w, e) && Unmade(w.jobs, w.flows)
    requires !e.FinishJob? && !e.CreateJob? && !e.Examine? && !e.CheckExpectation?
    ensures Next(c, w, e).jobs == w.jobs && Unmade(w.jobs, Next(c, w, e).flows)
  {
  }

  lemma ExamineUnmade(c: Cluster, w: World, key: string, step: string, found: seq<nat>)
    requires CanExamine(c, w, key, step, found) && Unmade(w.jobs, w.flows)
    ensures var after := AfterExamine(c, w, key, step, found); after.jobs == w.jobs && Unmade(w.jobs, after.flows)
  {
    TurnUnmade(w.flows[key], step, TurnOf(c, w, key, step, found));
  }

  lemma TurnUnmade(flow: Flow, step: string, turn: Action)
    requires flow.worker.Busy? && flow.worker.stage.Ranging?
    ensures var worker := AfterTurn(flow, step, turn).worker;
            worker.Idle? || worker.stage.Ranging? || worker.stage.FoundNone?
  {
  }

  lemma CheckUnmade(c: Cluster, w: World, key: string)
    requires CanCheck(c, w, key) && Unmade(w.jobs, w.flows)
    requires CheckPasses(c, w, key) ==> !HasJob(w.jobs, PendingSlot(w, key))
    ensures var after := AfterCheck(c, w, key); after.jobs == w.jobs && Unmade(w.jobs, after.flows)
  {
  }

  lemma CreateSingle(c: Cluster, w: World, key: string, id: nat, reference: Reference)
    requires CanCreate(c, w, key) && id !in w.jobs && Single(w.jobs) && Unmade(w.jobs, w.flows)
    ensures var after := AfterCreate(c, w, key, id, reference);
            Single(after.jobs) && Unmade(after.jobs, after.flows)
  {
    var after := AfterCreate(c, w, key, id, reference);
    JobAdded(w.jobs, w.store, id, after.jobs[id]);
    assert forall i :: i in w.jobs ==> HasJob(w.jobs, w.jobs[i].slot);
  }

  ghost predicate ChecksClean(c: Cluster, ws: seq<World>, es: seq<Event>)
    requires |ws| == |es| + 1
  {
    forall i :: 0 <= i < |es| && es[i].CheckExpectation? && CheckPasses(c, ws[i], es[i].key) ==>
      Clean(c, ws[i], es[i].key)
  }

  /** If every check that lets a worker go on is clean, no step ever has two jobs. */
  lemma AtMostOneJob(c: Cluster, ws: seq<World>, es: seq<Event>)
    requires IsRun(c, ws, es) && ChecksClean(c, ws, es)
    ensures Single(ws[|es|].jobs)
  {
    SingleAt(c, ws, es, |es|);
  }

  lemma {:induction false} SingleAt(c: Cluster, ws: seq<World>, es: seq<Event>, i: nat)
    requires IsRun(c, ws, es) && ChecksClean(c, ws, es) && i < |ws|
    ensures Single(ws[i].jobs) && Unmade(ws[i].jobs, ws[i].flows)
  {
    if i > 0 {
      SingleAt(c, ws, es, i - 1);
      assert IsStep(c, ws[i - 1], es[i - 1], ws[i]);
      NoJobAtCleanCheck(c, ws, es, i - 1);
      SingleKept(c, ws[i - 1], es[i - 1]);
    }
  }

  lemma NoJobAtCleanCheck(c: Cluster, ws: seq<World>, es: seq<Event>, i: nat)
    requires IsRun(c, ws, es) && ChecksClean(c, ws, es) && i < |es|
    ensures es[i].CheckExpectation? && CheckPasses(c, ws[i], es[i].key) ==>
            !HasJob(ws[i].jobs, PendingSlot(ws[i], es[i].key))
  {
    if es[i].CheckExpectation? && CheckPasses(c, ws[i], es[i].key) {
      RunInv(c, ws, es, i);
      CleanIffNoJob(c, ws[i], es[i].key);
    }
  }

  /**
   * If a check that is not clean lets a worker go on, the next two steps of that worker create a job
   * for a step that has one.
   */
  lemma UncleanCheckDuplicates(c: Cluster, ws: seq<World>, es: seq<Event>, key: string, id: nat, reference: Reference)
    returns (checked: World, created: World)
    requires IsRun(c, ws, es) && CheckPasses(c, ws[|es|], key) && !Clean(c, ws[|es|], key) && id !in ws[|es|].jobs
    ensures IsRun(c, ws + [checked, created], es + [CheckExpectation(key), CreateJob(key, id, reference)])
    ensures !Single(created.jobs) && Twice(created.jobs, PendingSlot(ws[|es|], key))
  {
    RunInv(c, ws, es, |es|);
    checked, created := UncleanDuplicates(c, ws[|es|], key, id, reference);
    TwoMoreSteps(c, ws, es, CheckExpectation(key), checked, CreateJob(key, id, reference), created);
  }

  lemma TwoMoreSteps(c: Cluster, ws: seq<World>, es: seq<Event>, e: Event, w: World, f: Event, v: World)
    requires IsRun(c, ws, es) && IsStep(c, ws[|es|], e, w) && IsStep(c, w, f, v)
    ensures IsRun(c, ws + [w, v], es + [e, f])
  {
    RunSnoc(c, ws, es, e, w);
    RunSnoc(c, ws + [w], es + [e], f, v);
    assert ws + [w] + [v] == ws + [w, v] && es + [e] + [f] == es + [e, f];
  }

  lemma UncleanDuplicates(c: Cluster, w: World, key: string, id: nat, reference: Reference)
    returns (checked: World, created: World)
    requires WellFormed(c) && Inv(c, w) && CheckPasses(c, w, key) && !Clean(c, w, key) && id !in w.jobs
    ensures IsStep(c, w, CheckExpectation(key), checked)
    ensures IsStep(c, checked, CreateJob(key, id, reference), created)
    ensures !Single(created.jobs) && Twice(created.jobs, PendingSlot(w, key))
  {
    CleanIffNoJob(c, w, key);
    assert FlowInv(c, w.log, w.synced, key, w.flows[key]);
    checked, created := CheckedThenCreated(c, w, key, id, reference);
  }

  lemma CheckedThenCreated(c: Cluster, w: World, key: string, id: nat, reference: Reference)
    returns (checked: World, created: World)
    requires CheckPasses(c, w, key) && IsSlot(c, PendingSlot(w, key)) && HasJob(w.jobs, PendingSlot(w, key))
             && id !in w.jobs
    ensures IsStep(c, w, CheckExpectation(key), checked)
    ensures IsStep(c, checked, CreateJob(key, id, reference), created)
    ensures !Single(created.jobs) && Twice(created.jobs, PendingSlot(w, key))
  {
    checked := AfterCheck(c, w, key);
    created := AfterCreate(c, checked, key, id, reference);
    var first :| first in w.jobs && w.jobs[first].slot == PendingSlot(w, key);
    assert first in created.jobs && id in created.jobs && created.jobs[id].slot == created.jobs[first].slot;
  }

  lemma RunSnoc(c: Cluster, ws: seq<World>, es: seq<Event>, e: Event, after: World)
    requires IsRun(c, ws, es) && IsStep(c, ws[|es|], e, after)
    ensures IsRun(c, ws + [after], es + [e])
  {
    var next, events := ws + [after], es + [e];
    forall i, j | 0 <= i && i + 1 == j < |next| ensures IsStep(c, next[i], events[i], next[j]) {
      if j < |ws| {
        assert IsStep(c, ws[i], es[i], ws[j]);
      }
    }
  }
}
