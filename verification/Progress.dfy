/**
 * Progress of a workflow in the protocol: as long as its passes read the newest version, every event that
 * does something for it brings it nearer to completion, and none takes it further away.
 */
module Progress {
  import opened Prelude
  import opened Api
  import opened Jobs
  import opened Scheduling
  import opened Protocol
  import opened ProtocolInvariants
  import opened ProtocolTheorems

  // ---- Passes over the newest version ----

  /** The copy has the UID label, so it is not defaulted again, but lacks what defaulting makes. */
  predicate Poisoned(snap: Snapshot) {
    UID_LABEL in snap.labels && (!snap.hasSelector || snap.statuses.None?)
  }

  predicate SeesNewest(flow: Flow) {
    flow.seen + 1 == |flow.versions|
  }

  /**
   * The event does not disturb the workflow: nothing restarts, its passes start from the newest version and
   * are not refreshed on the way, and its updates are accepted.
   */
  predicate Fresh(w: World, e: Event, key: string) {
    && !e.Restart?
    && (e.Refresh? && e.key == key && key in w.flows ==>
          w.flows[key].worker.Idle? && e.version + 1 == |w.flows[key].versions|)
    && (e.Relist? && e.key == key && key in w.flows ==> w.flows[key].worker.Idle?)
    && ((e.Default? || e.Reject? || e.Begin?) && e.key == key && key in w.flows ==> SeesNewest(w.flows[key]))
    && ((e.Default? || e.Reject? || e.End?) && e.key == key ==> e.accepted)
  }

  /** What holds of a workflow as long as nothing disturbs it. */
  ghost predicate FreshFlow(flow: Flow) {
    && flow.seen < |flow.versions| && !Poisoned(Newest(flow))
    && (flow.worker.Idle? && SeesNewest(flow) ==> flow.cached == Newest(flow))
    && (flow.worker.Busy? ==>
          && SeesNewest(flow) && flow.worker.attached && flow.cached == flow.worker.copy
          && flow.worker.copy.hasSelector && flow.worker.copy.statuses.Some? && !Newest(flow).finished
          && (!flow.worker.changed ==> flow.worker.copy == Newest(flow)))
  }

  /** The statuses that the pass under way, or the next one, starts from. */
  function Current(flow: Flow): Statuses
    requires flow.versions != []
  {
    if flow.worker.Busy? then Read(flow.worker.copy.statuses) else Read(Newest(flow).statuses)
  }

  /** Between two states of the workflow nothing recorded is lost. */
  ghost predicate Ahead(before: Flow, after: Flow) {
    && before.versions != [] && after.versions != []
    && Current(before).Keys <= Current(after).Keys
    && (forall n :: Done(Current(before), n) ==> Done(Current(after), n))
    && (Newest(before).finished ==> Newest(after).finished)
  }

  lemma FlowStep(c: Cluster, w: World, e: Event, key: string)
    requires WellFormed(c) && Enabled(c, w, e) && Fresh(w, e, key) && key in c && key in w.flows
             && FreshFlow(w.flows[key])
    requires FlowInv(c, w.log, w.synced, key, w.flows[key])
    ensures key in Next(c, w, e).flows && FreshFlow(Next(c, w, e).flows[key])
            && Ahead(w.flows[key], Next(c, w, e).flows[key])
  {
    if (e.Default? || e.Reject? || e.Begin?) && e.key == key {
      StartFlow(c, w, e, key);
    } else if e.Examine? && e.key == key {
      TurnFlow(w.flows[key], e.step, TurnOf(c, w, key, e.step, e.found));
    } else if (e.End? || e.Refresh? || e.Relist?) && e.key == key {
      TurnOver(c, w, e, key);
    } else {
      OtherFlow(c, w, e, key);
    }
  }

  lemma TurnOver(c: Cluster, w: World, e: Event, key: string)
    requires Enabled(c, w, e) && Fresh(w, e, key) && key in w.flows && FreshFlow(w.flows[key])
    requires (e.End? || e.Refresh? || e.Relist?) && e.key == key
    ensures key in Next(c, w, e).flows && FreshFlow(Next(c, w, e).flows[key])
            && Ahead(w.flows[key], Next(c, w, e).flows[key])
  {
  }

  lemma StartFlow(c: Cluster, w: World, e: Event, key: string)
    requires WellFormed(c) && Enabled(c, w, e) && Fresh(w, e, key) && key in c && key in w.flows
             && FreshFlow(w.flows[key])
    requires (e.Default? || e.Reject? || e.Begin?) && e.key == key && SnapInv(c, w.log, key, w.flows[key].cached)
    ensures key in Next(c, w, e).flows && FreshFlow(Next(c, w, e).flows[key])
            && Ahead(w.flows[key], Next(c, w, e).flows[key])
  {
    LabelKeysDiffer();
    FormatBoolDiffers();
    if e.Reject? && VALID_LABEL in w.flows[key].cached.labels {
      assert Labelled(w.flows[key].cached, false) == w.flows[key].cached;
    }
  }

  lemma TurnFlow(flow: Flow, step: string, turn: Action)
    requires FreshFlow(flow) && flow.worker.Busy? && (turn.Write? ==> !Done(Read(flow.worker.copy.statuses), step))
    ensures FreshFlow(AfterTurn(flow, step, turn)) && Ahead(flow, AfterTurn(flow, step, turn))
  {
  }

  lemma OtherFlow(c: Cluster, w: World, e: Event, key: string)
    requires Enabled(c, w, e) && Fresh(w, e, key) && key in w.flows && FreshFlow(w.flows[key])
    requires e.Default? || e.Reject? || e.Begin? || e.Examine? || e.End? || e.Refresh? || e.Relist? ==> e.key != key
    ensures key in Next(c, w, e).flows && FreshFlow(Next(c, w, e).flows[key])
            && Ahead(w.flows[key], Next(c, w, e).flows[key])
  {
  }

  // ---- The distance to completion ----

  /** The step has a job, a stored job, a finished job, a stored job that is finished there. */
  ghost predicate HasFinished(jobs: map<nat, ServerJob>, slot: Slot) {
    exists id :: id in jobs && jobs[id].slot == slot && IsJobFinished(jobs[id].body)
  }

  ghost predicate HasStoredFinished(jobs: map<nat, ServerJob>, store: map<nat, Job>, slot: Slot) {
    exists id :: id in store && id in jobs && jobs[id].slot == slot && IsJobFinished(store[id])
  }

  ghost function NoJob(steps: Steps, jobs: map<nat, ServerJob>, key: string): set<string> {
    set n | n in steps && !HasJob(jobs, Slot(key, n))
  }

  ghost function NotStored(steps: Steps, jobs: map<nat, ServerJob>, store: map<nat, Job>, key: string): set<string> {
    set n | n in steps && !HasStored(jobs, store, Slot(key, n))
  }

  ghost function NotEnded(steps: Steps, jobs: map<nat, ServerJob>, key: string): set<string> {
    set n | n in steps && !HasFinished(jobs, Slot(key, n))
  }

  ghost function EndNotStored(steps: Steps, jobs: map<nat, ServerJob>, store: map<nat, Job>, key: string): set<string> {
    set n | n in steps && !HasStoredFinished(jobs, store, Slot(key, n))
  }

  ghost function NoStatus(steps: Steps, statuses: Statuses): set<string> {
    set n | n in steps && n !in statuses
  }

  ghost function NotDone(steps: Steps, statuses: Statuses): set<string> {
    set n | n in steps && !Done(statuses, n)
  }

  /** What each step still lacks: a job, its delivery, its end, the delivery of the end, a status, completion. */
  ghost function Lacking(steps: Steps, jobs: map<nat, ServerJob>, store: map<nat, Job>, key: string,
      statuses: Statuses): seq<set<string>> {
    [NoJob(steps, jobs, key), NotStored(steps, jobs, store, key), NotEnded(steps, jobs, key),
     EndNotStored(steps, jobs, store, key), NoStatus(steps, statuses), NotDone(steps, statuses)]
  }

  ghost function LackingIn(c: Cluster, w: World, key: string): seq<set<string>>
    requires key in c && key in w.flows && w.flows[key].versions != []
    ensures |LackingIn(c, w, key)| == 6
  {
    Lacking(c[key].steps, w.jobs, w.store, key, Current(w.flows[key]))
  }

  ghost function Sum(l: seq<set<string>>): nat
    requires |l| == 6
  {
    |l[0]| + |l[1]| + |l[2]| + |l[3]| + |l[4]| + |l[5]|
  }

  ghost function Distance(c: Cluster, w: World, key: string): nat
    requires key in c && key in w.flows && w.flows[key].versions != []
  {
    Sum(LackingIn(c, w, key)) + if Newest(w.flows[key]).finished then 0 else 1
  }

  lemma DistanceBounded(c: Cluster, w: World, key: string)
    requires key in c && key in w.flows && w.flows[key].versions != []
    ensures Distance(c, w, key) <= 6 * |c[key].steps| + 1
  {
    forall i | 0 <= i < 6 ensures |LackingIn(c, w, key)[i]| <= |c[key].steps| {
      SubsetSize(LackingIn(c, w, key)[i], c[key].steps.Keys);
    }
  }

  ghost predicate NoMore(before: seq<set<string>>, after: seq<set<string>>) {
    |before| == 6 && |after| == 6 && forall i :: 0 <= i < 6 ==> after[i] <= before[i]
  }

  lemma SumFalls(before: seq<set<string>>, after: seq<set<string>>)
    requires NoMore(before, after)
    ensures Sum(after) <= Sum(before)
    ensures after != before ==> Sum(after) < Sum(before)
  {
    forall i | 0 <= i < 6 ensures |after[i]| <= |before[i]| && (after[i] != before[i] ==> |after[i]| < |before[i]|) {
      SubsetSize(after[i], before[i]);
    }
  }

  /** Jobs and their copies only grow and finish. */
  ghost predicate JobsAhead(jobs: map<nat, ServerJob>, store: map<nat, Job>, laterJobs: map<nat, ServerJob>,
      laterStore: map<nat, Job>) {
    && (forall id :: id in jobs ==> id in laterJobs && laterJobs[id].slot == jobs[id].slot
                                    && (IsJobFinished(jobs[id].body) ==> IsJobFinished(laterJobs[id].body)))
    && (forall id :: id in store ==> id in laterStore && (IsJobFinished(store[id]) ==> IsJobFinished(laterStore[id])))
  }

  lemma JobsStep(c: Cluster, w: World, e: Event)
    requires StoreInv(w.jobs, w.store) && Enabled(c, w, e) && !e.Restart?
    ensures JobsAhead(w.jobs, w.store, Next(c, w, e).jobs, Next(c, w, e).store)
  {
    if e.FinishJob? {
      FinishStep(w, e.id, e.failed);
    } else if e.StoreJob? {
      assert e.id in w.store ==> StoredInv(w.jobs[e.id].body, w.store[e.id]);
    } else if !e.CreateJob? {
      SameJobs(c, w, e);
    }
  }

  lemma SameJobs(c: Cluster, w: World, e: Event)
    requires Enabled(c, w, e) && !e.Restart? && !e.FinishJob? && !e.StoreJob? && !e.CreateJob?
    ensures Next(c, w, e).jobs == w.jobs && Next(c, w, e).store == w.store
  {
  }

  lemma FinishStep(w: World, id: nat, failed: bool)
    requires CanFinishJob(w, id)
    ensures var after := AfterFinishJob(w, id, failed);
            JobsAhead(w.jobs, w.store, after.jobs, after.store) && IsJobFinished(after.jobs[id].body)
  {
    var conditions := AfterFinishJob(w, id, failed).jobs[id].body.conditions;
    assert conditions[|conditions| - 1] in conditions;
  }

  lemma NothingLost(steps: Steps, jobs: map<nat, ServerJob>, store: map<nat, Job>, laterJobs: map<nat, ServerJob>,
      laterStore: map<nat, Job>,
                    key: string, statuses: Statuses, laterStatuses: Statuses)
    requires JobsAhead(jobs, store, laterJobs, laterStore) && statuses.Keys <= laterStatuses.Keys
    requires forall n :: Done(statuses, n) ==> Done(laterStatuses, n)
    ensures NoMore(Lacking(steps, jobs, store, key, statuses),
            Lacking(steps, laterJobs, laterStore, key, laterStatuses))
  {
    forall slot: Slot ensures HasJob(jobs, slot) ==> HasJob(laterJobs, slot) {
      if id :| id in jobs && jobs[id].slot == slot {
        assert id in laterJobs;
      }
    }
    forall slot: Slot ensures HasStored(jobs, store, slot) ==> HasStored(laterJobs, laterStore, slot) {
      if id :| id in store && id in jobs && jobs[id].slot == slot {
        assert id in laterStore && id in laterJobs;
      }
    }
    forall slot: Slot ensures HasFinished(jobs, slot) ==> HasFinished(laterJobs, slot) {
      if id :| id in jobs && jobs[id].slot == slot && IsJobFinished(jobs[id].body) {
        assert id in laterJobs;
      }
    }
    forall slot: Slot ensures HasStoredFinished(jobs, store, slot) ==> HasStoredFinished(laterJobs, laterStore, slot) {
      if id :| id in store && id in jobs && jobs[id].slot == slot && IsJobFinished(store[id]) {
        assert id in laterStore && id in laterJobs;
      }
    }
  }

  /** What stays true of a workflow that nothing disturbs. */
  ghost predicate Healthy(c: Cluster, w: World, key: string) {
    Inv(c, w) && key in c && FreshFlow(w.flows[key])
  }

  /** No undisturbed event takes the workflow further away from completion. */
  lemma NeverFarther(c: Cluster, w: World, e: Event, key: string)
    requires WellFormed(c) && Healthy(c, w, key) && Enabled(c, w, e) && Fresh(w, e, key)
    ensures Healthy(c, Next(c, w, e), key)
    ensures NoMore(LackingIn(c, w, key), LackingIn(c, Next(c, w, e), key))
    ensures Distance(c, Next(c, w, e), key) <= Distance(c, w, key)
  {
    var after := Next(c, w, e);
    StepKept(c, w, e);
    assert FlowInv(c, w.log, w.synced, key, w.flows[key]);
    FlowStep(c, w, e, key);
    JobsStep(c, w, e);
    NothingLost(c[key].steps, w.jobs, w.store, after.jobs, after.store, key, Current(w.flows[key]),
      Current(after.flows[key]));
    SumFalls(LackingIn(c, w, key), LackingIn(c, after, key));
  }

  // ---- Events that do something ----

  /**
   * The event does something for the workflow: it creates, ends or delivers a job of it, records a status,
   * or ends a pass that has found all steps complete.
   */
  ghost predicate Effective(c: Cluster, w: World, e: Event, key: string)
    requires Enabled(c, w, e)
  {
    match e
    case CreateJob(k, _, _) => k == key
    case FinishJob(id, _) => w.jobs[id].slot.key == key
    case StoreJob(id) => w.jobs[id].slot.key == key && !(id in w.store && w.store[id] == w.jobs[id].body)
    case Examine(k, step, found) => k == key && TurnOf(c, w, key, step, found).Write?
    case End(k, _) => k == key && w.flows[key].worker.complete
    case _ => false
  }

  /** An event that does something brings the workflow nearer to completion, if no step has two jobs after it. */
  lemma EffectiveEventFalls(c: Cluster, w: World, e: Event, key: string)
    requires WellFormed(c) && Healthy(c, w, key) && Enabled(c, w, e) && Fresh(w, e, key)
    requires Effective(c, w, e, key) && Single(Next(c, w, e).jobs)
    ensures key in Next(c, w, e).flows && Next(c, w, e).flows[key].versions != []
    ensures Distance(c, Next(c, w, e), key) < Distance(c, w, key)
  {
    NeverFarther(c, w, e, key);
    SumFalls(LackingIn(c, w, key), LackingIn(c, Next(c, w, e), key));
    if e.End? {
      EndFinishes(w.flows[key]);
    } else {
      SomethingGained(c, w, e, key);
    }
  }

  lemma EndFinishes(flow: Flow)
    requires FreshFlow(flow) && flow.worker.Busy? && flow.worker.complete
    ensures !Newest(flow).finished && Newest(AfterEnd(flow, true)).finished
  {
  }

  lemma SomethingGained(c: Cluster, w: World, e: Event, key: string)
    requires WellFormed(c) && Healthy(c, w, key) && Enabled(c, w, e) && Effective(c, w, e, key) && !e.End?
    requires Single(Next(c, w, e).jobs) && key in Next(c, w, e).flows && Next(c, w, e).flows[key].versions != []
    ensures LackingIn(c, Next(c, w, e), key) != LackingIn(c, w, key)
  {
    if e.Examine? {
      WriteGains(c, w, key, e.step, e.found);
      Differs(LackingIn(c, w, key), LackingIn(c, Next(c, w, e), key), 4, 5);
    } else {
      JobGained(c, w, e, key);
    }
  }

  lemma Differs(before: seq<set<string>>, after: seq<set<string>>, i: nat, j: nat)
    requires i < |before| == |after| && j < |before| && (before[i] != after[i] || before[j] != after[j])
    ensures before != after
  {
  }

  lemma JobGained(c: Cluster, w: World, e: Event, key: string)
    requires Healthy(c, w, key) && Enabled(c, w, e) && Effective(c, w, e, key)
             && (e.CreateJob? || e.FinishJob? || e.StoreJob?)
    requires Single(Next(c, w, e).jobs) && key in Next(c, w, e).flows && Next(c, w, e).flows[key].versions != []
    ensures LackingIn(c, Next(c, w, e), key) != LackingIn(c, w, key)
  {
    if e.CreateJob? {
      CreateNearer(c, w, key, e.id, e.reference);
    } else if e.FinishJob? {
      FinishNearer(c, w, key, e.id, e.failed);
    } else {
      StoreNearer(c, w, key, e.id);
    }
  }

  lemma CreateNearer(c: Cluster, w: World, key: string, id: nat, reference: Reference)
    requires key in c && CanCreate(c, w, key) && w.flows[key].versions != [] && id !in w.jobs
    requires Single(AfterCreate(c, w, key, id, reference).jobs)
    ensures LackingIn(c, AfterCreate(c, w, key, id, reference), key) != LackingIn(c, w, key)
  {
    CreateGains(c, w, key, id, reference);
    Differs(LackingIn(c, w, key), LackingIn(c, AfterCreate(c, w, key, id, reference), key), 0, 0);
  }

  lemma FinishNearer(c: Cluster, w: World, key: string, id: nat, failed: bool)
    requires key in c && key in w.flows && w.flows[key].versions != [] && JobsInv(c, w.log, w.jobs)
    requires CanFinishJob(w, id) && w.jobs[id].slot.key == key && Single(AfterFinishJob(w, id, failed).jobs)
    ensures LackingIn(c, AfterFinishJob(w, id, failed), key) != LackingIn(c, w, key)
  {
    FinishGains(c, w, key, id, failed);
    Differs(LackingIn(c, w, key), LackingIn(c, AfterFinishJob(w, id, failed), key), 2, 2);
  }

  lemma StoreNearer(c: Cluster, w: World, key: string, id: nat)
    requires key in c && key in w.flows && w.flows[key].versions != [] && JobsInv(c, w.log, w.jobs)
             && StoreInv(w.jobs, w.store)
    requires CanStoreJob(w, id) && w.jobs[id].slot.key == key && Single(w.jobs)
    requires !(id in w.store && w.store[id] == w.jobs[id].body)
    ensures LackingIn(c, AfterStoreJob(w, id), key) != LackingIn(c, w, key)
  {
    StoreGains(c, w, key, id);
    Differs(LackingIn(c, w, key), LackingIn(c, AfterStoreJob(w, id), key), 1, 3);
  }

  lemma CreateGains(c: Cluster, w: World, key: string, id: nat, reference: Reference)
    requires key in c && CanCreate(c, w, key) && id !in w.jobs && Single(AfterCreate(c, w, key, id, reference).jobs)
    ensures NoJob(c[key].steps, AfterCreate(c, w, key, id, reference).jobs, key) != NoJob(c[key].steps, w.jobs, key)
  {
    var slot := PendingSlot(w, key);
    FirstJobGains(c[key].steps, w.jobs, id, AfterCreate(c, w, key, id, reference).jobs[id], slot);
  }

  lemma FirstJobGains(steps: Steps, jobs: map<nat, ServerJob>, id: nat, job: ServerJob, slot: Slot)
    requires id !in jobs && Single(jobs[id := job]) && job.slot == slot && slot.step in steps
    ensures NoJob(steps, jobs[id := job], slot.key) != NoJob(steps, jobs, slot.key)
  {
    var after := jobs[id := job];
    assert after[id].slot == slot && HasJob(after, slot);
    assert forall i :: i in jobs ==> i != id && after[i] == jobs[i];
    assert slot.step in NoJob(steps, jobs, slot.key) && slot.step !in NoJob(steps, after, slot.key);
  }

  lemma FinishGains(c: Cluster, w: World, key: string, id: nat, failed: bool)
    requires JobsInv(c, w.log, w.jobs) && key in c && CanFinishJob(w, id) && w.jobs[id].slot.key == key
             && Single(AfterFinishJob(w, id, failed).jobs)
    ensures NotEnded(c[key].steps, AfterFinishJob(w, id, failed).jobs, key) != NotEnded(c[key].steps, w.jobs, key)
  {
    assert JobInv(c, w.log, w.jobs[id]);
    FinishStep(w, id, failed);
    FirstEndGains(c[key].steps, w.jobs, id, AfterFinishJob(w, id, failed).jobs[id]);
  }

  lemma FirstEndGains(steps: Steps, jobs: map<nat, ServerJob>, id: nat, job: ServerJob)
    requires id in jobs && Single(jobs[id := job]) && job.slot == jobs[id].slot && job.slot.step in steps
    requires IsJobFinished(job.body) && !IsJobFinished(jobs[id].body)
    ensures NotEnded(steps, jobs[id := job], job.slot.key) != NotEnded(steps, jobs, job.slot.key)
  {
    var after, slot := jobs[id := job], job.slot;
    assert after[id].slot == slot && HasFinished(after, slot);
    assert forall i :: i in jobs && jobs[i].slot == slot ==> after[i].slot == after[id].slot && i == id;
    assert slot.step in NotEnded(steps, jobs, slot.key) && slot.step !in NotEnded(steps, after, slot.key);
  }

  lemma StoreGains(c: Cluster, w: World, key: string, id: nat)
    requires JobsInv(c, w.log, w.jobs) && StoreInv(w.jobs, w.store) && key in c && CanStoreJob(w, id)
             && w.jobs[id].slot.key == key
    requires Single(w.jobs) && !(id in w.store && w.store[id] == w.jobs[id].body)
    ensures var store, steps := AfterStoreJob(w, id).store, c[key].steps;
            || NotStored(steps, w.jobs, store, key) != NotStored(steps, w.jobs, w.store, key)
            || EndNotStored(steps, w.jobs, store, key) != EndNotStored(steps, w.jobs, w.store, key)
  {
    assert JobInv(c, w.log, w.jobs[id]);
    assert id in w.store ==> StoredInv(w.jobs[id].body, w.store[id]);
    DeliveryGains(c[key].steps, w.jobs, w.store, id);
  }

  lemma DeliveryGains(steps: Steps, jobs: map<nat, ServerJob>, store: map<nat, Job>, id: nat)
    requires id in jobs && Single(jobs) && jobs[id].slot.step in steps
    requires id in store ==> IsJobFinished(jobs[id].body) && !IsJobFinished(store[id])
    ensures var later, key := store[id := jobs[id].body], jobs[id].slot.key;
            || NotStored(steps, jobs, later, key) != NotStored(steps, jobs, store, key)
            || EndNotStored(steps, jobs, later, key) != EndNotStored(steps, jobs, store, key)
  {
    var later, slot := store[id := jobs[id].body], jobs[id].slot;
    assert forall i :: i in jobs && jobs[i].slot == slot ==> i == id;
    if id in store {
      assert HasStoredFinished(jobs, later, slot) && !HasStoredFinished(jobs, store, slot);
      assert slot.step in EndNotStored(steps, jobs, store, slot.key)
        && slot.step !in EndNotStored(steps, jobs, later, slot.key);
    } else {
      assert HasStored(jobs, later, slot) && !HasStored(jobs, store, slot);
      assert slot.step in NotStored(steps, jobs, store, slot.key)
        && slot.step !in NotStored(steps, jobs, later, slot.key);
    }
  }

  lemma WriteGains(c: Cluster, w: World, key: string, step: string, found: seq<nat>)
    requires key in c && key in w.flows && FreshFlow(w.flows[key]) && CanExamine(c, w, key, step, found)
             && TurnOf(c, w, key, step, found).Write?
    ensures key in AfterExamine(c, w, key, step, found).flows
            && AfterExamine(c, w, key, step, found).flows[key].versions != []
    ensures var steps, before, later := c[key].steps, Current(w.flows[key]),
            Current(AfterExamine(c, w, key, step, found).flows[key]);
            NoStatus(steps, later) != NoStatus(steps, before) || NotDone(steps, later) != NotDone(steps, before)
  {
    var before, later := Current(w.flows[key]), Current(AfterExamine(c, w, key, step, found).flows[key]);
    StatusGains(c[key].steps, before, step, TurnOf(c, w, key, step, found).status);
  }

  lemma StatusGains(steps: Steps, statuses: Statuses, step: string, status: StepStatus)
    requires step in steps && !Done(statuses, step) && (step in statuses ==> status.complete)
    ensures || NoStatus(steps, statuses[step := status]) != NoStatus(steps, statuses)
            || NotDone(steps, statuses[step := status]) != NotDone(steps, statuses)
  {
    var later := statuses[step := status];
    if step in statuses {
      assert step in NotDone(steps, statuses) && step !in NotDone(steps, later);
    } else {
      assert step in NoStatus(steps, statuses) && step !in NoStatus(steps, later);
    }
  }

  // ---- Runs ----

  /** Nothing in the run disturbs the workflow. */
  ghost predicate FreshRun(c: Cluster, ws: seq<World>, es: seq<Event>, key: string) {
    IsRun(c, ws, es) && key in c && forall i :: 0 <= i < |es| ==> Fresh(ws[i], es[i], key)
  }

  lemma InitialHealthy(c: Cluster, w: World, key: string)
    requires WellFormed(c) && Initial(c, w) && key in c
    ensures Healthy(c, w, key)
  {
    InitialInv(c, w);
    assert w.flows[key] == InitialFlow(c[key]);
  }

  /** Jobs are never taken back. */
  lemma SingleBefore(c: Cluster, w: World, e: Event)
    requires StoreInv(w.jobs, w.store) && Enabled(c, w, e) && Single(Next(c, w, e).jobs)
    ensures Single(w.jobs)
  {
    if !e.Restart? {
      JobsStep(c, w, e);
    }
  }

  /** How many of the first `i` events do something for the workflow. */
  ghost function Effects(c: Cluster, ws: seq<World>, es: seq<Event>, key: string, i: nat): nat
    requires IsRun(c, ws, es) && i <= |es|
  {
    if i == 0 then 0
    else
      assert IsStep(c, ws[i - 1], es[i - 1], ws[i]);
      Effects(c, ws, es, key, i - 1) + if Effective(c, ws[i - 1], es[i - 1], key) then 1 else 0
  }

  lemma {:induction false} RunFalls(c: Cluster, ws: seq<World>, es: seq<Event>, key: string, i: nat)
    requires FreshRun(c, ws, es, key) && i <= |es| && Single(ws[i].jobs)
    ensures Healthy(c, ws[i], key)
    ensures Distance(c, ws[i], key) + Effects(c, ws, es, key, i) <= 6 * |c[key].steps| + 1
  {
    if i == 0 {
      InitialHealthy(c, ws[0], key);
      DistanceBounded(c, ws[0], key);
    } else {
      RunInv(c, ws, es, i - 1);
      assert IsStep(c, ws[i - 1], es[i - 1], ws[i]);
      SingleBefore(c, ws[i - 1], es[i - 1]);
      RunFalls(c, ws, es, key, i - 1);
      NeverFarther(c, ws[i - 1], es[i - 1], key);
      if Effective(c, ws[i - 1], es[i - 1], key) {
        EffectiveEventFalls(c, ws[i - 1], es[i - 1], key);
      }
    }
  }
}
