/**
 * A workflow that has prospects can be completed: a pass sends the copy it holds, or ends without an update
 * and the useful copy comes to the cache; then passes over the cached copy create, end and record the jobs
 * of one ready step after the other.
 */
module Rescue {
  import opened Prelude
  import opened Api
  import opened Jobs
  import opened Scheduling
  import opened Edits
  import opened Protocol
  import opened ProtocolInvariants
  import opened ProtocolTheorems
  import opened Paths
  import opened Progress
  import opened Jams
  import opened Completion
  import opened Prospects

  // ---- Undisturbed stretches within other paths ----

  lemma LeadsFarther(c: Cluster, key: string, w: World, v: World, after: World)
    requires Leads(c, w, v) && LeadsFresh(c, key, v, after)
    ensures Leads(c, w, after)
  {
    var ws, es :| CalmPath(c, ws, es) && ws[0] == w && ws[|es|] == v;
    var vs, fs :| FreshPath(c, key, vs, fs) && vs[0] == v && vs[|fs|] == after;
    PathConcat(c, ws, es, vs, fs);
    var next, events := ws[..|es|] + vs, es + fs;
    forall i | 0 <= i < |events| ensures Calm(events[i]) && Forward(next[i], events[i]) {
      assert i < |es| ==> next[i] == ws[i] && events[i] == es[i];
      assert i >= |es| ==> next[i] == vs[i - |es|] && events[i] == fs[i - |es|];
    }
    assert CalmPath(c, next, events) && next[0] == w && next[|events|] == after;
  }

  // ---- A pass over the cached workflow ----

  lemma BeginCached(c: Cluster, start: World, w: World, key: string) returns (begun: World)
    requires Runnable(c, key) && Leads(c, start, w) && Steady(c, w, key)
    ensures Leads(c, start, begun) && begun == SetFlow(w, key, AfterBegin(c[key], w.flows[key]))
    ensures Inv(c, begun) && IsBusy(c, begun, key)
            && WorkerOf(c, begun, key).copy.labels == ValidatedLabels(c[key], true)
  {
    FlowKnown(c, w, key);
    NotPausedLater(c, w.log, key, w.flows[key].cached);
    VerdictIff(c[key], w.flows[key].cached);
    begun := SetFlow(w, key, AfterBegin(c[key], w.flows[key]));
    LeadsOn(c, start, w, Begin(key), begun);
    BeginKept(c, w, key);
    FlowKnown(c, begun, key);
  }

  /** The job store is synced, no pass is under way, and the cached workflow has been defaulted and is useful. */
  ghost predicate Steady(c: Cluster, w: World, key: string) {
    && Inv(c, w) && key in c && w.synced && w.flows[key].worker.Idle?
    && UID_LABEL in w.flows[key].cached.labels
    && Useful(ChokedSteps(c, w, key), w.flows[key].cached)
  }

  /** What a pass that comes to its end leaves: more recorded in the cached workflow, if the two share their maps. */
  ghost predicate Rested(c: Cluster, key: string, before: World, after: World) {
    && after.jobs == before.jobs && after.store == before.store
    && after.synced == before.synced && after.listing == before.listing
    && key in c && key in before.flows && key in after.flows && after.flows[key].worker.Idle?
    && after.flows[key].seen == before.flows[key].seen
    && Extends(before.flows[key].cached, after.flows[key].cached)
  }

  /** A pass with a statuses map ends, and its update is accepted or not needed. */
  lemma PassToEnd(c: Cluster, start: World, w: World, key: string) returns (after: World)
    requires WellFormed(c) && Inv(c, start) && Leads(c, start, w) && IsBusy(c, w, key)
             && WorkerOf(c, w, key).copy.statuses.Some?
    ensures Leads(c, start, after) && Inv(c, after) && Rested(c, key, w, after) && after.flows[key].versions != []
    ensures var worker, newest := WorkerOf(c, w, key), Newest(after.flows[key]);
            && (worker.changed ==> newest.finished || Extends(worker.copy, newest))
            && (worker.complete && AllComplete(c[key].steps, Read(worker.copy.statuses)) ==> newest.finished)
  {
    var drained := DrainedPass(c, start, w, key);
    EndSends(c[key].steps, w.flows[key], drained.flows[key]);
    after := SetFlow(drained, key, AfterEnd(drained.flows[key], true));
    LeadsOn(c, start, drained, End(key, true), after);
    LeadsInv(c, start, after);
  }

  lemma EndSends(steps: Steps, flow: Flow, drained: Flow)
    requires FlowGoesOn(steps, flow, drained) && Shares(flow) && flow.worker.Busy? && flow.worker.copy.statuses.Some?
    requires drained.versions != [] && !drained.worker.copy.finished
    ensures var after := AfterEnd(drained, true);
            && after.versions != [] && Extends(flow.cached, after.cached)
            && (flow.worker.changed ==> Newest(after).finished || Extends(flow.worker.copy, Newest(after)))
            && (flow.worker.complete && AllComplete(steps, Read(flow.worker.copy.statuses)) ==> Newest(after).finished)
  {
  }

  lemma DrainedPass(c: Cluster, start: World, w: World, key: string) returns (drained: World)
    requires WellFormed(c) && Inv(c, start) && Leads(c, start, w) && IsBusy(c, w, key)
    ensures Leads(c, start, drained) && Keeps(c, key, w, drained) && Shares(w.flows[key])
    ensures drained.flows[key].worker.Idle? || CanEnd(c, drained, key)
    ensures drained.flows[key].versions != []
            && (drained.flows[key].worker.Busy? ==> !WorkerOf(c, drained, key).copy.finished)
  {
    LeadsInv(c, start, w);
    FlowKnown(c, w, key);
    StayFresh(c, key, w);
    drained := Drained(c, key, w, w);
    LeadsFarther(c, key, start, w, drained);
    LeadsInv(c, start, drained);
    FlowKnown(c, drained, key);
  }

  lemma Abandon(c: Cluster, w: World, key: string) returns (after: World)
    requires WellFormed(c) && Inv(c, w) && key in c
    ensures Leads(c, w, after) && Inv(c, after) && Rested(c, key, w, after)
    ensures after.flows[key].versions == w.flows[key].versions != []
  {
    FlowKnown(c, w, key);
    LeadsNowhere(c, w);
    after := w;
    if w.flows[key].worker.Busy? {
      after := AbandonPass(c, w, key);
    }
    LeadsInv(c, w, after);
  }

  lemma AbandonPass(c: Cluster, w: World, key: string) returns (after: World)
    requires WellFormed(c) && Inv(c, w) && IsBusy(c, w, key)
    ensures Leads(c, w, after) && Rested(c, key, w, after) && after.flows[key].versions == w.flows[key].versions
  {
    LeadsNowhere(c, w);
    after := DrainedPass(c, w, w, key);
    if after.flows[key].worker.Busy? {
      var drained := after;
      after := SetFlow(drained, key, AfterEnd(drained.flows[key], false));
      LeadsOn(c, w, drained, End(key, false), after);
    }
  }

  // ---- Supplying a finished job ----

  /** The slots of the jobs are as before, at most for one more. */
  ghost predicate SameSlotsBut(jobs: map<nat, ServerJob>, later: map<nat, ServerJob>, slot: Slot) {
    && (forall id :: id in jobs ==> id in later && later[id].slot == jobs[id].slot)
    && (forall id :: id in later && later[id].slot != slot ==> id in jobs)
  }

  /** A step that is worked on with one listed job does not come to be choked, and no other step does. */
  lemma ChokedAsBefore(c: Cluster, w: World, after: World, key: string, n: string, id: nat)
    requires key in c && w.synced && after.synced && SameSlotsBut(w.jobs, after.jobs, Slot(key, n))
    requires forall i :: i in after.store && i in after.jobs && after.jobs[i].slot != Slot(key, n) ==> i in w.store
    requires forall i :: i in after.store && i in after.jobs && after.jobs[i].slot == Slot(key, n) ==> i == id
    ensures ChokedSteps(c, after, key) <= ChokedSteps(c, w, key)
  {
    forall m | m in ChokedSteps(c, after, key) ensures m in ChokedSteps(c, w, key) {
      var i, j :| Doubled(after, Slot(key, m), i, j);
      assert m != n;
      assert Doubled(w, Slot(key, m), i, j);
    }
  }

  /** The job of the step that is listed, or one that may be. */
  lemma JobToUse(c: Cluster, w: World, slot: Slot) returns (id: nat)
    requires w.synced && HasJob(w.jobs, slot) && !Choked(w, slot)
    ensures id in w.jobs && w.jobs[id].slot == slot
    ensures forall i :: i in w.store && i in w.jobs && w.jobs[i].slot == slot ==> i == id
  {
    if HasStored(w.jobs, w.store, slot) {
      id :| id in w.store && id in w.jobs && w.jobs[id].slot == slot;
      forall i | i in w.store && i in w.jobs && w.jobs[i].slot == slot ensures i == id {
        assert i != id ==> Doubled(w, slot, i, id);
      }
    } else {
      id :| id in w.jobs && w.jobs[id].slot == slot;
    }
  }

  lemma EndJob(c: Cluster, start: World, w: World, id: nat) returns (ended: World)
    requires Leads(c, start, w) && id in w.jobs
    ensures Leads(c, start, ended) && id in ended.jobs && IsJobFinished(ended.jobs[id].body)
    ensures ended == w.(jobs := ended.jobs, log := ended.log)
    ensures ended.jobs.Keys == w.jobs.Keys && forall i :: i in w.jobs ==> ended.jobs[i].slot == w.jobs[i].slot
  {
    ended := w;
    if !IsJobFinished(w.jobs[id].body) {
      FinishStep(w, id, false);
      ended := AfterFinishJob(w, id, false);
      LeadsOn(c, start, w, FinishJob(id, false), ended);
    }
  }

  lemma Deliver(c: Cluster, start: World, w: World, id: nat) returns (after: World)
    requires Leads(c, start, w) && w.listing.Some? && id in w.jobs
    ensures Leads(c, start, after) && after == w.(store := w.store[id := w.jobs[id].body])
  {
    after := AfterStoreJob(w, id);
    LeadsOn(c, start, w, StoreJob(id), after);
  }

  /** The only listed job of the step is delivered after its end. */
  ghost predicate Supplied(c: Cluster, w: World, after: World, key: string, n: string, id: nat) {
    && key in c && after.flows == w.flows && after.synced == w.synced
    && (forall slot :: HasJob(after.jobs, slot) <==> HasJob(w.jobs, slot))
    && OnlyStored(after.jobs, after.store, Slot(key, n), id) && IsJobFinished(after.store[id])
    && ChokedSteps(c, after, key) <= ChokedSteps(c, w, key)
  }

  lemma Supply(c: Cluster, start: World, w: World, key: string, n: string) returns (after: World, id: nat)
    requires SlotsInv(w) && Leads(c, start, w) && w.synced && key in c
    requires HasJob(w.jobs, Slot(key, n)) && !Choked(w, Slot(key, n))
    ensures Leads(c, start, after) && Supplied(c, w, after, key, n, id)
  {
    id := JobToUse(c, w, Slot(key, n));
    var ended := EndJob(c, start, w, id);
    after := Deliver(c, start, ended, id);
    IsSupplied(c, w, ended, after, key, n, id);
  }

  lemma IsSupplied(c: Cluster, w: World, ended: World, after: World, key: string, n: string, id: nat)
    requires key in c && w.synced && SlotsInv(w) && ended == w.(jobs := ended.jobs, log := ended.log)
    requires ended.jobs.Keys == w.jobs.Keys && forall i :: i in w.jobs ==> ended.jobs[i].slot == w.jobs[i].slot
    requires id in w.jobs && w.jobs[id].slot == Slot(key, n) && IsJobFinished(ended.jobs[id].body)
    requires forall i :: i in w.store && i in w.jobs && w.jobs[i].slot == Slot(key, n) ==> i == id
    requires after == ended.(store := w.store[id := ended.jobs[id].body])
    ensures Supplied(c, w, after, key, n, id)
  {
    SameSlots(w.jobs, ended.jobs, w.store);
    ChokedAsBefore(c, w, after, key, n, id);
  }

  // ---- One pass ----

  /** The step is among those that the pass still comes to, and can be worked on. */
  ghost predicate ReadyInPass(c: Cluster, w: World, key: string, n: string) {
    && IsBusy(c, w, key) && WorkerOf(c, w, key).stage.Ranging? && n in WorkerOf(c, w, key).rest
    && IsSlot(c, Slot(key, n))
    && WorkerOf(c, w, key).copy.statuses.Some?
    && var statuses := Read(WorkerOf(c, w, key).copy.statuses);
       !Done(statuses, n) && DependenciesResolved(c[key].steps[n], statuses)
  }

  /** The one listed job of the step has finished, and the pass records that. */
  lemma Report(c: Cluster, start: World, w: World, key: string, n: string, id: nat)
    returns (after: World, status: StepStatus)
    requires WellFormed(c) && Inv(c, w) && Leads(c, start, w) && ReadyInPass(c, w, key, n)
    requires OnlyStored(w.jobs, w.store, Slot(key, n), id) && IsJobFinished(w.store[id])
    ensures Leads(c, start, after) && after == SetFlow(w, key, Written(w.flows[key], n, status)) && status.complete
  {
    status := ReportedStatus(c, w, key, n, id);
    after := SetFlow(w, key, Written(w.flows[key], n, status));
    LeadsOn(c, start, w, Examine(key, n, [id]), after);
  }

  lemma ReportedStatus(c: Cluster, w: World, key: string, n: string, id: nat) returns (status: StepStatus)
    requires WellFormed(c) && Inv(c, w) && ReadyInPass(c, w, key, n)
    requires OnlyStored(w.jobs, w.store, Slot(key, n), id) && IsJobFinished(w.store[id])
    ensures IsStep(c, w, Examine(key, n, [id]), SetFlow(w, key, Written(w.flows[key], n, status))) && status.complete
  {
    FlowKnown(c, w, key);
    OneListed(c, w, key, n, id);
    TurnReports(c, w, key, n, id);
    status := TurnOf(c, w, key, n, [id]).status;
    WriteStep(c, w, key, n, [id], status);
  }

  lemma WriteStep(c: Cluster, w: World, key: string, n: string, found: seq<nat>, status: StepStatus)
    requires CanExamine(c, w, key, n, found) && TurnOf(c, w, key, n, found) == Write(status)
    ensures IsStep(c, w, Examine(key, n, found), SetFlow(w, key, Written(w.flows[key], n, status)))
  {
  }

  lemma TurnReports(c: Cluster, w: World, key: string, n: string, id: nat)
    requires JobsInv(c, w.log, w.jobs) && StoreInv(w.jobs, w.store) && ReadyInPass(c, w, key, n)
             && CanExamine(c, w, key, n, [id])
    requires id in w.store && IsJobFinished(w.store[id])
    ensures TurnOf(c, w, key, n, [id]).Write? && TurnOf(c, w, key, n, [id]).status.complete
  {
    ListedHasReference(c, w, id);
    FinishedIsWritten(c, w, key, n, id);
    TurnOfFound(c, w, key, n, [id]);
  }

  lemma ListedHasReference(c: Cluster, w: World, id: nat)
    requires JobsInv(c, w.log, w.jobs) && StoreInv(w.jobs, w.store) && id in w.store
    ensures w.store[id].reference.Some?
  {
    assert StoredInv(w.jobs[id].body, w.store[id]);
    assert JobInv(c, w.log, w.jobs[id]);
  }

  lemma OneListed(c: Cluster, w: World, key: string, n: string, id: nat)
    requires WellFormed(c) && JobsInv(c, w.log, w.jobs) && StoreInv(w.jobs, w.store) && ReadyInPass(c, w, key, n)
    requires WorkerOf(c, w, key).copy.labels == ValidatedLabels(c[key], true)
             && OnlyStored(w.jobs, w.store, Slot(key, n), id)
    ensures CanExamine(c, w, key, n, [id])
  {
    ListedAreOfSlot(c, w, Slot(key, n));
    OnlyOneOfSlot(w.jobs, w.store, Slot(key, n), id);
  }

  lemma OnlyOneOfSlot(jobs: map<nat, ServerJob>, store: map<nat, Job>, slot: Slot, id: nat)
    requires store.Keys <= jobs.Keys && OnlyStored(jobs, store, slot, id)
    ensures Lists([id], set i | i in store && jobs[i].slot == slot)
  {
  }

  /** The step has no job, and the pass creates one. */
  lemma Launch(c: Cluster, start: World, w: World, key: string, n: string) returns (after: World, id: nat)
    requires WellFormed(c) && Inv(c, w) && Leads(c, start, w) && ReadyInPass(c, w, key, n)
             && !HasJob(w.jobs, Slot(key, n))
    ensures Leads(c, start, after) && id !in w.jobs && IsBusy(c, after, key)
    ensures id in after.jobs && after.jobs == w.jobs[id := after.jobs[id]] && after.jobs[id].slot == Slot(key, n)
    ensures after.store == w.store && after.synced == w.synced
    ensures WorkerOf(c, after, key).copy == WorkerOf(c, w, key).copy && after.flows[key].cached == w.flows[key].cached
  {
    FlowKnown(c, w, key);
    NoneListed(c, w, key, n);
    StayFresh(c, key, w);
    var checked := ComeToCreate(c, key, w, w, n);
    LeadsFarther(c, key, start, w, checked);
    after, id := CreateNext(c, start, checked, key);
  }

  lemma CreateNext(c: Cluster, start: World, w: World, key: string) returns (after: World, id: nat)
    requires Leads(c, start, w) && CanCreate(c, w, key)
    ensures Leads(c, start, after) && id !in w.jobs && after == AfterCreate(c, w, key, id, "")
  {
    id := FreeId(w.jobs.Keys);
    after := AfterCreate(c, w, key, id, "");
    LeadsOn(c, start, w, CreateJob(key, id, ""), after);
  }

  lemma NoneListed(c: Cluster, w: World, key: string, n: string)
    requires WellFormed(c) && Inv(c, w) && ReadyInPass(c, w, key, n) && !HasJob(w.jobs, Slot(key, n))
    requires WorkerOf(c, w, key).copy.labels == ValidatedLabels(c[key], true)
    ensures CanExamine(c, w, key, n, []) && TurnOf(c, w, key, n, []).Create? && Slot(key, n) !in w.expected
  {
    ListedAreOfSlot(c, w, Slot(key, n));
    assert Listed(c, w, WorkerOf(c, w, key).copy.labels, Slot(key, n)) == {};
  }

  /** A pass has left the cached workflow steady, with more recorded. */
  lemma StaysSteady(c: Cluster, w: World, after: World, key: string)
    requires Runnable(c, key) && Steady(c, w, key) && Inv(c, after) && after.synced && after.flows[key].worker.Idle?
    requires ChokedSteps(c, after, key) <= ChokedSteps(c, w, key)
    requires Extends(Started(w.flows[key].cached), after.flows[key].cached)
    ensures Steady(c, after, key)
  {
    LabelKeysDiffer();
  }

  /** The step can be worked on with the statuses of the cached workflow. */
  ghost predicate ReadyInCache(c: Cluster, w: World, key: string, n: string) {
    && key in c && key in w.flows && n in c[key].steps
    && var statuses := Read(w.flows[key].cached.statuses);
       !Done(statuses, n) && DependenciesResolved(c[key].steps[n], statuses)
  }

  ghost function Undone(c: Cluster, w: World, key: string): set<string>
    requires key in c && key in w.flows
  {
    NotDone(c[key].steps, Read(w.flows[key].cached.statuses))
  }

  /** All steps are complete, and the pass says so. */
  lemma FinishingPass(c: Cluster, start: World, w: World, key: string) returns (after: World)
    requires Runnable(c, key) && Inv(c, start) && Leads(c, start, w) && Steady(c, w, key)
    requires AllComplete(c[key].steps, Read(w.flows[key].cached.statuses))
    ensures Leads(c, start, after) && Inv(c, after) && key in after.flows && after.flows[key].versions != []
    ensures Newest(after.flows[key]).finished
  {
    var begun := BeginCached(c, start, w, key);
    after := PassToEnd(c, start, begun, key);
  }

  lemma ReportingPass(c: Cluster, start: World, w: World, key: string, n: string) returns (after: World)
    requires Runnable(c, key) && Inv(c, start) && Leads(c, start, w) && Steady(c, w, key)
    requires ReadyInCache(c, w, key, n) && HasJob(w.jobs, Slot(key, n))
    ensures Leads(c, start, after) && Steady(c, after, key)
    ensures Undone(c, after, key) < Undone(c, w, key)
    ensures NoJob(c[key].steps, after.jobs, key) <= NoJob(c[key].steps, w.jobs, key)
  {
    var supplied, id := Supply(c, start, w, key, n);
    LeadsInv(c, start, supplied);
    after := RecordingPass(c, start, supplied, key, n, id);
    assert n in Undone(c, w, key) && n !in Undone(c, after, key);
  }

  lemma RecordingPass(c: Cluster, start: World, w: World, key: string, n: string, id: nat) returns (after: World)
    requires Runnable(c, key) && Inv(c, start) && Leads(c, start, w) && Steady(c, w, key)
    requires ReadyInCache(c, w, key, n) && OnlyStored(w.jobs, w.store, Slot(key, n), id) && IsJobFinished(w.store[id])
    ensures Leads(c, start, after) && Steady(c, after, key) && after.jobs == w.jobs
    ensures Undone(c, after, key) <= Undone(c, w, key) && n !in Undone(c, after, key)
  {
    var begun := BeginCached(c, start, w, key);
    var examined, status := Report(c, start, begun, key, n, id);
    LeadsInv(c, start, examined);
    after := PassToEnd(c, start, examined, key);
    SameChoked(c, w, after, key);
    WrittenExtends(begun.flows[key], n, status);
    StaysSteady(c, w, after, key);
  }

  lemma WrittenExtends(flow: Flow, n: string, status: StepStatus)
    requires flow.worker.Busy? && flow.worker.attached && flow.worker.copy.statuses.Some? && status.complete
    ensures var after := Written(flow, n, status);
            after.worker.Busy? && Extends(flow.worker.copy, after.cached) && Done(Read(after.cached.statuses), n)
  {
  }

  lemma LaunchingPass(c: Cluster, start: World, w: World, key: string, n: string) returns (after: World)
    requires Runnable(c, key) && Inv(c, start) && Leads(c, start, w) && Steady(c, w, key)
    requires ReadyInCache(c, w, key, n) && !HasJob(w.jobs, Slot(key, n))
    ensures Leads(c, start, after) && Steady(c, after, key)
    ensures Undone(c, after, key) <= Undone(c, w, key)
    ensures NoJob(c[key].steps, after.jobs, key) < NoJob(c[key].steps, w.jobs, key)
  {
    var begun := BeginCached(c, start, w, key);
    var launched, id := Launch(c, start, begun, key, n);
    LeadsInv(c, start, launched);
    after := PassToEnd(c, start, launched, key);
    FirstJobOfStep(c, w, after, key, n, id);
    StaysSteady(c, w, after, key);
  }

  lemma FirstJobOfStep(c: Cluster, w: World, after: World, key: string, n: string, id: nat)
    requires SlotsInv(w) && w.synced && after.synced && key in c && n in c[key].steps && !HasJob(w.jobs, Slot(key, n))
    requires id !in w.jobs && id in after.jobs && after.jobs == w.jobs[id := after.jobs[id]]
             && after.jobs[id].slot == Slot(key, n)
    requires after.store == w.store
    ensures ChokedSteps(c, after, key) <= ChokedSteps(c, w, key)
    ensures NoJob(c[key].steps, after.jobs, key) < NoJob(c[key].steps, w.jobs, key)
  {
    JobAdded(w.jobs, w.store, id, after.jobs[id]);
    ChokedAsBefore(c, w, after, key, n, id);
    assert n in NoJob(c[key].steps, w.jobs, key) && n !in NoJob(c[key].steps, after.jobs, key);
  }

  // ---- Pass after pass ----

  lemma {:induction false} CompletesCached(c: Cluster, start: World, w: World, key: string) returns (after: World)
    requires Runnable(c, key) && Inv(c, start) && Leads(c, start, w) && Steady(c, w, key)
    ensures Leads(c, start, after) && key in after.flows && after.flows[key].versions != []
    ensures Newest(after.flows[key]).finished
    decreases |Undone(c, w, key)| + |NoJob(c[key].steps, w.jobs, key)|
  {
    if AllComplete(c[key].steps, Read(w.flows[key].cached.statuses)) {
      after := FinishingPass(c, start, w, key);
    } else {
      var n := NoDeadlock(WorkflowOf(c[key], w.flows[key].cached));
      var next;
      if HasJob(w.jobs, Slot(key, n)) {
        next := ReportingPass(c, start, w, key, n);
      } else {
        next := LaunchingPass(c, start, w, key, n);
      }
      Nearer(Undone(c, w, key), Undone(c, next, key), NoJob(c[key].steps, w.jobs, key),
        NoJob(c[key].steps, next.jobs, key));
      after := CompletesCached(c, start, next, key);
    }
  }

  lemma Nearer(a: set<string>, after: set<string>, b: set<string>, later: set<string>)
    requires after <= a && later <= b && (after < a || later < b)
    ensures |after| + |later| < |a| + |b|
  {
    SubsetSize(after, a);
    SubsetSize(later, b);
  }

  // ---- A useful copy in the cache ----

  /** No pass is under way, and a pass over the cached workflow can lead to completion. */
  ghost predicate AtHand(c: Cluster, w: World, key: string) {
    && Inv(c, w) && key in c && w.flows[key].worker.Idle?
    && Useful(ChokedSteps(c, w, key), w.flows[key].cached)
  }

  lemma Synchronized(c: Cluster, start: World, w: World, key: string) returns (after: World)
    requires WellFormed(c) && Inv(c, start) && Leads(c, start, w) && AtHand(c, w, key)
    ensures Leads(c, start, after) && AtHand(c, after, key) && after.synced
  {
    after := w;
    if !w.synced {
      StayFresh(c, key, w);
      after := BringUpToDate(c, key, w, w);
      LeadsFarther(c, key, start, w, after);
      LeadsInv(c, start, after);
      NoMoreChoked(c, w, after, key);
    }
  }

  lemma NoMoreChoked(c: Cluster, w: World, after: World, key: string)
    requires key in c && !w.synced && after.jobs == w.jobs
    ensures ChokedSteps(c, after, key) <= ChokedSteps(c, w, key)
  {
    forall m | m in ChokedSteps(c, after, key) ensures m in ChokedSteps(c, w, key) {
      var i, j :| Doubled(after, Slot(key, m), i, j);
      assert Doubled(w, Slot(key, m), i, j);
    }
  }

  /** A workflow that has not been defaulted gets its defaults, which come back with a new watch. */
  lemma Defaulted(c: Cluster, start: World, w: World, key: string) returns (after: World)
    requires Runnable(c, key) && Inv(c, start) && Leads(c, start, w) && AtHand(c, w, key) && w.synced
    ensures Leads(c, start, after) && Steady(c, after, key)
  {
    after := w;
    if UID_LABEL !in w.flows[key].cached.labels {
      FlowKnown(c, w, key);
      after := SetDefaults(c, start, w, key);
      LeadsInv(c, start, after);
      SameChoked(c, w, after, key);
    }
  }

  lemma SetDefaults(c: Cluster, start: World, w: World, key: string) returns (after: World)
    requires WellFormed(c) && Leads(c, start, w) && CanDefault(c, w, key) && w.flows[key].cached == Submitted(c[key])
    ensures Leads(c, start, after) && key in after.flows
    ensures after == SetFlow(w, key, after.flows[key]) && after.flows[key].worker.Idle?
    ensures UID_LABEL in after.flows[key].cached.labels
    ensures forall choked :: Useful(choked, w.flows[key].cached) ==> Useful(choked, after.flows[key].cached)
  {
    LabelKeysDiffer();
    var defaulted := SetFlow(w, key, AfterDefault(c[key], w.flows[key], true));
    LeadsOn(c, start, w, Default(key, true), defaulted);
    after := Relisted(c, start, defaulted, key);
  }

  lemma Relisted(c: Cluster, start: World, w: World, key: string) returns (after: World)
    requires Leads(c, start, w) && key in w.flows && w.flows[key].versions != []
    ensures Leads(c, start, after)
    ensures after == SetFlow(w, key, Refreshed(w.flows[key], |w.flows[key].versions| - 1))
  {
    assert CanRelist(w, key);
    after := Next(c, w, Relist(key));
    LeadsOn(c, start, w, Relist(key), after);
  }

  lemma CompletesAtHand(c: Cluster, start: World, w: World, key: string) returns (after: World)
    requires Runnable(c, key) && Inv(c, start) && Leads(c, start, w) && AtHand(c, w, key)
    ensures Leads(c, start, after) && key in after.flows && after.flows[key].versions != []
    ensures Newest(after.flows[key]).finished
  {
    var synchronized := Synchronized(c, start, w, key);
    var defaulted := Defaulted(c, start, synchronized, key);
    after := CompletesCached(c, start, defaulted, key);
  }

  // ---- A useful copy comes to the cache ----

  lemma ExtendsUseful(choked: set<string>, before: Snapshot, after: Snapshot)
    requires Useful(choked, before) && Extends(before, after)
    ensures Useful(choked, after)
  {
  }

  /** The pass under way ends without an update. */
  lemma CachedCompletes(c: Cluster, w: World, key: string) returns (after: World)
    requires Runnable(c, key) && Inv(c, w) && Useful(ChokedSteps(c, w, key), w.flows[key].cached)
    ensures Leads(c, w, after) && key in after.flows && after.flows[key].versions != []
            && Newest(after.flows[key]).finished
  {
    var rested := Abandon(c, w, key);
    SameChoked(c, w, rested, key);
    ExtendsUseful(ChokedSteps(c, w, key), w.flows[key].cached, rested.flows[key].cached);
    after := CompletesAtHand(c, w, rested, key);
  }

  /** The pass under way ends without an update, and a poll or a new watch brings the version. */
  lemma VersionCompletes(c: Cluster, w: World, key: string, version: nat) returns (after: World)
    requires Runnable(c, key) && Inv(c, w) && version < |w.flows[key].versions|
    requires w.flows[key].seen < version || version + 1 == |w.flows[key].versions|
    requires Useful(ChokedSteps(c, w, key), w.flows[key].versions[version])
    ensures Leads(c, w, after) && key in after.flows && after.flows[key].versions != []
            && Newest(after.flows[key]).finished
  {
    var rested := Abandon(c, w, key);
    var refreshed := SetFlow(rested, key, Refreshed(rested.flows[key], version));
    if w.flows[key].seen < version {
      LeadsOn(c, w, rested, Refresh(key, version), refreshed);
    } else {
      LeadsOn(c, w, rested, Relist(key), refreshed);
    }
    LeadsInv(c, w, refreshed);
    SameChoked(c, w, refreshed, key);
    after := CompletesAtHand(c, w, refreshed, key);
  }

  /** The pass under way has something to send, and its update is accepted. */
  lemma SendingCompletes(c: Cluster, start: World, w: World, key: string) returns (after: World)
    requires Runnable(c, key) && Inv(c, start) && Leads(c, start, w) && Inv(c, w) && IsBusy(c, w, key)
    requires WorkerOf(c, w, key).copy.statuses.Some?
    requires AllDoneOf(ChokedSteps(c, w, key), Read(WorkerOf(c, w, key).copy.statuses))
    requires var worker := WorkerOf(c, w, key);
             worker.changed || (worker.complete && AllComplete(c[key].steps, Read(worker.copy.statuses)))
    ensures Leads(c, start, after) && key in after.flows && after.flows[key].versions != []
            && Newest(after.flows[key]).finished
  {
    FlowKnown(c, w, key);
    after := PassToEnd(c, start, w, key);
    if !Newest(after.flows[key]).finished {
      var relisted := Relisted(c, start, after, key);
      LeadsInv(c, start, relisted);
      SameChoked(c, w, relisted, key);
      ExtendsUseful(ChokedSteps(c, w, key), WorkerOf(c, w, key).copy, Newest(after.flows[key]));
      after := CompletesAtHand(c, start, relisted, key);
    }
  }

  /** The pass under way comes to a step whose job can be delivered after its end. */
  lemma ReportingCompletes(c: Cluster, w: World, key: string, n: string) returns (after: World)
    requires Runnable(c, key) && Inv(c, w) && CanReport(c[key].steps, w.jobs, key, w.flows[key].worker, n)
    requires var worker := w.flows[key].worker;
             worker.copy.statuses.Some? && AllDoneOf(ChokedSteps(c, w, key), Read(worker.copy.statuses))
    ensures Leads(c, w, after) && key in after.flows && after.flows[key].versions != []
            && Newest(after.flows[key]).finished
  {
    FlowKnown(c, w, key);
    var ranging := ToRanging(c, w, key);
    var supplied, id := Supply(c, w, ranging, key, n);
    LeadsInv(c, w, supplied);
    var examined, status := Report(c, w, supplied, key, n, id);
    LeadsInv(c, w, examined);
    SameChoked(c, supplied, examined, key);
    WrittenIsToSend(supplied.flows[key], n, status, ChokedSteps(c, supplied, key));
    after := SendingCompletes(c, w, examined, key);
  }

  lemma ToRanging(c: Cluster, w: World, key: string) returns (after: World)
    requires WellFormed(c) && Inv(c, w) && IsBusy(c, w, key)
    ensures Leads(c, w, after) && Inv(c, after) && after.flows == AtStage(w, key, Ranging).flows
    ensures after.jobs == w.jobs && after.store == w.store && after.synced == w.synced
    ensures ChokedSteps(c, after, key) == ChokedSteps(c, w, key)
  {
    FlowKnown(c, w, key);
    StayFresh(c, key, w);
    after := LeaveStage(c, key, w, w);
    FreshLeads(c, key, w, after);
    LeadsInv(c, w, after);
    SameChoked(c, w, after, key);
  }

  lemma WrittenIsToSend(flow: Flow, n: string, status: StepStatus, choked: set<string>)
    requires flow.worker.Busy? && flow.worker.copy.statuses.Some? && status.complete
    requires AllDoneOf(choked, Read(flow.worker.copy.statuses))
    ensures var after := Written(flow, n, status);
            && after.worker.Busy? && after.worker.copy.statuses.Some? && after.worker.changed
            && AllDoneOf(choked, Read(after.worker.copy.statuses))
  {
  }

  // ---- The exact condition ----

  lemma PromisingCompletes(c: Cluster, w: World, key: string) returns (after: World)
    requires Runnable(c, key) && Inv(c, w) && Promising(c, w, key)
    ensures Leads(c, w, after) && key in after.flows && after.flows[key].versions != []
            && Newest(after.flows[key]).finished
  {
    var flow, choked := w.flows[key], ChokedSteps(c, w, key);
    if Newest(flow).finished {
      LeadsNowhere(c, w);
      after := w;
    } else if snap :| Candidate(flow, snap) && Useful(choked, snap) {
      after := CandidateCompletes(c, w, key, snap);
    } else if n :| CanReport(c[key].steps, w.jobs, key, flow.worker, n) {
      after := ReportingCompletes(c, w, key, n);
    } else {
      LeadsNowhere(c, w);
      after := SendingCompletes(c, w, w, key);
    }
  }

  lemma CandidateCompletes(c: Cluster, w: World, key: string, snap: Snapshot) returns (after: World)
    requires Runnable(c, key) && Inv(c, w) && w.flows[key].versions != []
    requires Candidate(w.flows[key], snap) && Useful(ChokedSteps(c, w, key), snap)
    ensures Leads(c, w, after) && key in after.flows && after.flows[key].versions != []
            && Newest(after.flows[key]).finished
  {
    var flow := w.flows[key];
    if snap == flow.cached {
      after := CachedCompletes(c, w, key);
    } else if snap == Newest(flow) {
      after := VersionCompletes(c, w, key, |flow.versions| - 1);
    } else {
      var i :| flow.seen < i < |flow.versions| && flow.versions[i] == snap;
      after := VersionCompletes(c, w, key, i);
    }
  }

  /**
   * In every reachable world an accepted, unpaused workflow of job steps can be completed if and only if it
   * is complete, or a copy that the next pass may start from has what defaulting makes and all choked steps
   * recorded, or the pass under way may still send such a copy.
   */
  lemma CompletesIff(c: Cluster, ws: seq<World>, es: seq<Event>, key: string)
    requires IsRun(c, ws, es) && Runnable(c, key) && c[key].steps != map[]
    ensures CanComplete(c, ws[|es|], key) <==> Promising(c, ws[|es|], key)
  {
    RunInv(c, ws, es, |es|);
    if Promising(c, ws[|es|], key) {
      var after := PromisingCompletes(c, ws[|es|], key);
    } else {
      HopelessCannotComplete(c, ws[|es|], key);
    }
  }

  /**
   * Whatever a run has done so far, if the newest version does not lack what defaulting makes and has the
   * choked steps recorded, the workflow can still be completed, in no time and without a restart.
   */
  lemma CompletionStaysReachable(c: Cluster, ws: seq<World>, es: seq<Event>, key: string) returns (after: World)
    requires IsRun(c, ws, es) && Runnable(c, key)
    requires key in ws[|es|].flows && ws[|es|].flows[key].versions != [] && !Poisoned(Newest(ws[|es|].flows[key]))
    requires AllDoneOf(ChokedSteps(c, ws[|es|], key), Read(Newest(ws[|es|].flows[key]).statuses))
    ensures Leads(c, ws[|es|], after) && key in after.flows && after.flows[key].versions != []
    ensures Newest(after.flows[key]).finished
  {
    RunInv(c, ws, es, |es|);
    assert Candidate(ws[|es|].flows[key], Newest(ws[|es|].flows[key]));
    after := PromisingCompletes(c, ws[|es|], key);
  }

  /** No step is choked where none has two jobs. */
  lemma SingleIsNotChoked(c: Cluster, w: World, key: string)
    requires key in c && Single(w.jobs)
    ensures ChokedSteps(c, w, key) == {}
  {
  }
}
