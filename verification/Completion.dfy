/**
 * Until an accepted workflow of job steps is complete, undisturbed events lead to one that brings it nearer
 * to completion; so an undisturbed run that goes on as long as it can completes the workflow.
 */
module Completion {
  import opened Prelude
  import opened Api
  import opened Jobs
  import opened Scheduling
  import opened Edits
  import opened Protocol
  import opened ProtocolInvariants
  import opened ProtocolTheorems
  import opened Paths
  import opened Progress

  // ---- Undisturbed paths ----

  ghost predicate FreshPath(c: Cluster, key: string, ws: seq<World>, es: seq<Event>) {
    CalmPath(c, ws, es) && forall i :: 0 <= i < |es| ==> Fresh(ws[i], es[i], key)
  }

  /** The one world can become the other without disturbing the workflow. */
  ghost predicate LeadsFresh(c: Cluster, key: string, w: World, after: World) {
    exists ws, es :: FreshPath(c, key, ws, es) && ws[0] == w && ws[|es|] == after
  }

  lemma StayFresh(c: Cluster, key: string, w: World)
    ensures LeadsFresh(c, key, w, w)
  {
    var es: seq<Event> := [];
    assert FreshPath(c, key, [w], es) && [w][0] == w && [w][|es|] == w;
  }

  lemma OnFresh(c: Cluster, key: string, w: World, now: World, e: Event, after: World)
    requires LeadsFresh(c, key, w, now) && IsStep(c, now, e, after) && Calm(e) && Forward(now, e) && Fresh(now, e, key)
    ensures LeadsFresh(c, key, w, after)
  {
    var ws, es :| FreshPath(c, key, ws, es) && ws[0] == w && ws[|es|] == now;
    PathSnoc(c, ws, es, e, after);
    assert FreshPath(c, key, ws + [after], es + [e]) && (ws + [after])[0] == w && (ws + [after])[|es + [e]|] == after;
  }

  lemma FreshLeads(c: Cluster, key: string, w: World, after: World)
    requires LeadsFresh(c, key, w, after)
    ensures Leads(c, w, after)
  {
  }

  /** An undisturbed path takes the workflow no further away from completion. */
  lemma FreshIsNoFarther(c: Cluster, key: string, w: World, after: World)
    requires WellFormed(c) && LeadsFresh(c, key, w, after) && Healthy(c, w, key)
    ensures Healthy(c, after, key)
    ensures Distance(c, after, key) <= Distance(c, w, key)
    ensures Newest(after.flows[key]).finished && !Newest(w.flows[key]).finished ==>
            Distance(c, after, key) < Distance(c, w, key)
  {
    var ws, es :| FreshPath(c, key, ws, es) && ws[0] == w && ws[|es|] == after;
    var kept := (v: World) => Near(c, w, v, key);
    forall i | 0 < i < |ws| && kept(ws[i - 1]) ensures kept(ws[i]) {
      assert Paths.StepAt(c, ws, es, i - 1);
      NearNext(c, w, ws[i - 1], es[i - 1], key);
    }
    AllAlong(ws, kept, |es|);
  }

  ghost predicate Near(c: Cluster, w: World, v: World, key: string) {
    && Healthy(c, w, key) && Healthy(c, v, key)
    && Sum(LackingIn(c, v, key)) <= Sum(LackingIn(c, w, key))
    && (Newest(w.flows[key]).finished ==> Newest(v.flows[key]).finished)
  }

  lemma NearNext(c: Cluster, w: World, v: World, e: Event, key: string)
    requires WellFormed(c) && Near(c, w, v, key) && Enabled(c, v, e) && Fresh(v, e, key)
    ensures Near(c, w, Next(c, v, e), key)
  {
    NeverFarther(c, v, e, key);
    FlowKnown(c, v, key);
    FlowStep(c, v, e, key);
    SumFalls(LackingIn(c, v, key), LackingIn(c, Next(c, v, e), key));
  }

  // ---- Bringing a pass to its end ----

  /** The later copy is the earlier one with more recorded. */
  ghost predicate Extends(before: Snapshot, after: Snapshot) {
    && after == before.(statuses := after.statuses)
    && (before.statuses.Some? ==> after.statuses.Some?)
    && forall n :: Done(Read(before.statuses), n) ==> Done(Read(after.statuses), n)
  }

  /** A pass goes on: with a statuses map it records what it finds, without one it may die of it. */
  ghost predicate GoesOn(steps: Steps, before: Worker, after: Worker) {
    before.Busy? && before.copy.statuses.Some? ==>
      && after.Busy? && Extends(before.copy, after.copy)
      && (before.changed ==> after.changed)
      && (before.complete && AllComplete(steps, Read(before.copy.statuses)) ==> after.complete)
  }

  /** What the cached workflow shares with the pass is the same on both sides. */
  predicate Shares(flow: Flow) {
    flow.worker.Busy? && flow.worker.attached ==> flow.cached == flow.worker.copy
  }

  ghost predicate FlowGoesOn(steps: Steps, before: Flow, after: Flow) {
    && after.versions == before.versions && after.seen == before.seen
    && GoesOn(steps, before.worker, after.worker)
    && (Shares(before) ==> Shares(after) && Extends(before.cached, after.cached))
  }

  lemma FlowGoesFarther(steps: Steps, before: Flow, now: Flow, after: Flow)
    requires FlowGoesOn(steps, before, now) && FlowGoesOn(steps, now, after)
    ensures FlowGoesOn(steps, before, after)
  {
  }

  /** Jobs, their copies and the versions of the workflow are as before, and a pass has only gone on. */
  ghost predicate Keeps(c: Cluster, key: string, before: World, after: World) {
    && after.jobs == before.jobs && after.store == before.store
    && after.synced == before.synced && after.listing == before.listing
    && key in c && key in before.flows && key in after.flows
    && FlowGoesOn(c[key].steps, before.flows[key], after.flows[key])
  }

  /** A pass that is on its way to a job can go on to the next step: the server may refuse the job. */
  lemma LeaveStage(c: Cluster, key: string, start: World, w: World) returns (after: World)
    requires LeadsFresh(c, key, start, w) && IsBusy(c, w, key)
    requires WorkerOf(c, w, key).stage.Ranging? || IsSlot(c, PendingSlot(w, key))
    ensures LeadsFresh(c, key, start, after) && Keeps(c, key, w, after) && after.flows == AtStage(w, key, Ranging).flows
  {
    after := ToNextStep(c, key, start, w);
    StageKeeps(c, key, w, after);
  }

  lemma ToNextStep(c: Cluster, key: string, start: World, w: World) returns (after: World)
    requires LeadsFresh(c, key, start, w) && IsBusy(c, w, key)
    requires WorkerOf(c, w, key).stage.Ranging? || IsSlot(c, PendingSlot(w, key))
    ensures LeadsFresh(c, key, start, after)
            && after == w.(expected := after.expected, flows := AtStage(w, key, Ranging).flows)
  {
    match WorkerOf(c, w, key).stage
    case Ranging =>
      after := w;
      assert AtStage(w, key, Ranging).flows == w.flows;
    case FoundNone(_) =>
      after := LeaveCheck(c, key, start, w);
    case MayCreate(_) =>
      after := AtStage(w, key, Ranging);
      OnFresh(c, key, start, w, RefuseJob(key), after);
    case MustExpect(_) =>
      after := AfterExpect(c, w, key);
      OnFresh(c, key, start, w, ExpectCreation(key), after);
  }

  lemma StageKeeps(c: Cluster, key: string, w: World, after: World)
    requires IsBusy(c, w, key) && after == w.(expected := after.expected, flows := AtStage(w, key, Ranging).flows)
    ensures Keeps(c, key, w, after)
  {
  }

  lemma LeaveCheck(c: Cluster, key: string, start: World, w: World) returns (after: World)
    requires LeadsFresh(c, key, start, w) && CanCheck(c, w, key) && IsSlot(c, PendingSlot(w, key))
    ensures LeadsFresh(c, key, start, after) && after == AtStage(w, key, Ranging)
  {
    after := AfterCheck(c, w, key);
    OnFresh(c, key, start, w, CheckExpectation(key), after);
    if Satisfied(w, PendingSlot(w, key)) {
      var checked := after;
      after := AtStage(checked, key, Ranging);
      OnFresh(c, key, start, checked, RefuseJob(key), after);
    }
  }

  /** A pass between steps, with the given steps still to come. */
  ghost predicate Between(c: Cluster, w: World, key: string, rest: set<string>) {
    && IsBusy(c, w, key) && WorkerOf(c, w, key).stage.Ranging?
    && WorkerOf(c, w, key).rest == rest && rest <= c[key].steps.Keys
  }

  /** A pass without a statuses map may die of what it finds. */
  lemma PassStep(c: Cluster, key: string, start: World, w: World, n: string, rest: set<string>) returns (after: World)
    requires LeadsFresh(c, key, start, w) && Between(c, w, key, rest) && n in rest
    ensures LeadsFresh(c, key, start, after) && Keeps(c, key, w, after)
    ensures after.flows[key].worker.Idle? || Between(c, after, key, rest - {n})
  {
    var found := Listing(Listed(c, w, WorkerOf(c, w, key).copy.labels, Slot(key, n)));
    var examined := AfterExamine(c, w, key, n, found);
    OnFresh(c, key, start, w, Examine(key, n, found), examined);
    TurnGoesOn(c, w, key, n, found);
    after := examined;
    if examined.flows[key].worker.Busy? {
      after := LeaveStage(c, key, start, examined);
      FlowGoesFarther(c[key].steps, w.flows[key], examined.flows[key], after.flows[key]);
    }
  }

  /** What examining a step does to the pass. */
  lemma TurnGoesOn(c: Cluster, w: World, key: string, n: string, found: seq<nat>)
    requires CanExamine(c, w, key, n, found)
    ensures var after := AfterExamine(c, w, key, n, found);
            && Keeps(c, key, w, after)
            && (after.flows[key].worker.Busy? ==>
                  && IsBusy(c, after, key) && WorkerOf(c, after, key).rest == WorkerOf(c, w, key).rest - {n}
                  && (WorkerOf(c, after, key).stage.Ranging? || IsSlot(c, PendingSlot(after, key))))
  {
    TurnOfFound(c, w, key, n, found);
    FlowTurnGoesOn(c[key].steps, w.flows[key], n, TurnOf(c, w, key, n, found));
  }

  lemma FlowTurnGoesOn(steps: Steps, flow: Flow, n: string, turn: Action)
    requires flow.worker.Busy? && n in steps && (turn.Write? ==> !Done(Read(flow.worker.copy.statuses), n))
    ensures FlowGoesOn(steps, flow, AfterTurn(flow, n, turn))
  {
  }

  lemma {:induction false} DrainPass(c: Cluster, key: string, start: World, w: World, rest: set<string>)
    returns (after: World)
    requires LeadsFresh(c, key, start, w) && Between(c, w, key, rest)
    ensures LeadsFresh(c, key, start, after) && Keeps(c, key, w, after)
    ensures after.flows[key].worker.Idle? || CanEnd(c, after, key)
    decreases |rest|
  {
    if rest == {} {
      after := w;
    } else {
      var n :| n in rest;
      var now := PassStep(c, key, start, w, n, rest);
      after := now;
      if now.flows[key].worker.Busy? {
        after := DrainPass(c, key, start, now, rest - {n});
        FlowGoesFarther(c[key].steps, w.flows[key], now.flows[key], after.flows[key]);
      }
    }
  }

  /** A pass comes to its end, unless it dies before. */
  lemma Drained(c: Cluster, key: string, start: World, w: World) returns (after: World)
    requires LeadsFresh(c, key, start, w) && IsBusy(c, w, key) && FlowInv(c, w.log, w.synced, key, w.flows[key])
    ensures LeadsFresh(c, key, start, after) && Keeps(c, key, w, after)
    ensures after.flows[key].worker.Idle? || CanEnd(c, after, key)
  {
    var between := LeaveStage(c, key, start, w);
    after := DrainPass(c, key, start, between, WorkerOf(c, between, key).rest);
    FlowGoesFarther(c[key].steps, w.flows[key], between.flows[key], after.flows[key]);
  }

  // ---- Bringing the informers up to date ----

  /** The job store after the delivery of some jobs. */
  ghost function Delivered(w: World, ids: set<nat>): map<nat, Job>
    requires ids <= w.jobs.Keys
  {
    map id | id in w.store.Keys + ids :: if id in ids then w.jobs[id].body else w.store[id]
  }

  lemma {:induction false} StoreAll(c: Cluster, key: string, start: World, w: World, ids: set<nat>)
    returns (after: World)
    requires LeadsFresh(c, key, start, w) && w.listing.Some? && ids <= w.jobs.Keys
    ensures LeadsFresh(c, key, start, after) && after == w.(store := Delivered(w, ids))
    decreases |ids|
  {
    if ids == {} {
      after := w;
      assert Delivered(w, ids) == w.store;
    } else {
      var id :| id in ids;
      var before := StoreAll(c, key, start, w, ids - {id});
      after := StoreOne(c, key, start, before, id);
      DeliveredMore(w, ids, id);
    }
  }

  lemma DeliveredMore(w: World, ids: set<nat>, id: nat)
    requires ids <= w.jobs.Keys && id in ids
    ensures Delivered(w, ids) == Delivered(w, ids - {id})[id := w.jobs[id].body]
  {
  }

  lemma StoreOne(c: Cluster, key: string, start: World, w: World, id: nat) returns (after: World)
    requires LeadsFresh(c, key, start, w) && w.listing.Some? && id in w.jobs
    ensures LeadsFresh(c, key, start, after) && after == w.(store := w.store[id := w.jobs[id].body])
  {
    after := AfterStoreJob(w, id);
    OnFresh(c, key, start, w, StoreJob(id), after);
  }

  /** The informer's copies are the jobs as they are. */
  ghost predicate UpToDate(w: World) {
    && w.synced && w.listing.Some? && w.store.Keys == w.jobs.Keys
    && forall id :: id in w.jobs ==> w.store[id] == w.jobs[id].body
  }

  lemma BringUpToDate(c: Cluster, key: string, start: World, w: World) returns (after: World)
    requires LeadsFresh(c, key, start, w) && SlotsInv(w)
    ensures LeadsFresh(c, key, start, after) && UpToDate(after)
    ensures after == w.(store := after.store, listing := after.listing, synced := after.synced)
  {
    var listed := ListJobsIfNew(c, key, start, w);
    after := StoreAll(c, key, start, listed, listed.jobs.Keys);
    if !w.synced {
      var stored := after;
      after := stored.(synced := true);
      OnFresh(c, key, start, stored, MarkSynced, after);
    }
  }

  lemma ListJobsIfNew(c: Cluster, key: string, start: World, w: World) returns (listed: World)
    requires LeadsFresh(c, key, start, w) && SlotsInv(w)
    ensures LeadsFresh(c, key, start, listed) && listed == w.(listing := listed.listing) && listed.listing.Some?
    ensures w.synced || listed.listing == Some(w.jobs.Keys)
    ensures w.store.Keys <= w.jobs.Keys
  {
    listed := w;
    if w.listing.None? {
      listed := w.(listing := Some(w.jobs.Keys));
      OnFresh(c, key, start, w, InitialList, listed);
    }
  }

  lemma SeeNewest(c: Cluster, key: string, start: World, w: World) returns (after: World)
    requires LeadsFresh(c, key, start, w) && key in w.flows && w.flows[key].worker.Idle? && FreshFlow(w.flows[key])
    ensures LeadsFresh(c, key, start, after)
    ensures after == SetFlow(w, key, w.flows[key].(cached := Newest(w.flows[key]), seen := |w.flows[key].versions| - 1))
  {
    var flow := w.flows[key];
    if SeesNewest(flow) {
      after := w;
      assert flow.(cached := Newest(flow), seen := |flow.versions| - 1) == flow;
      assert w.flows[key := flow] == w.flows;
    } else {
      after := RefreshNewest(c, key, start, w);
    }
  }

  lemma RefreshNewest(c: Cluster, key: string, start: World, w: World) returns (after: World)
    requires LeadsFresh(c, key, start, w) && key in w.flows && w.flows[key].worker.Idle?
    requires w.flows[key].seen + 1 < |w.flows[key].versions|
    ensures LeadsFresh(c, key, start, after)
    ensures after == SetFlow(w, key, w.flows[key].(cached := Newest(w.flows[key]), seen := |w.flows[key].versions| - 1))
  {
    var newest := |w.flows[key].versions| - 1;
    RefreshedIdle(w.flows[key]);
    after := SetFlow(w, key, w.flows[key].(cached := Newest(w.flows[key]), seen := newest));
    OnFresh(c, key, start, w, Refresh(key, newest), after);
  }

  lemma RefreshedIdle(flow: Flow)
    requires flow.worker.Idle? && flow.versions != []
    ensures Refreshed(flow, |flow.versions| - 1) == flow.(cached := Newest(flow), seen := |flow.versions| - 1)
  {
  }

  // ---- A workflow that is ready for a pass ----

  /** The cached workflow is the newest version, has been defaulted, and may be passed over. */
  ghost predicate ReadyFlow(s: Submission, flow: Flow) {
    && flow.worker.Idle? && flow.seen < |flow.versions| && SeesNewest(flow) && flow.cached == Newest(flow)
    && UID_LABEL in flow.cached.labels && flow.cached.hasSelector && flow.cached.statuses.Some?
    && !flow.cached.finished && !Paused(flow.cached.labels)
  }

  /** An accepted workflow, not paused, all of whose steps run jobs. */
  ghost predicate Runnable(c: Cluster, key: string) {
    && WellFormed(c) && key in c && Acceptable(c[key]) && !Paused(c[key].labels)
    && forall n :: n in c[key].steps ==> c[key].steps[n].jobTemplate.Some?
  }

  lemma NotPausedLater(c: Cluster, log: seq<LogEntry>, key: string, snap: Snapshot)
    requires key in c && SnapInv(c, log, key, snap) && !Paused(c[key].labels)
    ensures !Paused(snap.labels)
  {
    LabelKeysDiffer();
  }

  /** The pass under way ends, and the newest version comes back. */
  lemma Settled(c: Cluster, key: string, start: World, w: World) returns (after: World)
    requires WellFormed(c) && Healthy(c, start, key) && LeadsFresh(c, key, start, w)
    requires key in w.flows && (w.flows[key].worker.Busy? ==> CanEnd(c, w, key) && !WorkerOf(c, w, key).complete)
    ensures LeadsFresh(c, key, start, after) && Healthy(c, after, key) && after.jobs == w.jobs && UpToDate(after)
    ensures after.flows[key].worker.Idle? && SeesNewest(after.flows[key])
    ensures Newest(after.flows[key]).finished ==> w.flows[key].versions != [] && Newest(w.flows[key]).finished
  {
    var rested := EndIfBusy(c, key, start, w);
    var seen := SeeNewest(c, key, start, rested);
    FreshIsNoFarther(c, key, start, seen);
    after := BringUpToDate(c, key, start, seen);
    FreshIsNoFarther(c, key, start, after);
  }

  lemma EndIfBusy(c: Cluster, key: string, start: World, w: World) returns (after: World)
    requires WellFormed(c) && Healthy(c, start, key) && LeadsFresh(c, key, start, w)
    requires key in w.flows && (w.flows[key].worker.Busy? ==> CanEnd(c, w, key) && !WorkerOf(c, w, key).complete)
    ensures LeadsFresh(c, key, start, after) && after.jobs == w.jobs && Healthy(c, after, key)
    ensures key in after.flows && after.flows[key].worker.Idle? && FreshFlow(after.flows[key])
    ensures Newest(after.flows[key]).finished ==> w.flows[key].versions != [] && Newest(w.flows[key]).finished
  {
    FreshIsNoFarther(c, key, start, w);
    FlowKnown(c, w, key);
    after := w;
    if w.flows[key].worker.Busy? {
      after := SetFlow(w, key, AfterEnd(w.flows[key], true));
      OnFresh(c, key, start, w, End(key, true), after);
      FreshIsNoFarther(c, key, start, after);
      UnfinishedAfterEnd(w.flows[key]);
    }
  }

  lemma UnfinishedAfterEnd(flow: Flow)
    requires FreshFlow(flow) && flow.worker.Busy? && !flow.worker.complete && !flow.worker.copy.finished
    ensures AfterEnd(flow, true).versions != [] && !Newest(AfterEnd(flow, true)).finished
  {
  }

  /** A workflow that has not been defaulted yet gets its defaults. */
  lemma DefaultIfRaw(c: Cluster, key: string, start: World, w: World) returns (after: World)
    requires Runnable(c, key) && Healthy(c, start, key) && LeadsFresh(c, key, start, w) && UpToDate(w)
    requires key in w.flows && w.flows[key].worker.Idle? && SeesNewest(w.flows[key]) && !Newest(w.flows[key]).finished
    ensures LeadsFresh(c, key, start, after) && after.jobs == w.jobs && UpToDate(after)
    ensures key in after.flows && ReadyFlow(c[key], after.flows[key])
  {
    FreshIsNoFarther(c, key, start, w);
    FlowKnown(c, w, key);
    NotPausedLater(c, w.log, key, w.flows[key].cached);
    after := w;
    if UID_LABEL !in w.flows[key].cached.labels {
      after := SetDefaults(c, key, start, w);
    }
  }

  lemma SetDefaults(c: Cluster, key: string, start: World, w: World) returns (after: World)
    requires WellFormed(c) && LeadsFresh(c, key, start, w) && UpToDate(w) && CanDefault(c, w, key)
    requires SeesNewest(w.flows[key]) && FreshFlow(w.flows[key])
    ensures LeadsFresh(c, key, start, after) && after.jobs == w.jobs && UpToDate(after)
    ensures key in after.flows && ReadyFlow(c[key], after.flows[key])
  {
    LabelKeysDiffer();
    var defaulted := SetFlow(w, key, AfterDefault(c[key], w.flows[key], true));
    OnFresh(c, key, start, w, Default(key, true), defaulted);
    after := SeeNewest(c, key, start, defaulted);
  }

  lemma BeginPass(c: Cluster, key: string, start: World, w: World) returns (begun: World)
    requires Runnable(c, key) && LeadsFresh(c, key, start, w) && w.synced
    requires key in w.flows && ReadyFlow(c[key], w.flows[key])
    ensures LeadsFresh(c, key, start, begun) && begun == SetFlow(w, key, AfterBegin(c[key], w.flows[key]))
  {
    VerdictIff(c[key], w.flows[key].cached);
    begun := SetFlow(w, key, AfterBegin(c[key], w.flows[key]));
    OnFresh(c, key, start, w, Begin(key), begun);
  }

  // ---- An event that does something ----

  /** A world in which an event does something for the workflow, without giving a step a second job. */
  ghost predicate Fruitful(c: Cluster, key: string, start: World, w: World, e: Event) {
    && LeadsFresh(c, key, start, w) && Enabled(c, w, e) && Calm(e) && Forward(w, e) && Fresh(w, e, key)
    && Effective(c, w, e, key) && Single(Next(c, w, e).jobs)
  }

  /** All steps are complete: a pass over them ends by saying so. */
  lemma LastPass(c: Cluster, key: string, start: World, w: World) returns (last: World, e: Event)
    requires Runnable(c, key) && LeadsFresh(c, key, start, w) && UpToDate(w) && Single(w.jobs)
    requires key in w.flows && ReadyFlow(c[key], w.flows[key])
             && AllComplete(c[key].steps, Read(w.flows[key].cached.statuses))
    ensures Fruitful(c, key, start, last, e)
  {
    var begun := BeginPass(c, key, start, w);
    last := DrainPass(c, key, start, begun, c[key].steps.Keys);
    e := End(key, true);
  }

  /** The jobs of the slot, listed. */
  ghost predicate JobsOf(jobs: map<nat, ServerJob>, slot: Slot, ids: seq<nat>) {
    Lists(ids, set id | id in jobs && jobs[id].slot == slot)
  }

  /** A pass with up-to-date copies lists the jobs of a step as they are. */
  lemma ListsJobsOf(c: Cluster, w: World, key: string, n: string, ids: seq<nat>)
    requires WellFormed(c) && JobsInv(c, w.log, w.jobs) && StoreInv(w.jobs, w.store) && w.store.Keys == w.jobs.Keys
    requires IsSlot(c, Slot(key, n)) && JobsOf(w.jobs, Slot(key, n), ids)
    ensures Lists(ids, Listed(c, w, ValidatedLabels(c[key], true), Slot(key, n)))
  {
    ListedAreOfSlot(c, w, Slot(key, n));
    SameIds(w.jobs, w.store, Slot(key, n));
  }

  lemma SameIds(jobs: map<nat, ServerJob>, store: map<nat, Job>, slot: Slot)
    requires jobs.Keys == store.Keys
    ensures (set id | id in store && jobs[id].slot == slot) == set id | id in jobs && jobs[id].slot == slot
  {
  }

  /** A step that can be worked on with the statuses of the newest version. */
  ghost predicate ReadyStep(c: Cluster, w: World, key: string, n: string) {
    && key in c && key in w.flows && ReadyFlow(c[key], w.flows[key]) && n in c[key].steps
    && var statuses := Read(w.flows[key].cached.statuses);
       !Done(statuses, n) && DependenciesResolved(c[key].steps[n], statuses)
  }

  lemma BeginAndList(c: Cluster, key: string, start: World, w: World, n: string, ids: seq<nat>) returns (begun: World)
    requires Runnable(c, key) && Healthy(c, start, key) && LeadsFresh(c, key, start, w) && UpToDate(w)
    requires ReadyStep(c, w, key, n) && JobsOf(w.jobs, Slot(key, n), ids)
    ensures LeadsFresh(c, key, start, begun) && CanExamine(c, begun, key, n, ids)
    ensures Read(WorkerOf(c, begun, key).copy.statuses) == Read(w.flows[key].cached.statuses)
    ensures begun.jobs == w.jobs && begun.store == w.store && begun.expected == w.expected
  {
    begun := BeginPass(c, key, start, w);
    FreshLeads(c, key, start, begun);
    LeadsInv(c, start, begun);
    FlowKnown(c, begun, key);
    ListsJobsOf(c, begun, key, n, ids);
  }

  /** A ready step without a job: a pass comes to create one. */
  lemma FirstJob(c: Cluster, key: string, start: World, w: World, n: string) returns (last: World, e: Event)
    requires Runnable(c, key) && Healthy(c, start, key) && LeadsFresh(c, key, start, w) && UpToDate(w) && Single(w.jobs)
    requires ReadyStep(c, w, key, n) && !HasJob(w.jobs, Slot(key, n))
    ensures Fruitful(c, key, start, last, e)
  {
    NoJobListed(w.jobs, Slot(key, n));
    var begun := BeginAndList(c, key, start, w, n, []);
    NotExpected(c, key, start, begun, Slot(key, n));
    last := ComeToCreate(c, key, start, begun, n);
    var id := FreeId(last.jobs.Keys);
    e := CreateJob(key, id, "");
    NewSlotStaysSingle(last.jobs, id, AfterCreate(c, last, key, id, "").jobs[id]);
  }

  lemma NoJobListed(jobs: map<nat, ServerJob>, slot: Slot)
    requires !HasJob(jobs, slot)
    ensures JobsOf(jobs, slot, [])
  {
  }

  lemma OnlyJobListed(jobs: map<nat, ServerJob>, id: nat)
    requires Single(jobs) && id in jobs
    ensures JobsOf(jobs, jobs[id].slot, [id])
  {
    assert Elems([id]) == set i | i in jobs && jobs[i].slot == jobs[id].slot;
  }

  /** Only jobs that exist are expected. */
  lemma NotExpected(c: Cluster, key: string, start: World, w: World, slot: Slot)
    requires WellFormed(c) && Inv(c, start) && LeadsFresh(c, key, start, w) && !HasJob(w.jobs, slot)
    ensures slot !in w.expected
  {
    FreshLeads(c, key, start, w);
    LeadsInv(c, start, w);
  }

  lemma ComeToCreate(c: Cluster, key: string, start: World, w: World, n: string) returns (checked: World)
    requires LeadsFresh(c, key, start, w) && CanExamine(c, w, key, n, []) && TurnOf(c, w, key, n, []).Create?
    requires Slot(key, n) !in w.expected
    ensures LeadsFresh(c, key, start, checked)
    ensures checked == SetFlow(w, key, w.flows[key].(worker := WentOn(WorkerOf(c, w, key), n).(stage := MayCreate(n))))
    ensures CanCreate(c, checked, key) && PendingSlot(checked, key) == Slot(key, n)
  {
    var examined := AfterExamine(c, w, key, n, []);
    OnFresh(c, key, start, w, Examine(key, n, []), examined);
    checked := AfterCheck(c, examined, key);
    OnFresh(c, key, start, examined, CheckExpectation(key), checked);
  }

  lemma NewSlotStaysSingle(jobs: map<nat, ServerJob>, id: nat, job: ServerJob)
    requires Single(jobs) && !HasJob(jobs, job.slot) && id !in jobs
    ensures Single(jobs[id := job])
  {
    assert forall i :: i in jobs ==> HasJob(jobs, jobs[i].slot);
  }

  /** A ready step whose one job has finished: a pass comes to record it. */
  lemma FirstReport(c: Cluster, key: string, start: World, w: World, n: string, id: nat) returns (last: World, e: Event)
    requires Runnable(c, key) && Healthy(c, start, key) && LeadsFresh(c, key, start, w) && UpToDate(w) && Single(w.jobs)
    requires ReadyStep(c, w, key, n) && id in w.jobs && w.jobs[id].slot == Slot(key, n)
             && IsJobFinished(w.jobs[id].body)
    ensures Fruitful(c, key, start, last, e)
  {
    OnlyJobListed(w.jobs, id);
    last := BeginAndList(c, key, start, w, n, [id]);
    e := Examine(key, n, [id]);
    HasReference(c, key, start, w, id);
    FinishedIsWritten(c, last, key, n, id);
  }

  lemma HasReference(c: Cluster, key: string, start: World, w: World, id: nat)
    requires WellFormed(c) && Inv(c, start) && LeadsFresh(c, key, start, w) && id in w.jobs
    ensures w.jobs[id].body.reference.Some?
  {
    FreshLeads(c, key, start, w);
    LeadsInv(c, start, w);
    assert JobInv(c, w.log, w.jobs[id]);
  }

  lemma FinishedIsWritten(c: Cluster, w: World, key: string, n: string, id: nat)
    requires CanExamine(c, w, key, n, [id]) && id in w.store && IsJobFinished(w.store[id])
             && w.store[id].reference.Some?
    requires var statuses := Read(WorkerOf(c, w, key).copy.statuses);
             c[key].steps[n].jobTemplate.Some? && !Done(statuses, n) && DependenciesResolved(c[key].steps[n], statuses)
    ensures TurnOf(c, w, key, n, [id]).Write?
  {
    assert Bodies(w, [id]) == [w.store[id]];
  }

  /** Some undisturbed event that does something is within reach. */
  lemma SomeWorkIsInReach(c: Cluster, key: string, start: World, w: World) returns (last: World, e: Event)
    requires Runnable(c, key) && Healthy(c, start, key) && LeadsFresh(c, key, start, w) && UpToDate(w) && Single(w.jobs)
    requires key in w.flows && ReadyFlow(c[key], w.flows[key])
    ensures Fruitful(c, key, start, last, e)
  {
    var statuses := Read(w.flows[key].cached.statuses);
    if AllComplete(c[key].steps, statuses) {
      last, e := LastPass(c, key, start, w);
    } else {
      var n := NoDeadlock(WorkflowOf(c[key], w.flows[key].cached));
      last, e := WorkOn(c, key, start, w, n);
    }
  }

  /** A ready step lacks a job, the end of its job, or the record of that end. */
  lemma WorkOn(c: Cluster, key: string, start: World, w: World, n: string) returns (last: World, e: Event)
    requires Runnable(c, key) && Healthy(c, start, key) && LeadsFresh(c, key, start, w) && UpToDate(w) && Single(w.jobs)
    requires ReadyStep(c, w, key, n)
    ensures Fruitful(c, key, start, last, e)
  {
    if id :| id in w.jobs && w.jobs[id].slot == Slot(key, n) {
      if IsJobFinished(w.jobs[id].body) {
        last, e := FirstReport(c, key, start, w, n, id);
      } else {
        last, e := w, FinishJob(id, false);
      }
    } else {
      last, e := FirstJob(c, key, start, w, n);
    }
  }

  lemma EndIsFruitful(c: Cluster, key: string, start: World, w: World)
    requires LeadsFresh(c, key, start, w) && CanEnd(c, w, key) && WorkerOf(c, w, key).complete && Single(w.jobs)
    ensures Fruitful(c, key, start, w, End(key, true))
  {
  }

  lemma DrainIfBusy(c: Cluster, w: World, key: string) returns (drained: World)
    requires WellFormed(c) && Healthy(c, w, key)
    ensures LeadsFresh(c, key, w, drained) && drained.jobs == w.jobs && key in w.flows && key in drained.flows
    ensures drained.flows[key].worker.Busy? ==> CanEnd(c, drained, key) && FreshFlow(drained.flows[key])
    ensures drained.flows[key].versions == w.flows[key].versions != []
  {
    FlowKnown(c, w, key);
    StayFresh(c, key, w);
    drained := w;
    if w.flows[key].worker.Busy? {
      drained := Drained(c, key, w, w);
      FreshIsNoFarther(c, key, w, drained);
    }
  }

  lemma WorkAfterDrain(c: Cluster, w: World, v: World, key: string) returns (last: World, e: Event)
    requires Runnable(c, key) && Healthy(c, w, key) && LeadsFresh(c, key, w, v) && Single(v.jobs)
    requires key in v.flows && v.flows[key].versions != [] && !Newest(v.flows[key]).finished
    requires v.flows[key].worker.Busy? ==> CanEnd(c, v, key)
    ensures Fruitful(c, key, w, last, e)
  {
    if v.flows[key].worker.Busy? && v.flows[key].worker.complete {
      last, e := v, End(key, true);
      EndIsFruitful(c, key, w, v);
    } else {
      last, e := WorkForNextPass(c, w, v, key);
    }
  }

  lemma WorkForNextPass(c: Cluster, w: World, v: World, key: string) returns (last: World, e: Event)
    requires Runnable(c, key) && Healthy(c, w, key) && LeadsFresh(c, key, w, v) && Single(v.jobs)
    requires key in v.flows && v.flows[key].versions != [] && !Newest(v.flows[key]).finished
    requires v.flows[key].worker.Busy? ==> CanEnd(c, v, key) && !WorkerOf(c, v, key).complete
    ensures Fruitful(c, key, w, last, e)
  {
    var settled := Settled(c, key, w, v);
    var ready := DefaultIfRaw(c, key, w, settled);
    last, e := SomeWorkIsInReach(c, key, w, ready);
  }

  /**
   * Until a workflow is complete, some undisturbed event that does something for it, and gives no step a
   * second job, is in reach.
   */
  lemma WorkRemains(c: Cluster, w: World, key: string) returns (last: World, e: Event)
    requires Runnable(c, key) && Healthy(c, w, key) && Single(w.jobs) && !Newest(w.flows[key]).finished
    ensures Fruitful(c, key, w, last, e)
  {
    var drained := DrainIfBusy(c, w, key);
    last, e := WorkAfterDrain(c, w, drained, key);
  }

  /**
   * Until a workflow is complete, undisturbed events lead it nearer to completion, without giving a step a
   * second job.
   */
  lemma NeverStuck(c: Cluster, w: World, key: string) returns (after: World)
    requires Runnable(c, key) && Healthy(c, w, key) && Single(w.jobs) && !Newest(w.flows[key]).finished
    ensures LeadsFresh(c, key, w, after) && Healthy(c, after, key) && Single(after.jobs)
    ensures Distance(c, after, key) < Distance(c, w, key)
  {
    var last, e := WorkRemains(c, w, key);
    FreshIsNoFarther(c, key, w, last);
    EffectiveEventFalls(c, last, e, key);
    after := Next(c, last, e);
    OnFresh(c, key, w, last, e, after);
    FreshIsNoFarther(c, key, w, after);
  }

  // ---- Undisturbed runs ----

  /**
   * In a run that does not disturb a workflow and gives no step two jobs, at most six events a step and one
   * more do anything for it, whatever else goes on; and until it is complete another one is in reach.  So
   * a run that goes on as long as anything can be done for the workflow completes it within that many.
   */
  lemma CompletesInLinearTime(c: Cluster, ws: seq<World>, es: seq<Event>, key: string)
    requires FreshRun(c, ws, es, key) && Single(ws[|es|].jobs)
    ensures Effects(c, ws, es, key, |es|) <= 6 * |c[key].steps| + 1
    ensures key in ws[|es|].flows && ws[|es|].flows[key].versions != []
    ensures Effects(c, ws, es, key, |es|) == 6 * |c[key].steps| + 1 ==> Newest(ws[|es|].flows[key]).finished
    ensures Runnable(c, key) && !Newest(ws[|es|].flows[key]).finished ==>
            exists last, e :: Fruitful(c, key, ws[|es|], last, e)
  {
    RunFalls(c, ws, es, key, |es|);
    if Runnable(c, key) && !Newest(ws[|es|].flows[key]).finished {
      var last, e := WorkRemains(c, ws[|es|], key);
    }
  }
}
