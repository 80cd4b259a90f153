/**
 * What the surroundings must do for expectations to work: deliver every job before its expectation
 * expires, and not between a pass's listing for the step and its expectation check.
 */
module Timeliness {
  import opened Api
  import opened Scheduling
  import opened Protocol
  import opened ProtocolInvariants
  import opened ProtocolTheorems

  /** A pass has listed no job for the step and has not yet checked the expectation. */
  ghost predicate AtCheck(flows: map<string, Flow>, slot: Slot) {
    slot.key in flows && flows[slot.key].worker.Busy? && flows[slot.key].worker.stage == FoundNone(slot.step)
  }

  /** No job is stored while a pass is about to check its step, and no check meets an expired expectation. */
  ghost predicate Timely(c: Cluster, w: World, e: Event) {
    && (e.StoreJob? && CanStoreJob(w, e.id) ==> !AtCheck(w.flows, w.jobs[e.id].slot))
    && (e.CheckExpectation? && CanCheck(c, w, e.key) && PendingSlot(w, e.key) in w.expected ==>
          !Expectations.IsExpired(w.expected[PendingSlot(w, e.key)], w.now))
  }

  /** What a pass about to check has listed is still true. */
  ghost predicate ListingHolds(w: World) {
    forall slot :: AtCheck(w.flows, slot) ==> !HasStored(w.jobs, w.store, slot)
  }

  lemma ListingKept(c: Cluster, w: World, e: Event)
    requires WellFormed(c) && Inv(c, w) && Enabled(c, w, e) && Timely(c, w, e) && ListingHolds(w)
    ensures ListingHolds(Next(c, w, e))
  {
    if e.Examine? {
      CreatesWhereNone(c, w, e.key, e.step, e.found);
      ExamineKeepsListing(c, w, e.key, e.step, e.found);
    } else if e.CreateJob? {
      CreateKeepsListing(c, w, e.key, e.id, e.reference);
    } else {
      OthersKeepListing(c, w, e);
    }
  }

  lemma CreatesWhereNone(c: Cluster, w: World, key: string, step: string, found: seq<nat>)
    requires WellFormed(c) && Inv(c, w) && CanExamine(c, w, key, step, found)
    ensures TurnOf(c, w, key, step, found).Create? ==> !HasStored(w.jobs, w.store, Slot(key, step))
  {
    TurnMeaning(c, w, key, step, found);
  }

  lemma ExamineKeepsListing(c: Cluster, w: World, key: string, step: string, found: seq<nat>)
    requires CanExamine(c, w, key, step, found) && ListingHolds(w)
    requires TurnOf(c, w, key, step, found).Create? ==> !HasStored(w.jobs, w.store, Slot(key, step))
    ensures ListingHolds(AfterExamine(c, w, key, step, found))
  {
    var after := AfterExamine(c, w, key, step, found);
    TurnStage(w.flows[key], step, TurnOf(c, w, key, step, found));
    forall slot | AtCheck(after.flows, slot) ensures !HasStored(w.jobs, w.store, slot) {
      if slot.key != key {
        assert AtCheck(w.flows, slot);
      }
    }
  }

  /** After a turn the pass is at a check exactly if the turn found no job. */
  lemma TurnStage(flow: Flow, step: string, turn: Action)
    requires flow.worker.Busy? && flow.worker.stage.Ranging?
    ensures var worker := AfterTurn(flow, step, turn).worker;
            if turn.Create? then worker.Busy? && worker.stage == FoundNone(step)
              else worker.Idle? || worker.stage.Ranging?
  {
  }

  /** A new job is not in the store. */
  lemma CreateKeepsListing(c: Cluster, w: World, key: string, id: nat, reference: Reference)
    requires StoreInv(w.jobs, w.store) && CanCreate(c, w, key) && id !in w.jobs && ListingHolds(w)
    ensures ListingHolds(AfterCreate(c, w, key, id, reference))
  {
    var after := AfterCreate(c, w, key, id, reference);
    forall slot | AtCheck(after.flows, slot) ensures !HasStored(after.jobs, w.store, slot) {
      assert AtCheck(w.flows, slot);
      assert forall i :: i in w.store ==> i in w.jobs && after.jobs[i] == w.jobs[i];
    }
  }

  lemma OthersKeepListing(c: Cluster, w: World, e: Event)
    requires Enabled(c, w, e) && Timely(c, w, e) && ListingHolds(w)
    requires !e.Examine? && !e.CreateJob?
    ensures ListingHolds(Next(c, w, e))
  {
    if e.FinishJob? {
      SameSlots(w.jobs, AfterFinishJob(w, e.id, e.failed).jobs, w.store);
    }
    var after := Next(c, w, e);
    assert forall slot :: AtCheck(after.flows, slot) ==> AtCheck(w.flows, slot);
  }

  /** A check that comes in time is clean if it passes. */
  lemma TimelyCheckIsClean(c: Cluster, w: World, key: string)
    requires WellFormed(c) && Inv(c, w) && ListingHolds(w) && CheckPasses(c, w, key)
             && Timely(c, w, CheckExpectation(key))
    ensures Clean(c, w, key)
  {
    assert AtCheck(w.flows, PendingSlot(w, key));
    assert FlowInv(c, w.log, w.synced, key, w.flows[key]);
    ListedAreOfSlot(c, w, PendingSlot(w, key));
    assert !HasStored(w.jobs, w.store, PendingSlot(w, key));
    assert forall id :: id !in Listed(c, w, WorkerOf(c, w, key).copy.labels, PendingSlot(w, key));
  }

  ghost predicate TimelyRun(c: Cluster, ws: seq<World>, es: seq<Event>) {
    IsRun(c, ws, es) && forall i :: 0 <= i < |es| ==> Timely(c, ws[i], es[i])
  }

  lemma {:induction false} ListingHoldsAt(c: Cluster, ws: seq<World>, es: seq<Event>, i: nat)
    requires TimelyRun(c, ws, es) && i < |ws|
    ensures ListingHolds(ws[i])
  {
    if i > 0 {
      ListingHoldsAt(c, ws, es, i - 1);
      RunInv(c, ws, es, i - 1);
      assert IsStep(c, ws[i - 1], es[i - 1], ws[i]);
      ListingKept(c, ws[i - 1], es[i - 1]);
    }
  }

  /** In a run in which every delivery is timely no step ever has two jobs, whatever restarts it goes through. */
  lemma TimelyDeliveryMeansAtMostOneJob(c: Cluster, ws: seq<World>, es: seq<Event>)
    requires TimelyRun(c, ws, es)
    ensures ChecksClean(c, ws, es) && Single(ws[|es|].jobs)
  {
    forall i | 0 <= i < |es| && es[i].CheckExpectation? && CheckPasses(c, ws[i], es[i].key)
      ensures Clean(c, ws[i], es[i].key)
    {
      RunInv(c, ws, es, i);
      ListingHoldsAt(c, ws, es, i);
      TimelyCheckIsClean(c, ws[i], es[i].key);
    }
    AtMostOneJob(c, ws, es);
  }
}
