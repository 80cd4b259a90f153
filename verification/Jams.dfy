/**
 * What a second job does to a workflow: the pass reconciles nothing, so once both jobs are listed the
 * step is never recorded complete, whatever becomes of the jobs.
 */
module Jams {
  import opened Prelude
  import opened Api
  import opened Scheduling
  import opened Protocol
  import opened ProtocolInvariants
  import opened ProtocolTheorems
  import opened Paths
  import opened Race

  /** Nobody holds the workflow, in a state of any age, with the step complete. */
  ghost predicate NowhereDone(w: World, slot: Slot) {
    slot.key in w.flows ==> forall snap :: Held(w.flows[slot.key], snap) ==> !Done(Read(snap.statuses), slot.step)
  }

  /** Two jobs of the step, both of which passes list, now or once the job store is synced. */
  ghost predicate Doubled(w: World, slot: Slot, i: nat, j: nat) {
    && i != j && i in w.jobs && j in w.jobs && w.jobs[i].slot == slot && w.jobs[j].slot == slot
    && (w.synced ==> i in w.store && j in w.store)
  }

  /** The step has two jobs that passes list, and no job has been recorded complete so far. */
  ghost predicate Jammed(w: World, slot: Slot, i: nat, j: nat) {
    Doubled(w, slot, i, j) && NowhereDone(w, slot)
  }

  lemma DoubledKept(c: Cluster, w: World, e: Event, slot: Slot, i: nat, j: nat)
    requires SlotsInv(w) && Enabled(c, w, e) && Doubled(w, slot, i, j)
    ensures Doubled(Next(c, w, e), slot, i, j)
  {
  }

  /** Two stored jobs jam a step none of whose jobs has finished. */
  lemma TwoStoredJobsJam(c: Cluster, w: World, slot: Slot, i: nat, j: nat)
    requires Inv(c, w) && i != j && i in w.jobs && j in w.jobs && w.jobs[i].slot == slot && w.jobs[j].slot == slot
    requires i in w.store && j in w.store && JobFinished(slot) !in w.log
    ensures Jammed(w, slot, i, j)
  {
    assert JobInv(c, w.log, w.jobs[i]);
    UnfinishedIsNowhereDone(c, w, slot);
  }

  lemma UnfinishedIsNowhereDone(c: Cluster, w: World, slot: Slot)
    requires FlowsInv(c, w.log, w.synced, w.flows) && JobFinished(slot) !in w.log
    ensures NowhereDone(w, slot)
  {
    if slot.key in w.flows {
      forall snap | Held(w.flows[slot.key], snap) ensures !Done(Read(snap.statuses), slot.step) {
        HeldIsSound(c, w.log, w.synced, slot.key, w.flows[slot.key], snap);
      }
    }
  }

  lemma JamKept(c: Cluster, w: World, e: Event, slot: Slot, i: nat, j: nat)
    requires WellFormed(c) && JobsInv(c, w.log, w.jobs) && SlotsInv(w) && Enabled(c, w, e) && Jammed(w, slot, i, j)
    requires e.Examine? ==> e.key in w.flows && FlowInv(c, w.log, w.synced, e.key, w.flows[e.key])
    ensures Jammed(Next(c, w, e), slot, i, j)
  {
    if e.Examine? {
      TurnKeepsJam(c, w, e.key, e.step, e.found, slot, i, j);
    } else {
      OtherKeepsJam(c, w, e, slot, i, j);
    }
  }

  lemma OtherKeepsJam(c: Cluster, w: World, e: Event, slot: Slot, i: nat, j: nat)
    requires SlotsInv(w) && Enabled(c, w, e) && Jammed(w, slot, i, j) && !e.Examine?
    ensures Jammed(Next(c, w, e), slot, i, j)
  {
    if e.Begin? || e.Default? || e.Reject? || e.End? || e.Refresh? || e.Relist? || e.Restart? {
      FlowStepKeepsJam(c, w, e, slot, i, j);
    } else {
      OtherStepKeepsJam(c, w, e, slot, i, j);
    }
  }

  lemma TurnKeepsJam(c: Cluster, w: World, key: string, step: string, found: seq<nat>, slot: Slot, i: nat, j: nat)
    requires WellFormed(c) && JobsInv(c, w.log, w.jobs) && StoreInv(w.jobs, w.store)
    requires CanExamine(c, w, key, step, found) && FlowInv(c, w.log, w.synced, key, w.flows[key])
             && Jammed(w, slot, i, j)
    ensures Jammed(AfterExamine(c, w, key, step, found), slot, i, j)
  {
    if Slot(key, step) == slot {
      TwoAreFound(c, w, key, step, found, i, j);
    }
    ExamineKeepsJam(c, w, key, step, found, slot, i, j);
  }

  /** Jobs, clock, informer of jobs, and the way from an empty listing to an expectation. */
  lemma OtherStepKeepsJam(c: Cluster, w: World, e: Event, slot: Slot, i: nat, j: nat)
    requires SlotsInv(w) && Enabled(c, w, e) && Jammed(w, slot, i, j)
    requires !e.Examine? && !e.Begin? && !e.Default? && !e.Reject? && !e.End? && !e.Refresh? && !e.Relist?
             && !e.Restart?
    ensures Jammed(Next(c, w, e), slot, i, j)
  {
    SameHeld(c, w, e, slot);
  }

  lemma SameHeld(c: Cluster, w: World, e: Event, slot: Slot)
    requires Enabled(c, w, e) && NowhereDone(w, slot)
    requires !e.Examine? && !e.Begin? && !e.Default? && !e.Reject? && !e.End? && !e.Refresh? && !e.Relist?
             && !e.Restart?
    ensures NowhereDone(Next(c, w, e), slot)
  {
    var after := Next(c, w, e);
    if slot.key in after.flows {
      forall snap | Held(after.flows[slot.key], snap) ensures Held(w.flows[slot.key], snap) {
      }
    }
  }

  /** What these events bring has the statuses of what was held before, or none. */
  lemma FlowStepKeepsJam(c: Cluster, w: World, e: Event, slot: Slot, i: nat, j: nat)
    requires Enabled(c, w, e) && Jammed(w, slot, i, j)
    requires e.Begin? || e.Default? || e.Reject? || e.End? || e.Refresh? || e.Relist? || e.Restart?
    ensures Jammed(Next(c, w, e), slot, i, j)
  {
    var after := Next(c, w, e);
    if slot.key in after.flows {
      forall snap | Held(after.flows[slot.key], snap) ensures !Done(Read(snap.statuses), slot.step) {
        SameStatuses(c, w, e, slot.key, snap);
      }
    }
  }

  lemma SameStatuses(c: Cluster, w: World, e: Event, key: string, snap: Snapshot)
    requires Enabled(c, w, e) && key in w.flows && key in Next(c, w, e).flows && Held(Next(c, w, e).flows[key], snap)
    requires e.Begin? || e.Default? || e.Reject? || e.End? || e.Refresh? || e.Relist? || e.Restart?
    ensures Read(snap.statuses) == map[]
            || exists before :: Held(w.flows[key], before) && before.statuses == snap.statuses
  {
    var flow := w.flows[key];
    assert Held(flow, flow.cached);
    if flow.worker.Busy? {
      assert Held(flow, flow.worker.copy);
    }
    if Held(flow, snap) {
      assert snap.statuses == snap.statuses;
    }
  }

  lemma ExamineKeepsJam(c: Cluster, w: World, key: string, step: string, found: seq<nat>, slot: Slot, i: nat, j: nat)
    requires CanExamine(c, w, key, step, found) && Jammed(w, slot, i, j)
    requires Slot(key, step) == slot ==> !TurnOf(c, w, key, step, found).Write?
    ensures Jammed(AfterExamine(c, w, key, step, found), slot, i, j)
  {
    var after := AfterExamine(c, w, key, step, found);
    if slot.key == key {
      TurnAddsOnly(w.flows[key], step, TurnOf(c, w, key, step, found), slot.step);
    }
    assert slot.key in after.flows && slot.key != key ==> after.flows[slot.key] == w.flows[slot.key];
  }

  /** A turn of one step completes no other. */
  lemma TurnAddsOnly(flow: Flow, step: string, turn: Action, n: string)
    requires flow.worker.Busy? && (turn.Write? ==> n != step)
    requires forall snap :: Held(flow, snap) ==> !Done(Read(snap.statuses), n)
    ensures forall snap :: Held(AfterTurn(flow, step, turn), snap) ==> !Done(Read(snap.statuses), n)
  {
    assert Held(flow, flow.worker.copy) && Held(flow, flow.cached);
    forall snap | Held(AfterTurn(flow, step, turn), snap) ensures !Done(Read(snap.statuses), n) {
      if Held(flow, snap) {
      }
    }
  }

  /** A listing for a jammed step has at least two jobs, and the turn does nothing. */
  lemma TwoAreFound(c: Cluster, w: World, key: string, step: string, found: seq<nat>, i: nat, j: nat)
    requires WellFormed(c) && JobsInv(c, w.log, w.jobs) && StoreInv(w.jobs, w.store)
    requires CanExamine(c, w, key, step, found) && FlowInv(c, w.log, w.synced, key, w.flows[key])
             && Jammed(w, Slot(key, step), i, j)
    ensures TurnOf(c, w, key, step, found).Skip?
  {
    assert JobInv(c, w.log, w.jobs[i]);
    BothAreFound(c, w, key, step, found, i, j);
  }

  lemma BothAreFound(c: Cluster, w: World, key: string, step: string, found: seq<nat>, i: nat, j: nat)
    requires WellFormed(c) && JobsInv(c, w.log, w.jobs) && StoreInv(w.jobs, w.store)
             && CanExamine(c, w, key, step, found)
    requires IsSlot(c, Slot(key, step)) && WorkerOf(c, w, key).copy.labels == ValidatedLabels(c[key], true)
    requires i != j && i in w.store && j in w.store && w.jobs[i].slot == Slot(key, step)
             && w.jobs[j].slot == Slot(key, step)
    ensures TurnOf(c, w, key, step, found).Skip?
  {
    ListedAreOfSlot(c, w, Slot(key, step));
    assert i in Elems(found) && j in Elems(found);
    TwoAreSkipped(c, w, key, step, found, i, j);
  }

  lemma TwoAreSkipped(c: Cluster, w: World, key: string, step: string, found: seq<nat>, i: nat, j: nat)
    requires CanExamine(c, w, key, step, found) && i != j && i in found && j in found
    ensures TurnOf(c, w, key, step, found).Skip?
  {
    TurnOfFound(c, w, key, step, found);
  }

  /** Reachable, as far as the invariant tells, and jammed. */
  ghost predicate Lost(c: Cluster, w: World, slot: Slot, i: nat, j: nat) {
    Inv(c, w) && Jammed(w, slot, i, j)
  }

  lemma LostNext(c: Cluster, w: World, e: Event, after: World, slot: Slot, i: nat, j: nat)
    requires WellFormed(c) && Lost(c, w, slot, i, j) && IsStep(c, w, e, after)
    ensures Lost(c, after, slot, i, j)
  {
    assert e.Examine? ==> FlowInv(c, w.log, w.synced, e.key, w.flows[e.key]);
    JamKept(c, w, e, slot, i, j);
    StepKept(c, w, e);
  }

  lemma LostAt(c: Cluster, ws: seq<World>, es: seq<Event>, slot: Slot, i: nat, j: nat, k: nat)
    requires WellFormed(c) && IsPath(c, ws, es) && 0 < k < |ws|
    ensures Lost(c, ws[k - 1], slot, i, j) ==> Lost(c, ws[k], slot, i, j)
  {
    assert StepAt(c, ws, es, k - 1);
    if Lost(c, ws[k - 1], slot, i, j) {
      LostNext(c, ws[k - 1], es[k - 1], ws[k], slot, i, j);
    }
  }

  /** A jammed step stays incomplete in all that follows, timeouts and restarts included. */
  lemma LostForGood(c: Cluster, ws: seq<World>, es: seq<Event>, slot: Slot, i: nat, j: nat, k: nat)
    requires WellFormed(c) && IsPath(c, ws, es) && Lost(c, ws[0], slot, i, j) && k < |ws|
    ensures Lost(c, ws[k], slot, i, j)
  {
    var kept := (w: World) => Lost(c, w, slot, i, j);
    forall n | 0 < n < |ws| && kept(ws[n - 1]) ensures kept(ws[n]) {
      LostAt(c, ws, es, slot, i, j, n);
    }
    AllAlong(ws, kept, k);
  }

  // ---- The race jams a workflow ----

  lemma {:induction false} NothingFinishedAt(c: Cluster, ws: seq<World>, es: seq<Event>, k: nat)
    requires EarlyRun(c, ws, es) && k < |ws|
    ensures forall entry :: entry in ws[k].log ==> entry.JobCreated?
  {
    if k > 0 {
      NothingFinishedAt(c, ws, es, k - 1);
      assert IsStep(c, ws[k - 1], es[k - 1], ws[k]) && Early(es[k - 1]);
      EarlyStepCreates(c, ws[k - 1], es[k - 1]);
    }
  }

  lemma EarlyStepCreates(c: Cluster, w: World, e: Event)
    requires Enabled(c, w, e) && Early(e) && forall entry :: entry in w.log ==> entry.JobCreated?
    ensures forall entry :: entry in Next(c, w, e).log ==> entry.JobCreated?
  {
  }

  lemma NothingFinished(c: Cluster, w: World, slot: Slot)
    requires Reachable(c, w)
    ensures JobFinished(slot) !in w.log
  {
    var ws, es :| EarlyRun(c, ws, es) && ws[|es|] == w;
    NothingFinishedAt(c, ws, es, |es|);
  }

  /**
   * Every accepted, unpaused workflow of a single job step can be lost: there is a run, in no time and
   * without a restart, after which the step is never recorded complete in any continuation.
   */
  lemma RaceLosesWorkflow(c: Cluster, key: string, n: string) returns (w: World, i: nat, j: nat)
    requires OneStep(c, key, n)
    ensures Reachable(c, w) && Jammed(w, Slot(key, n), i, j)
    ensures forall ws, es :: IsPath(c, ws, es) && ws[0] == w ==> NowhereDone(ws[|es|], Slot(key, n))
  {
    var twice := TwoJobsWithoutExpiryOrRestart(c, key, n);
    i, j :| i != j && i in twice.jobs && j in twice.jobs && twice.jobs[i].slot == Slot(key, n)
      && twice.jobs[j].slot == Slot(key, n);
    var stored := AfterStoreJob(twice, i);
    ReachNext(c, twice, StoreJob(i), stored);
    w := AfterStoreJob(stored, j);
    ReachNext(c, stored, StoreJob(j), w);
    ReachableInv(c, w);
    NothingFinished(c, w, Slot(key, n));
    TwoStoredJobsJam(c, w, Slot(key, n), i, j);
    LostIsNowhereDone(c, w, Slot(key, n), i, j);
  }

  lemma LostIsNowhereDone(c: Cluster, w: World, slot: Slot, i: nat, j: nat)
    requires WellFormed(c) && Lost(c, w, slot, i, j)
    ensures forall ws, es :: IsPath(c, ws, es) && ws[0] == w ==> NowhereDone(ws[|es|], slot)
  {
    forall ws, es | IsPath(c, ws, es) && ws[0] == w ensures NowhereDone(ws[|es|], slot) {
      LostForGood(c, ws, es, slot, i, j, |es|);
    }
  }
}
