/**
 * When a workflow can still be completed, in every reachable world: exactly if some copy of it that can
 * come to be passed over, or that a pass can still send, has what defaulting makes and has recorded all
 * steps of which two jobs are listed.
 */
module Prospects {
  import opened Api
  import opened Scheduling
  import opened Protocol
  import opened ProtocolInvariants
  import opened ProtocolTheorems
  import opened Paths
  import opened Progress
  import opened Jams
  import opened Completion

  // ---- What a copy is worth ----

  /** Two jobs of the step are listed, so it is never recorded any more. */
  ghost predicate Choked(w: World, slot: Slot) {
    exists i, j :: Doubled(w, slot, i, j)
  }

  ghost function ChokedSteps(c: Cluster, w: World, key: string): set<string>
    requires key in c
  {
    set n | n in c[key].steps && Choked(w, Slot(key, n))
  }

  ghost predicate AllDoneOf(steps: set<string>, statuses: Statuses) {
    forall n :: n in steps ==> Done(statuses, n)
  }

  /** A pass over the copy can lead to completion. */
  ghost predicate Useful(choked: set<string>, snap: Snapshot) {
    !Poisoned(snap) && !snap.finished && AllDoneOf(choked, Read(snap.statuses))
  }

  /** The copies that the next pass may start from. */
  ghost predicate Candidate(flow: Flow, snap: Snapshot)
    requires flow.versions != []
  {
    || snap == Newest(flow)
    || snap == flow.cached
    || exists i :: flow.seen < i < |flow.versions| && flow.versions[i] == snap
  }

  /** The pass under way may find something to record at the step. */
  ghost predicate CanReport(steps: Steps, jobs: map<nat, ServerJob>, key: string, worker: Worker, n: string) {
    && worker.Busy? && n in worker.rest && n in steps && HasJob(jobs, Slot(key, n))
    && var statuses := Read(worker.copy.statuses);
       !Done(statuses, n) && DependenciesResolved(steps[n], statuses)
  }

  /** The pass under way may come to send a copy that can lead to completion. */
  ghost predicate CanSend(steps: Steps, jobs: map<nat, ServerJob>, key: string, worker: Worker, choked: set<string>) {
    && worker.Busy? && worker.copy.statuses.Some? && AllDoneOf(choked, Read(worker.copy.statuses))
    && (|| worker.changed
        || (worker.complete && AllComplete(steps, Read(worker.copy.statuses)))
        || exists n :: CanReport(steps, jobs, key, worker, n))
  }

  ghost predicate PromisingFlow(steps: Steps, jobs: map<nat, ServerJob>, key: string, flow: Flow, choked: set<string>)
    requires flow.versions != []
  {
    || Newest(flow).finished
    || (exists snap :: Candidate(flow, snap) && Useful(choked, snap))
    || CanSend(steps, jobs, key, flow.worker, choked)
  }

  ghost predicate Promising(c: Cluster, w: World, key: string)
    requires key in c
  {
    && key in w.flows && w.flows[key].versions != []
    && PromisingFlow(c[key].steps, w.jobs, key, w.flows[key], ChokedSteps(c, w, key))
  }

  // ---- What does not promise completion never does ----

  lemma ChokedGrows(c: Cluster, w: World, e: Event, key: string)
    requires key in c && SlotsInv(w) && Enabled(c, w, e)
    ensures ChokedSteps(c, w, key) <= ChokedSteps(c, Next(c, w, e), key)
  {
    forall n | n in ChokedSteps(c, w, key) ensures n in ChokedSteps(c, Next(c, w, e), key) {
      var i, j :| Doubled(w, Slot(key, n), i, j);
      DoubledKept(c, w, e, Slot(key, n), i, j);
    }
  }

  lemma MoreChoked(steps: Steps, jobs: map<nat, ServerJob>, key: string, flow: Flow, choked: set<string>,
      more: set<string>)
    requires flow.versions != [] && choked <= more && PromisingFlow(steps, jobs, key, flow, more)
    ensures PromisingFlow(steps, jobs, key, flow, choked)
  {
  }

  lemma RefreshedHopeless(steps: Steps, jobs: map<nat, ServerJob>, key: string, flow: Flow, choked: set<string>,
      version: nat)
    requires flow.versions != [] && !PromisingFlow(steps, jobs, key, flow, choked)
    requires version < |flow.versions| && (flow.seen < version || version + 1 == |flow.versions|)
    ensures !PromisingFlow(steps, jobs, key, Refreshed(flow, version), choked)
    ensures !PromisingFlow(steps, jobs, key, Refreshed(flow, version).(worker := Idle), choked)
  {
    var after := Refreshed(flow, version);
    assert Candidate(flow, after.cached);
    forall snap | Candidate(after, snap) ensures Candidate(flow, snap) {
    }
    forall n ensures CanReport(steps, jobs, key, after.worker, n) <==> CanReport(steps, jobs, key, flow.worker, n) {
    }
  }

  /** The flow after an event that replaces the cached workflow and may send a copy, neither of which is useful. */
  lemma SentHopeless(steps: Steps, jobs: map<nat, ServerJob>, key: string, flow: Flow, choked: set<string>,
                     cached: Snapshot, sent: Snapshot, accepted: bool)
    requires flow.versions != [] && !PromisingFlow(steps, jobs, key, flow, choked)
    requires !Useful(choked, cached) && (accepted ==> !Useful(choked, sent) && !sent.finished)
    ensures !PromisingFlow(steps, jobs, key, Updated(flow.(cached := cached, worker := Idle), sent, accepted), choked)
  {
    var after := Updated(flow.(cached := cached, worker := Idle), sent, accepted);
    forall snap | Candidate(after, snap) ensures Candidate(flow, snap) || snap == cached || (accepted && snap == sent) {
    }
  }

  lemma SameChoked(c: Cluster, w: World, after: World, key: string)
    requires key in c && after.jobs == w.jobs && after.store == w.store && after.synced == w.synced
    ensures ChokedSteps(c, after, key) == ChokedSteps(c, w, key)
  {
    forall slot ensures Choked(after, slot) <==> Choked(w, slot) {
      forall i, j ensures Doubled(after, slot, i, j) <==> Doubled(w, slot, i, j) {
      }
    }
  }

  lemma SetHopeless(c: Cluster, w: World, key: string, flow: Flow)
    requires key in c && flow.versions != []
    requires !PromisingFlow(c[key].steps, w.jobs, key, flow, ChokedSteps(c, w, key))
    ensures !Promising(c, SetFlow(w, key, flow), key)
  {
    SameChoked(c, w, SetFlow(w, key, flow), key);
  }

  lemma DefaultHopeless(c: Cluster, w: World, key: string, accepted: bool)
    requires WellFormed(c) && CanDefault(c, w, key) && FlowInv(c, w.log, w.synced, key, w.flows[key])
    requires !Promising(c, w, key)
    ensures !Promising(c, SetFlow(w, key, AfterDefault(c[key], w.flows[key], accepted)), key)
  {
    var flow, choked := w.flows[key], ChokedSteps(c, w, key);
    assert Candidate(flow, flow.cached) && Read(flow.cached.statuses) == map[];
    SentHopeless(c[key].steps, w.jobs, key, flow, choked, LeftByDefault(c[key], flow.cached), DefaultsOf(c[key]),
      accepted);
    SetHopeless(c, w, key, AfterDefault(c[key], flow, accepted));
  }

  lemma RejectHopeless(c: Cluster, w: World, key: string, accepted: bool)
    requires CanReject(c, w, key) && FlowInv(c, w.log, w.synced, key, w.flows[key]) && !Promising(c, w, key)
    ensures !Promising(c, SetFlow(w, key, AfterReject(w.flows[key], accepted)), key)
  {
    LabelKeysDiffer();
    var flow := w.flows[key];
    assert Candidate(flow, flow.cached);
    var labelled := Labelled(flow.cached, false);
    SentHopeless(c[key].steps, w.jobs, key, flow, ChokedSteps(c, w, key), labelled, labelled,
                 accepted && VALID_LABEL !in flow.cached.labels);
    SetHopeless(c, w, key, AfterReject(flow, accepted));
  }

  lemma BeginHopeless(c: Cluster, w: World, key: string)
    requires WellFormed(c) && CanBegin(c, w, key) && FlowInv(c, w.log, w.synced, key, w.flows[key])
             && !Promising(c, w, key)
    ensures !Promising(c, SetFlow(w, key, AfterBegin(c[key], w.flows[key])), key)
  {
    StartedIsAccepted(c, w, key);
    LabelKeysDiffer();
    var flow, copy := w.flows[key], Started(w.flows[key].cached);
    assert Candidate(flow, flow.cached) && !Useful(ChokedSteps(c, w, key), copy);
    SentHopeless(c[key].steps, w.jobs, key, flow, ChokedSteps(c, w, key), copy, copy, false);
    SameCandidates(flow.(cached := copy, worker := Idle), AfterBegin(c[key], flow));
    SetHopeless(c, w, key, AfterBegin(c[key], flow));
  }

  lemma SameCandidates(flow: Flow, after: Flow)
    requires flow.versions != [] && after == flow.(worker := after.worker)
    ensures forall snap :: Candidate(after, snap) <==> Candidate(flow, snap)
  {
  }

  /** Stages of a pass, and jobs that it does not come to any more. */
  lemma StageHopeless(steps: Steps, jobs: map<nat, ServerJob>, later: map<nat, ServerJob>, key: string, flow: Flow,
      after: Flow,
                      choked: set<string>)
    requires flow.versions != [] && !PromisingFlow(steps, jobs, key, flow, choked)
    requires after == flow.(worker := after.worker)
    requires after.worker.Busy? ==> flow.worker.Busy? && after.worker == flow.worker.(stage := after.worker.stage)
    requires flow.worker.Busy? ==>
               forall n :: n in flow.worker.rest && HasJob(later, Slot(key, n)) ==> HasJob(jobs, Slot(key, n))
    ensures !PromisingFlow(steps, later, key, after, choked)
  {
    SameCandidates(flow, after);
    if n :| CanReport(steps, later, key, after.worker, n) {
      assert CanReport(steps, jobs, key, flow.worker, n);
    }
  }

  lemma TurnHopeless(steps: Steps, jobs: map<nat, ServerJob>, key: string, flow: Flow, choked: set<string>,
      step: string, turn: Action)
    requires flow.versions != [] && !PromisingFlow(steps, jobs, key, flow, choked)
    requires flow.worker.Busy? && flow.worker.copy.hasSelector && step in flow.worker.rest && step in steps
             && Shares(flow)
    requires turn.Write? ==> step !in choked && CanReport(steps, jobs, key, flow.worker, step)
    ensures !PromisingFlow(steps, jobs, key, AfterTurn(flow, step, turn), choked)
  {
    var after := AfterTurn(flow, step, turn);
    assert Candidate(flow, flow.cached);
    if turn.Write? {
      if flow.worker.copy.statuses.Some? {
        assert !AllDoneOf(choked, Read(flow.worker.copy.statuses));
        assert !AllDoneOf(choked, Read(after.worker.copy.statuses));
      }
      forall snap | Candidate(after, snap) ensures Candidate(flow, snap) || snap == after.cached {
      }
    } else {
      SameCandidates(flow, after);
      if n :| CanReport(steps, jobs, key, after.worker, n) {
        assert CanReport(steps, jobs, key, flow.worker, n);
      }
    }
  }

  lemma OnlyStoredIsNotChoked(w: World, slot: Slot, id: nat)
    requires w.synced && OnlyStored(w.jobs, w.store, slot, id)
    ensures !Choked(w, slot)
  {
  }

  lemma ExamineHopeless(c: Cluster, w: World, key: string, step: string, found: seq<nat>)
    requires WellFormed(c) && Inv(c, w) && CanExamine(c, w, key, step, found) && !Promising(c, w, key)
    ensures !Promising(c, AfterExamine(c, w, key, step, found), key)
  {
    FlowKnown(c, w, key);
    var slot, turn := Slot(key, step), TurnOf(c, w, key, step, found);
    TurnMeaning(c, w, key, step, found);
    if turn.Write? {
      var id :| OnlyStored(w.jobs, w.store, slot, id);
      assert HasJob(w.jobs, slot);
      OnlyStoredIsNotChoked(w, slot, id);
    }
    TurnHopeless(c[key].steps, w.jobs, key, w.flows[key], ChokedSteps(c, w, key), step, turn);
    SetHopeless(c, w, key, AfterTurn(w.flows[key], step, turn));
  }

  /** A pass at its end that found everything complete would have a copy to send. */
  lemma NothingComplete(c: Cluster, w: World, key: string)
    requires CanEnd(c, w, key) && FlowInv(c, w.log, w.synced, key, w.flows[key])
    requires c[key].steps != map[] && !Promising(c, w, key)
    ensures !w.flows[key].worker.complete
  {
    var n :| n in c[key].steps;
  }

  lemma EndHopeless(c: Cluster, w: World, key: string, accepted: bool)
    requires Inv(c, w) && CanEnd(c, w, key) && c[key].steps != map[] && !Promising(c, w, key)
    ensures !Promising(c, SetFlow(w, key, AfterEnd(w.flows[key], accepted)), key)
  {
    FlowKnown(c, w, key);
    LabelKeysDiffer();
    var flow := w.flows[key];
    var worker := flow.worker;
    assert Candidate(flow, flow.cached);
    NothingComplete(c, w, key);
    SentHopeless(c[key].steps, w.jobs, key, flow, ChokedSteps(c, w, key), flow.cached,
                 worker.copy.(finished := worker.copy.finished || worker.complete), accepted
                   && (worker.changed || worker.complete));
    SetHopeless(c, w, key, AfterEnd(flow, accepted));
  }

  // The events of the workflow: those that start a pass or stand for one, those of the pass itself, and the refreshes.

  predicate Starts(e: Event, key: string) {
    (e.Default? || e.Reject? || e.Begin?) && e.key == key
  }

  predicate Passes(e: Event, key: string) {
    (e.Examine? || e.End?) && e.key == key
  }

  predicate Refreshes(e: Event, key: string) {
    e.Restart? || ((e.Refresh? || e.Relist?) && e.key == key)
  }

  lemma StartHopeless(c: Cluster, w: World, e: Event, key: string)
    requires WellFormed(c) && Inv(c, w) && Enabled(c, w, e) && key in c && !Promising(c, w, key)
    requires Starts(e, key)
    ensures !Promising(c, Next(c, w, e), key)
  {
    FlowKnown(c, w, key);
    match e
    case Default(_, accepted) => DefaultHopeless(c, w, key, accepted);
    case Reject(_, accepted) => RejectHopeless(c, w, key, accepted);
    case Begin(_) => BeginHopeless(c, w, key);
  }

  /** The pass does not come back to the step it has created a job for. */
  lemma NoJobsToCome(c: Cluster, w: World, e: Event, key: string, n: string)
    requires Enabled(c, w, e) && key in c && key in w.flows && w.flows[key].worker.Busy?
             && n in w.flows[key].worker.rest
    requires FlowInv(c, w.log, w.synced, key, w.flows[key]) && HasJob(Next(c, w, e).jobs, Slot(key, n))
    ensures HasJob(w.jobs, Slot(key, n))
  {
    var after := Next(c, w, e);
    var id :| id in after.jobs && after.jobs[id].slot == Slot(key, n);
    assert id in w.jobs && w.jobs[id].slot == Slot(key, n);
  }

  lemma OnlyStageMoves(c: Cluster, w: World, e: Event, key: string)
    requires Enabled(c, w, e) && key in w.flows && !Starts(e, key) && !Passes(e, key) && !Refreshes(e, key)
    ensures key in Next(c, w, e).flows
    ensures var flow, after := w.flows[key], Next(c, w, e).flows[key];
            || after == flow
            || (flow.worker.Busy? && after.worker.Busy?
                && after == flow.(worker := flow.worker.(stage := after.worker.stage)))
  {
  }

  lemma OtherHopeless(c: Cluster, w: World, e: Event, key: string)
    requires Inv(c, w) && Enabled(c, w, e) && key in c && !Promising(c, w, key)
    requires !Starts(e, key) && !Passes(e, key) && !Refreshes(e, key)
    ensures !Promising(c, Next(c, w, e), key)
  {
    FlowKnown(c, w, key);
    OnlyStageMoves(c, w, e, key);
    forall n | w.flows[key].worker.Busy? && n in w.flows[key].worker.rest && HasJob(Next(c, w, e).jobs, Slot(key, n))
      ensures HasJob(w.jobs, Slot(key, n))
    {
      NoJobsToCome(c, w, e, key, n);
    }
    StageHopeless(c[key].steps, w.jobs, Next(c, w, e).jobs, key, w.flows[key], Next(c, w, e).flows[key],
      ChokedSteps(c, w, key));
    LaterHopeless(c, w, e, key);
  }

  /** That more steps may be choked after the event does not help. */
  lemma LaterHopeless(c: Cluster, w: World, e: Event, key: string)
    requires key in c && SlotsInv(w) && Enabled(c, w, e) && key in Next(c, w, e).flows
             && Next(c, w, e).flows[key].versions != []
    requires !PromisingFlow(c[key].steps, Next(c, w, e).jobs, key, Next(c, w, e).flows[key], ChokedSteps(c, w, key))
    ensures !Promising(c, Next(c, w, e), key)
  {
    var after := Next(c, w, e);
    ChokedGrows(c, w, e, key);
    if Promising(c, after, key) {
      MoreChoked(c[key].steps, after.jobs, key, after.flows[key], ChokedSteps(c, w, key), ChokedSteps(c, after, key));
    }
  }

  lemma InformerHopeless(c: Cluster, w: World, e: Event, key: string)
    requires Inv(c, w) && Enabled(c, w, e) && Forward(w, e) && key in c && !Promising(c, w, key)
    requires Refreshes(e, key)
    ensures !Promising(c, Next(c, w, e), key)
  {
    FlowKnown(c, w, key);
    var flow := w.flows[key];
    var version := if e.Refresh? then e.version else |flow.versions| - 1;
    RefreshedHopeless(c[key].steps, w.jobs, key, flow, ChokedSteps(c, w, key), version);
    LaterHopeless(c, w, e, key);
  }

  lemma HopelessKept(c: Cluster, w: World, e: Event, key: string)
    requires WellFormed(c) && Inv(c, w) && Enabled(c, w, e) && Forward(w, e)
    requires key in c && c[key].steps != map[] && !Promising(c, w, key)
    ensures !Promising(c, Next(c, w, e), key)
  {
    if Starts(e, key) {
      StartHopeless(c, w, e, key);
    } else if Passes(e, key) {
      if e.Examine? {
        ExamineHopeless(c, w, key, e.step, e.found);
      } else {
        EndHopeless(c, w, key, e.accepted);
      }
    } else if Refreshes(e, key) {
      InformerHopeless(c, w, e, key);
    } else {
      OtherHopeless(c, w, e, key);
    }
  }

  ghost predicate Hopeless(c: Cluster, w: World, key: string) {
    Inv(c, w) && key in c && !Promising(c, w, key)
  }

  /** Whatever happens, with timeouts and restarts, as long as the workflow store moves forward. */
  lemma HopelessForGood(c: Cluster, ws: seq<World>, es: seq<Event>, key: string, k: nat)
    requires WellFormed(c) && ForwardPath(c, ws, es) && Hopeless(c, ws[0], key) && c[key].steps != map[] && k < |ws|
    ensures Hopeless(c, ws[k], key) && !Newest(ws[k].flows[key]).finished
  {
    var kept := (w: World) => Hopeless(c, w, key);
    forall i | 0 < i < |ws| && kept(ws[i - 1]) ensures kept(ws[i]) {
      assert Paths.StepAt(c, ws, es, i - 1);
      StepKept(c, ws[i - 1], es[i - 1]);
      HopelessKept(c, ws[i - 1], es[i - 1], key);
    }
    AllAlong(ws, kept, k);
    FlowKnown(c, ws[k], key);
  }

  ghost predicate CanComplete(c: Cluster, w: World, key: string) {
    exists after :: Leads(c, w, after) && key in after.flows && after.flows[key].versions != []
      && Newest(after.flows[key]).finished
  }

  lemma HopelessCannotComplete(c: Cluster, w: World, key: string)
    requires WellFormed(c) && Hopeless(c, w, key) && c[key].steps != map[]
    ensures !CanComplete(c, w, key)
  {
    forall after | Leads(c, w, after) && key in after.flows && after.flows[key].versions != []
      ensures !Newest(after.flows[key]).finished
    {
      var vs, fs :| CalmPath(c, vs, fs) && vs[0] == w && vs[|fs|] == after;
      HopelessForGood(c, vs, fs, key, |fs|);
    }
  }
}
