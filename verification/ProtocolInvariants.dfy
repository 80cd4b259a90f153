/** Every step of the protocol keeps the invariant, so every reachable world satisfies it. */
module ProtocolInvariants {
  import opened Prelude
  import opened Api
  import opened Jobs
  import opened Scheduling
  import opened Processing
  import opened Protocol

  // ---- Labels identify slots ----

  /** A submission once it has been validated, as a workflow. */
  ghost function AsWorkflow(s: Submission): Workflow {
    WorkflowOf(s, Snapshot(ValidatedLabels(s, true), true, Some(map[]), false))
  }

  lemma IdentifiedAsWorkflow(c: Cluster, key: string)
    requires WellFormed(c) && key in c
    ensures Identified(AsWorkflow(c[key]))
  {
    LabelKeysDiffer();
  }

  /** What the validator accepts and rejects depends only on the submission and on whether there is a selector. */
  lemma VerdictIff(s: Submission, snap: Snapshot)
    ensures Verdict(s, snap) <==> Acceptable(s) && snap.hasSelector
  {
  }

  /** The job has the namespace and the labels of the slot it was created for. */
  ghost predicate LabelledFor(c: Cluster, slot: Slot, job: Job) {
    && IsSlot(c, slot) && job.namespace == c[slot.key].namespace
    && job.labels == SlotLabels(c, ValidatedLabels(c[slot.key], true), slot)
  }

  lemma SelectorOfSlot(c: Cluster, slot: Slot, other: Slot, job: Job)
    requires WellFormed(c) && LabelledFor(c, slot, job) && IsSlot(c, other)
    ensures Selected(job, c[other.key].namespace, SlotLabels(c, ValidatedLabels(c[other.key], true), other))
            <==> slot == other
  {
    IdentifiedAsWorkflow(c, slot.key);
    IdentifiedAsWorkflow(c, other.key);
    SelectedByItsPairOnly(AsWorkflow(c[slot.key]), slot.step, AsWorkflow(c[other.key]), other.step, job);
  }

  lemma OwnerOfSlot(c: Cluster, slot: Slot, key: string, job: Job)
    requires WellFormed(c) && LabelledFor(c, slot, job) && key in c
    requires c[key].namespace == job.namespace && Matches(map[UID_LABEL := c[key].uid], job.labels)
    ensures STEP_LABEL in job.labels && Slot(key, job.labels[STEP_LABEL]) == slot
  {
    IdentifiedAsWorkflow(c, slot.key);
    IdentifiedAsWorkflow(c, key);
    OwnsOnlyItsJobs(AsWorkflow(c[key]), AsWorkflow(c[slot.key]), slot.step, job);
  }

  lemma StoredIsLabelled(c: Cluster, w: World, id: nat)
    requires JobsInv(c, w.log, w.jobs) && StoreInv(w.jobs, w.store) && id in w.store
    ensures LabelledFor(c, w.jobs[id].slot, w.store[id])
  {
    assert StoredInv(w.jobs[id].body, w.store[id]);
    assert JobInv(c, w.log, w.jobs[id]);
  }

  /** A listing for a slot returns exactly the stored jobs that were created for it. */
  lemma ListedAreOfSlot(c: Cluster, w: World, slot: Slot)
    requires WellFormed(c) && JobsInv(c, w.log, w.jobs) && StoreInv(w.jobs, w.store) && IsSlot(c, slot)
    ensures Listed(c, w, ValidatedLabels(c[slot.key], true), slot) == set id | id in w.store && w.jobs[id].slot == slot
  {
    forall id | id in w.store
      ensures Selected(w.store[id], c[slot.key].namespace, SlotLabels(c, ValidatedLabels(c[slot.key], true), slot))
              <==> w.jobs[id].slot == slot
    {
      StoredIsLabelled(c, w, id);
      SelectorOfSlot(c, w.jobs[id].slot, slot, w.store[id]);
    }
  }

  // ---- Growth ----

  lemma SoundGrows(log: seq<LogEntry>, entry: LogEntry, key: string, statuses: Statuses)
    requires Sound(log, key, statuses)
    ensures Sound(log + [entry], key, statuses)
  {
    assert forall e :: e in log ==> e in log + [entry];
  }

  lemma SnapGrows(c: Cluster, log: seq<LogEntry>, entry: LogEntry, key: string, snap: Snapshot)
    requires key in c && SnapInv(c, log, key, snap)
    ensures SnapInv(c, log + [entry], key, snap)
  {
    SoundGrows(log, entry, key, Read(snap.statuses));
  }

  lemma FlowGrows(c: Cluster, log: seq<LogEntry>, entry: LogEntry, synced: bool, key: string, flow: Flow)
    requires key in c && FlowInv(c, log, synced, key, flow)
    ensures FlowInv(c, log + [entry], synced, key, flow)
  {
    forall snap | snap in flow.versions ensures SnapInv(c, log + [entry], key, snap) {
      SnapGrows(c, log, entry, key, snap);
    }
    SnapGrows(c, log, entry, key, flow.cached);
    if flow.worker.Busy? {
      SoundGrows(log, entry, key, Read(flow.worker.copy.statuses));
    }
  }

  lemma JobsGrow(c: Cluster, log: seq<LogEntry>, entry: LogEntry, jobs: map<nat, ServerJob>)
    requires JobsInv(c, log, jobs)
    ensures JobsInv(c, log + [entry], jobs)
  {
    assert forall e :: e in log ==> e in log + [entry];
    forall id | id in jobs ensures JobInv(c, log + [entry], jobs[id]) {
      assert JobInv(c, log, jobs[id]);
    }
  }

  lemma LogSnoc(c: Cluster, before: seq<LogEntry>, entry: LogEntry)
    requires LogInv(c, before) && EntryInv(c, before, entry)
    ensures LogInv(c, before + [entry])
  {
    var log := before + [entry];
    forall i | 0 <= i < |log| ensures EntryInv(c, log[..i], log[i]) {
      if i < |before| {
        assert log[..i] == before[..i] && EntryInv(c, before[..i], before[i]);
      } else {
        assert log[..i] == before;
      }
    }
  }

  lemma LogGrows(c: Cluster, w: World, entry: LogEntry)
    requires HistoryInv(c, w) && EntryInv(c, w.log, entry)
    ensures HistoryInv(c, w.(log := w.log + [entry]))
  {
    forall k | k in c ensures FlowInv(c, w.log + [entry], w.synced, k, w.flows[k]) {
      FlowGrows(c, w.log, entry, w.synced, k, w.flows[k]);
    }
    JobsGrow(c, w.log, entry, w.jobs);
    LogSnoc(c, w.log, entry);
  }

  // ---- Each event keeps the invariant ----

  lemma RestartedKept(c: Cluster, log: seq<LogEntry>, synced: bool, key: string, flow: Flow)
    requires key in c && FlowInv(c, log, synced, key, flow)
    ensures FlowInv(c, log, false, key, Restarted(flow))
  {
  }

  lemma RestartHistory(c: Cluster, w: World)
    requires HistoryInv(c, w)
    ensures HistoryInv(c, AfterRestart(w))
  {
    forall k | k in c ensures FlowInv(c, w.log, false, k, AfterRestart(w).flows[k]) {
      RestartedKept(c, w.log, w.synced, k, w.flows[k]);
    }
  }

  lemma RestartKept(c: Cluster, w: World)
    requires Inv(c, w)
    ensures Inv(c, AfterRestart(w))
  {
    RestartHistory(c, w);
    assert forall slot :: !InGap(AfterRestart(w).flows, slot);
  }

  lemma MarkSyncedKept(c: Cluster, w: World)
    requires Inv(c, w) && CanMarkSynced(w)
    ensures Inv(c, w.(synced := true))
  {
    forall k | k in c ensures FlowInv(c, w.log, true, k, w.flows[k]) {
      assert FlowInv(c, w.log, w.synced, k, w.flows[k]);
    }
  }

  lemma StoreJobKept(c: Cluster, w: World, id: nat)
    requires Inv(c, w) && CanStoreJob(w, id)
    ensures Inv(c, AfterStoreJob(w, id))
  {
    StoreJobSlots(w, id);
  }

  lemma StoreJobSlots(w: World, id: nat)
    requires SlotsInv(w) && CanStoreJob(w, id)
    ensures SlotsInv(AfterStoreJob(w, id))
  {
    var store := w.store[id := w.jobs[id].body];
    forall slot | HasStored(w.jobs, w.store, slot) ensures HasStored(w.jobs, store, slot) {
      var i :| i in w.store && i in w.jobs && w.jobs[i].slot == slot;
      assert i in store;
    }
  }

  lemma ObserveJobKept(c: Cluster, w: World, id: nat, key: string)
    requires WellFormed(c) && Inv(c, w) && CanObserveJob(c, w, id, key)
    ensures Inv(c, AfterObserveJob(c, w, id, key))
  {
    StoredIsLabelled(c, w, id);
    OwnerOfSlot(c, w.jobs[id].slot, key, w.store[id]);
    ObserveSlots(w, w.jobs[id].slot);
  }

  /** An expectation may go once a job of the slot is stored. */
  lemma ObserveSlots(w: World, slot: Slot)
    requires SlotsInv(w) && HasStored(w.jobs, w.store, slot)
    ensures SlotsInv(w.(expected := w.expected - {slot}))
  {
  }

  lemma FinishJobKept(c: Cluster, w: World, id: nat, failed: bool)
    requires Inv(c, w) && CanFinishJob(w, id)
    ensures Inv(c, AfterFinishJob(w, id, failed))
  {
    assert JobInv(c, w.log, w.jobs[id]);
    FinishJobHistory(c, w, id, failed);
    FinishJobSlots(w, id, failed);
  }

  lemma FinishJobHistory(c: Cluster, w: World, id: nat, failed: bool)
    requires HistoryInv(c, w) && CanFinishJob(w, id)
    ensures HistoryInv(c, AfterFinishJob(w, id, failed))
  {
    assert JobInv(c, w.log, w.jobs[id]);
    LogGrows(c, w, JobFinished(w.jobs[id].slot));
    FinishedJob(c, w, id, failed);
    JobReplaced(c, AfterFinishJob(w, id, failed).log, w.jobs, id, AfterFinishJob(w, id, failed).jobs[id]);
  }

  lemma FinishedJob(c: Cluster, w: World, id: nat, failed: bool)
    requires CanFinishJob(w, id) && JobInv(c, w.log, w.jobs[id])
    ensures JobInv(c, AfterFinishJob(w, id, failed).log, AfterFinishJob(w, id, failed).jobs[id])
  {
    var after := AfterFinishJob(w, id, failed);
    assert after.log[|w.log|] == JobFinished(w.jobs[id].slot);
    var conditions := after.jobs[id].body.conditions;
    assert conditions[|conditions| - 1] in conditions;
    assert forall e :: e in w.log ==> e in after.log;
  }

  lemma JobReplaced(c: Cluster, log: seq<LogEntry>, jobs: map<nat, ServerJob>, id: nat, job: ServerJob)
    requires JobsInv(c, log, jobs) && JobInv(c, log, job)
    ensures JobsInv(c, log, jobs[id := job])
  {
    var after := jobs[id := job];
    forall i | i in after ensures JobInv(c, log, after[i]) {
      assert i in jobs ==> JobInv(c, log, jobs[i]);
    }
  }

  lemma FinishJobSlots(w: World, id: nat, failed: bool)
    requires SlotsInv(w) && CanFinishJob(w, id) && w.jobs[id].body.conditions == []
    ensures SlotsInv(AfterFinishJob(w, id, failed))
  {
    var after := AfterFinishJob(w, id, failed);
    var body := after.jobs[id].body;
    assert body.conditions[|body.conditions| - 1] in body.conditions;
    assert IsJobFinished(body);
    SameSlots(w.jobs, after.jobs, w.store);
  }

  /** A change to the jobs that keeps their slots keeps what is known by slot. */
  lemma SameSlots(jobs: map<nat, ServerJob>, after: map<nat, ServerJob>, store: map<nat, Job>)
    requires jobs.Keys == after.Keys && forall id :: id in jobs ==> jobs[id].slot == after[id].slot
    ensures forall slot :: HasJob(jobs, slot) <==> HasJob(after, slot)
    ensures forall slot :: HasStored(jobs, store, slot) <==> HasStored(after, store, slot)
  {
    forall slot ensures HasJob(jobs, slot) <==> HasJob(after, slot) {
      if id :| id in jobs && jobs[id].slot == slot {
        assert after[id].slot == slot;
      }
    }
    forall slot ensures HasStored(jobs, store, slot) <==> HasStored(after, store, slot) {
      if id :| id in store && id in jobs && jobs[id].slot == slot {
        assert after[id].slot == slot;
      }
    }
  }

  // What the server, the cache and the worker come to hold of a workflow.

  lemma FlowReplaced(c: Cluster, w: World, key: string, flow: Flow)
    requires HistoryInv(c, w) && key in c && FlowInv(c, w.log, w.synced, key, flow)
    ensures HistoryInv(c, SetFlow(w, key, flow))
  {
  }

  predicate AtGap(worker: Worker) {
    worker.Busy? && worker.stage.MustExpect?
  }

  lemma SlotsReplaced(w: World, key: string, flow: Flow)
    requires SlotsInv(w) && key in w.flows
    requires !AtGap(w.flows[key].worker) && !AtGap(flow.worker)
    ensures SlotsInv(SetFlow(w, key, flow))
  {
    assert forall slot :: InGap(w.flows, slot) <==> InGap(SetFlow(w, key, flow).flows, slot);
  }

  /** Outside the gap, replacing the flow of a workflow keeps the invariant if the new one does. */
  lemma Replaced(c: Cluster, w: World, key: string, flow: Flow)
    requires Inv(c, w) && key in c && FlowInv(c, w.log, w.synced, key, flow)
    requires !AtGap(w.flows[key].worker) && !AtGap(flow.worker)
    ensures Inv(c, SetFlow(w, key, flow))
  {
    FlowReplaced(c, w, key, flow);
    SlotsReplaced(w, key, flow);
  }

  lemma UpdatedKept(c: Cluster, log: seq<LogEntry>, synced: bool, key: string, flow: Flow, snap: Snapshot,
      accepted: bool)
    requires key in c && FlowInv(c, log, synced, key, flow) && SnapInv(c, log, key, snap)
    ensures FlowInv(c, log, synced, key, Updated(flow, snap, accepted))
  {
  }

  /** A refresh detaches the worker, wherever it is. */
  lemma RefreshKept(c: Cluster, w: World, key: string, version: nat)
    requires Inv(c, w) && key in w.flows && version < |w.flows[key].versions|
    ensures Inv(c, SetFlow(w, key, Refreshed(w.flows[key], version)))
  {
    assert FlowInv(c, w.log, w.synced, key, w.flows[key]);
    FlowReplaced(c, w, key, Refreshed(w.flows[key], version));
    RefreshSlots(w, key, version);
  }

  lemma RefreshSlots(w: World, key: string, version: nat)
    requires SlotsInv(w) && key in w.flows && version < |w.flows[key].versions|
    ensures SlotsInv(SetFlow(w, key, Refreshed(w.flows[key], version)))
  {
    var after := SetFlow(w, key, Refreshed(w.flows[key], version));
    assert forall slot :: InGap(w.flows, slot) <==> InGap(after.flows, slot);
  }

  lemma DefaultKept(c: Cluster, w: World, key: string, accepted: bool)
    requires WellFormed(c) && Inv(c, w) && CanDefault(c, w, key)
    ensures Inv(c, SetFlow(w, key, AfterDefault(c[key], w.flows[key], accepted)))
  {
    LabelKeysDiffer();
    var flow := w.flows[key];
    assert FlowInv(c, w.log, w.synced, key, flow);
    UpdatedKept(c, w.log, w.synced, key, flow.(cached := LeftByDefault(c[key], flow.cached)), DefaultsOf(c[key]),
      accepted);
    Replaced(c, w, key, AfterDefault(c[key], flow, accepted));
  }

  lemma LabelledIsKnown(c: Cluster, log: seq<LogEntry>, key: string, snap: Snapshot, valid: bool)
    requires WellFormed(c) && key in c && SnapInv(c, log, key, snap) && UID_LABEL in snap.labels
             && NeedsValidation(snap.labels)
    requires valid ==> Acceptable(c[key]) && snap.hasSelector
    ensures Labelled(snap, valid).labels == ValidatedLabels(c[key], valid)
    ensures SnapInv(c, log, key, Labelled(snap, valid))
  {
    LabelKeysDiffer();
    FormatBoolDiffers();
  }

  lemma RejectKept(c: Cluster, w: World, key: string, accepted: bool)
    requires WellFormed(c) && Inv(c, w) && CanReject(c, w, key)
    ensures Inv(c, SetFlow(w, key, AfterReject(w.flows[key], accepted)))
  {
    var flow := w.flows[key];
    assert FlowInv(c, w.log, w.synced, key, flow);
    var labelled := Labelled(flow.cached, false);
    LabelledIsKnown(c, w.log, key, flow.cached, false);
    UpdatedKept(c, w.log, w.synced, key, flow.(cached := labelled), labelled,
                accepted && VALID_LABEL !in flow.cached.labels);
    Replaced(c, w, key, AfterReject(flow, accepted));
  }

  /** A pass gets to the step loop only with a positive verdict, and rightly so. */
  lemma StartedIsAccepted(c: Cluster, w: World, key: string)
    requires WellFormed(c) && CanBegin(c, w, key) && SnapInv(c, w.log, key, w.flows[key].cached)
    ensures Acceptable(c[key]) && !Paused(c[key].labels)
            && Started(w.flows[key].cached).labels == ValidatedLabels(c[key], true)
    ensures SnapInv(c, w.log, key, Started(w.flows[key].cached)) && Started(w.flows[key].cached).hasSelector
  {
    LabelKeysDiffer();
    FormatBoolDiffers();
    if NeedsValidation(w.flows[key].cached.labels) {
      VerdictIff(c[key], w.flows[key].cached);
      LabelledIsKnown(c, w.log, key, w.flows[key].cached, true);
    }
  }

  lemma BeginKept(c: Cluster, w: World, key: string)
    requires WellFormed(c) && Inv(c, w) && CanBegin(c, w, key)
    ensures Inv(c, SetFlow(w, key, AfterBegin(c[key], w.flows[key])))
  {
    assert FlowInv(c, w.log, w.synced, key, w.flows[key]);
    StartedIsAccepted(c, w, key);
    Replaced(c, w, key, AfterBegin(c[key], w.flows[key]));
  }

  lemma ExamineKept(c: Cluster, w: World, key: string, step: string, found: seq<nat>)
    requires WellFormed(c) && Inv(c, w) && CanExamine(c, w, key, step, found)
    ensures Inv(c, AfterExamine(c, w, key, step, found))
  {
    var turn := TurnOf(c, w, key, step, found);
    assert FlowInv(c, w.log, w.synced, key, w.flows[key]);
    if turn.Write? {
      ReportIsSound(c, w, key, step, found);
    }
    TurnKept(c, w.log, w.synced, key, w.flows[key], step, turn);
    Replaced(c, w, key, AfterTurn(w.flows[key], step, turn));
  }

  lemma TurnKept(c: Cluster, log: seq<LogEntry>, synced: bool, key: string, flow: Flow, step: string, turn: Action)
    requires key in c && FlowInv(c, log, synced, key, flow)
    requires flow.worker.Busy? && flow.worker.stage.Ranging? && step in flow.worker.rest && step in c[key].steps
    requires var statuses := Read(flow.worker.copy.statuses);
             && (turn.Write? || turn.Create? ==> !Done(statuses, step))
             && (turn.Create? ==>
                   c[key].steps[step].jobTemplate.Some? && DependenciesResolved(c[key].steps[step], statuses))
             && (turn.Write? && turn.status.complete ==> JobFinished(Slot(key, step)) in log)
    ensures FlowInv(c, log, synced, key, AfterTurn(flow, step, turn))
  {
    LabelKeysDiffer();
  }

  lemma EndKept(c: Cluster, w: World, key: string, accepted: bool)
    requires Inv(c, w) && CanEnd(c, w, key)
    ensures Inv(c, SetFlow(w, key, AfterEnd(w.flows[key], accepted)))
  {
    var flow := w.flows[key];
    assert FlowInv(c, w.log, w.synced, key, flow);
    EndedIsSound(c, w.log, w.synced, key, flow);
    UpdatedKept(c, w.log, w.synced, key, flow.(worker := Idle),
                flow.worker.copy.(finished := flow.worker.copy.finished || flow.worker.complete),
                accepted && (flow.worker.changed || flow.worker.complete));
    Replaced(c, w, key, AfterEnd(flow, accepted));
  }

  /** A pass that ends calls the workflow finished only if all steps are complete. */
  lemma EndedIsSound(c: Cluster, log: seq<LogEntry>, synced: bool, key: string, flow: Flow)
    requires key in c && FlowInv(c, log, synced, key, flow) && flow.worker.Busy? && flow.worker.rest == {}
    ensures SnapInv(c, log, key, flow.worker.copy.(finished := flow.worker.copy.finished || flow.worker.complete))
  {
    LabelKeysDiffer();
  }

  /** A status that a turn writes is complete only if the listed job, which is of the step, has finished. */
  lemma ReportIsSound(c: Cluster, w: World, key: string, step: string, found: seq<nat>)
    requires WellFormed(c) && Inv(c, w) && CanExamine(c, w, key, step, found)
    requires TurnOf(c, w, key, step, found).Write?
    ensures TurnOf(c, w, key, step, found).status.complete ==> JobFinished(Slot(key, step)) in w.log
  {
    assert FlowInv(c, w.log, w.synced, key, w.flows[key]);
    ListedAreOfSlot(c, w, Slot(key, step));
    var id := found[0];
    assert id in Elems(found);
    assert StoredInv(w.jobs[id].body, w.store[id]);
    assert JobInv(c, w.log, w.jobs[id]);
  }

  /** Moving between the stages outside the gap. */
  lemma StageKept(c: Cluster, w: World, key: string, stage: Stage)
    requires Inv(c, w) && IsBusy(c, w, key) && !AtGap(w.flows[key].worker)
    requires stage.Ranging?
             || (!WorkerOf(c, w, key).stage.Ranging? && stage == MayCreate(WorkerOf(c, w, key).stage.step))
    ensures Inv(c, AtStage(w, key, stage))
  {
    assert FlowInv(c, w.log, w.synced, key, w.flows[key]);
    Replaced(c, w, key, w.flows[key].(worker := w.flows[key].worker.(stage := stage)));
  }

  lemma CreateKept(c: Cluster, w: World, key: string, id: nat, reference: Reference)
    requires Inv(c, w) && CanCreate(c, w, key) && id !in w.jobs
    ensures Inv(c, AfterCreate(c, w, key, id, reference))
  {
    assert FlowInv(c, w.log, w.synced, key, w.flows[key]);
    CreateHistory(c, w, key, id, reference);
    CreateSlots(c, w, key, id, reference);
  }

  lemma CreateHistory(c: Cluster, w: World, key: string, id: nat, reference: Reference)
    requires HistoryInv(c, w) && CanCreate(c, w, key) && id !in w.jobs
    ensures HistoryInv(c, AfterCreate(c, w, key, id, reference))
  {
    var slot := Slot(key, WorkerOf(c, w, key).stage.step);
    var after := AfterCreate(c, w, key, id, reference);
    assert FlowInv(c, w.log, w.synced, key, w.flows[key]);
    LogGrows(c, w, JobCreated(slot));
    assert after.log[|w.log|] == JobCreated(slot);
    JobReplaced(c, after.log, w.jobs, id, after.jobs[id]);
    var logged := w.(log := after.log);
    assert FlowInv(c, logged.log, w.synced, key, w.flows[key]);
    FlowReplaced(c, logged, key, after.flows[key]);
  }

  lemma CreateSlots(c: Cluster, w: World, key: string, id: nat, reference: Reference)
    requires SlotsInv(w) && CanCreate(c, w, key) && id !in w.jobs && w.synced
    ensures SlotsInv(AfterCreate(c, w, key, id, reference))
  {
    var slot := Slot(key, WorkerOf(c, w, key).stage.step);
    var after := AfterCreate(c, w, key, id, reference);
    JobAdded(w.jobs, w.store, id, after.jobs[id]);
    assert forall other :: InGap(after.flows, other) <==> InGap(w.flows, other) || other == slot;
  }

  lemma JobAdded(jobs: map<nat, ServerJob>, store: map<nat, Job>, id: nat, job: ServerJob)
    requires id !in jobs
    ensures forall slot :: HasJob(jobs[id := job], slot) <==> HasJob(jobs, slot) || slot == job.slot
    ensures forall slot :: HasStored(jobs, store, slot) ==> HasStored(jobs[id := job], store, slot)
  {
    var after := jobs[id := job];
    forall slot ensures HasJob(after, slot) <==> HasJob(jobs, slot) || slot == job.slot {
      if i :| i in jobs && jobs[i].slot == slot {
        assert i in after && after[i].slot == slot;
      } else if slot == job.slot {
        assert id in after && after[id].slot == slot;
      }
    }
    forall slot | HasStored(jobs, store, slot) ensures HasStored(after, store, slot) {
      var i :| i in store && i in jobs && jobs[i].slot == slot;
      assert i in after && after[i].slot == slot;
    }
  }

  lemma ExpectKept(c: Cluster, w: World, key: string)
    requires Inv(c, w) && CanExpect(c, w, key)
    ensures Inv(c, AfterExpect(c, w, key))
  {
    assert FlowInv(c, w.log, w.synced, key, w.flows[key]);
    FlowReplaced(c, w, key, AfterExpect(c, w, key).flows[key]);
    ExpectSlots(c, w, key);
  }

  lemma ExpectSlots(c: Cluster, w: World, key: string)
    requires SlotsInv(w) && CanExpect(c, w, key)
    ensures SlotsInv(AfterExpect(c, w, key))
  {
    var after, slot := AfterExpect(c, w, key), Slot(key, WorkerOf(c, w, key).stage.step);
    assert InGap(w.flows, slot);
    assert forall other :: InGap(w.flows, other) <==> InGap(after.flows, other) || other == slot;
  }

  /** The clock, the server's jobs, restarts and the initial listing. */
  lemma OuterStepKept(c: Cluster, w: World, e: Event)
    requires Inv(c, w) && Enabled(c, w, e)
    requires e.Tick? || e.FinishJob? || e.Restart? || e.InitialList? || e.MarkSynced?
    ensures Inv(c, Next(c, w, e))
  {
    match e
    case Tick(_) =>
    case FinishJob(id, failed) => FinishJobKept(c, w, id, failed);
    case Restart => RestartKept(c, w);
    case InitialList =>
    case MarkSynced => MarkSyncedKept(c, w);
  }

  /** The job informer. */
  lemma JobInformerKept(c: Cluster, w: World, e: Event)
    requires WellFormed(c) && Inv(c, w) && Enabled(c, w, e) && (e.StoreJob? || e.ObserveJob?)
    ensures Inv(c, Next(c, w, e))
  {
    match e
    case StoreJob(id) => StoreJobKept(c, w, id);
    case ObserveJob(id, key) => ObserveJobKept(c, w, id, key);
  }

  /** The workflow informer. */
  lemma WorkflowInformerKept(c: Cluster, w: World, e: Event)
    requires Inv(c, w) && Enabled(c, w, e) && (e.Refresh? || e.Relist?)
    ensures Inv(c, Next(c, w, e))
  {
    var version := if e.Refresh? then e.version else |w.flows[e.key].versions| - 1;
    RefreshKept(c, w, e.key, version);
    assert Next(c, w, e) == SetFlow(w, e.key, Refreshed(w.flows[e.key], version));
  }

  /** The start of a pass. */
  lemma StartStepKept(c: Cluster, w: World, e: Event)
    requires WellFormed(c) && Inv(c, w) && Enabled(c, w, e)
    requires e.Default? || e.Reject? || e.Begin?
    ensures Inv(c, Next(c, w, e))
  {
    match e
    case Default(key, accepted) => DefaultKept(c, w, key, accepted);
    case Reject(key, accepted) => RejectKept(c, w, key, accepted);
    case Begin(key) => BeginKept(c, w, key);
  }

  /** The turns of a pass and its end. */
  lemma PassStepKept(c: Cluster, w: World, e: Event)
    requires WellFormed(c) && Inv(c, w) && Enabled(c, w, e) && (e.Examine? || e.End?)
    ensures Inv(c, Next(c, w, e))
  {
    match e
    case Examine(key, step, found) => ExamineKept(c, w, key, step, found);
    case End(key, accepted) => EndKept(c, w, key, accepted);
  }

  /** The way from an empty listing to a recorded expectation. */
  lemma LaunchStepKept(c: Cluster, w: World, e: Event)
    requires Inv(c, w) && Enabled(c, w, e)
    requires e.CheckExpectation? || e.CreateJob? || e.RefuseJob? || e.ExpectCreation?
    ensures Inv(c, Next(c, w, e))
  {
    match e
    case CheckExpectation(key) =>
      var step := WorkerOf(c, w, key).stage.step;
      StageKept(c, w, key, if Satisfied(w, Slot(key, step)) then MayCreate(step) else Ranging);
    case CreateJob(key, id, reference) => CreateKept(c, w, key, id, reference);
    case RefuseJob(key) => StageKept(c, w, key, Ranging);
    case ExpectCreation(key) => ExpectKept(c, w, key);
  }

  lemma FlowKnown(c: Cluster, w: World, key: string)
    requires Inv(c, w) && key in c
    ensures key in w.flows && w.flows[key].versions != [] && FlowInv(c, w.log, w.synced, key, w.flows[key])
  {
  }

  lemma InitialInv(c: Cluster, w: World)
    requires WellFormed(c) && Initial(c, w)
    ensures Inv(c, w)
  {
    forall k | k in c ensures FlowInv(c, w.log, w.synced, k, w.flows[k]) {
      assert w.flows[k] == InitialFlow(c[k]);
    }
  }

  /** Every world of a run satisfies the invariant. */
  lemma {:induction false} RunInv(c: Cluster, ws: seq<World>, es: seq<Event>, i: nat)
    requires IsRun(c, ws, es) && i < |ws|
    ensures Inv(c, ws[i])
  {
    if i == 0 {
      InitialInv(c, ws[0]);
    } else {
      RunInv(c, ws, es, i - 1);
      assert IsStep(c, ws[i - 1], es[i - 1], ws[i]);
      StepKept(c, ws[i - 1], es[i - 1]);
    }
  }

  lemma StepKept(c: Cluster, w: World, e: Event)
    requires WellFormed(c) && Inv(c, w) && Enabled(c, w, e)
    ensures Inv(c, Next(c, w, e))
  {
    if e.Tick? || e.FinishJob? || e.Restart? || e.InitialList? || e.MarkSynced? {
      OuterStepKept(c, w, e);
    } else if e.StoreJob? || e.ObserveJob? {
      JobInformerKept(c, w, e);
    } else if e.Refresh? || e.Relist? {
      WorkflowInformerKept(c, w, e);
    } else if e.Default? || e.Reject? || e.Begin? {
      StartStepKept(c, w, e);
    } else if e.Examine? || e.End? {
      PassStepKept(c, w, e);
    } else {
      LaunchStepKept(c, w, e);
    }
  }
}
