/**
 * The controller as interleaved steps: passes over workflow copies of any age, job creation, creation
 * expectations, the job informer, the clock, finishing jobs and controller restarts.
 */
module Protocol {
  import opened Prelude
  import opened Api
  import opened Jobs
  import opened Scheduling
  import opened Validation
  import opened Processing
  import Expectations

  // ---- The cluster ----

  /**
   * A workflow as submitted: which of its maps are there, and the outcomes of the checks that are not part
   * of this model.  Its steps stay as they are.
   */
  datatype Submission = Submission(
    namespace: string,
    uid: string,
    labels: Labels,
    hasLabels: bool,
    hasSelector: bool,
    hasStatuses: bool,
    deadline: Option<int>,
    steps: Steps,
    checks: Checks)

  /** Submissions by workflow key. */
  type Cluster = map<string, Submission>

  datatype Slot = Slot(key: string, step: string)

  /**
   * Keys of the controller are not set by users, UIDs are distinct, and no template overrides the UID
   * label.
   */
  ghost predicate WellFormed(c: Cluster) {
    && (forall k :: k in c ==> UID_LABEL !in c[k].labels && VALID_LABEL !in c[k].labels)
    && (forall k :: k in c && !c[k].hasLabels ==> c[k].labels == map[])
    && (forall k, n :: k in c && n in c[k].steps && c[k].steps[n].jobTemplate.Some? ==>
                         UID_LABEL !in c[k].steps[n].jobTemplate.value.labels)
    && forall k, l :: k in c && l in c && c[k].uid == c[l].uid ==> k == l
  }

  predicate IsSlot(c: Cluster, slot: Slot) {
    slot.key in c && slot.step in c[slot.key].steps && c[slot.key].steps[slot.step].jobTemplate.Some?
  }

  /** A workflow as the server, the cache or a pass holds it at one moment, apart from what never changes. */
  datatype Snapshot = Snapshot(labels: Labels, hasSelector: bool, statuses: Option<Statuses>, finished: bool)

  /** Reading a nil map reads an empty one. */
  function Read(statuses: Option<Statuses>): Statuses {
    if statuses.Some? then statuses.value else map[]
  }

  function Submitted(s: Submission): Snapshot {
    Snapshot(s.labels, s.hasSelector, if s.hasStatuses then Some(map[]) else None, false)
  }

  function WorkflowOf(s: Submission, snap: Snapshot): Workflow {
    Workflow("", s.namespace, s.uid, s.deadline, snap.labels, s.steps,
             if snap.hasSelector then Some(map[UID_LABEL := s.uid]) else None, Read(snap.statuses),
             if snap.finished then [COMPLETED] else [], None, None)
  }

  /** What the validator says of the workflow as it is held. */
  ghost predicate Verdict(s: Submission, snap: Snapshot) {
    s.checks.Passed() && ValidSpec(WorkflowOf(s, snap))
  }

  function IdentifiedLabels(s: Submission): Labels {
    s.labels[UID_LABEL := s.uid]
  }

  function ValidatedLabels(s: Submission, valid: bool): Labels {
    IdentifiedLabels(s)[VALID_LABEL := FormatBool(valid)]
  }

  /** What defaulting makes of a submission. */
  function DefaultsOf(s: Submission): Snapshot {
    Snapshot(IdentifiedLabels(s), true, Some(map[]), false)
  }

  /** The validator accepts the workflow once it has been defaulted. */
  ghost predicate Acceptable(s: Submission) {
    Verdict(s, DefaultsOf(s))
  }

  predicate Paused(labels: Labels) {
    PAUSE_LABEL in labels && labels[PAUSE_LABEL] == "true"
  }

  /** The labels of a job of the slot, and of the selector that looks for it. */
  function SlotLabels(c: Cluster, labels: Labels, slot: Slot): Labels
    requires IsSlot(c, slot)
  {
    JobLabels(labels, c[slot.key].steps[slot.step].jobTemplate.value, slot.step)
  }

  // ---- The state ----

  /** Where a pass is: between steps, or on the way from an empty listing to a recorded expectation. */
  datatype Stage = Ranging | FoundNone(step: string) | MayCreate(step: string) | MustExpect(step: string)

  /**
   * A worker owns its key while it passes over a copy of the workflow.  `attached` says that the cached
   * workflow still shares the maps of the copy; `changed` and `complete` are what the pass has found.
   */
  datatype Worker =
    | Idle
    | Busy(copy: Snapshot, rest: set<string>, stage: Stage, changed: bool, complete: bool, attached: bool)

  /**
   * One workflow: what the server has held of it, oldest first; the object in the workflow store, and which
   * of the versions it was read from; and the worker.
   */
  datatype Flow = Flow(versions: seq<Snapshot>, cached: Snapshot, seen: nat, worker: Worker)

  /** A job on the server; `slot` remembers what it was created for. */
  datatype ServerJob = ServerJob(slot: Slot, body: Job)

  datatype LogEntry = JobCreated(slot: Slot) | JobFinished(slot: Slot)

  datatype World = World(
    now: int,
    jobs: map<nat, ServerJob>,
    log: seq<LogEntry>,
    // the informer's view of the jobs
    store: map<nat, Job>,
    listing: Option<set<nat>>,
    synced: bool,
    expected: map<Slot, int>,
    flows: map<string, Flow>)

  function InitialFlow(s: Submission): Flow {
    Flow([Submitted(s)], Submitted(s), 0, Idle)
  }

  ghost predicate Initial(c: Cluster, w: World) {
    && w.jobs == map[] && w.log == [] && w.store == map[] && w.listing == None && !w.synced && w.expected == map[]
    && w.flows == map k | k in c :: InitialFlow(c[k])
  }

  function Newest(flow: Flow): Snapshot
    requires flow.versions != []
  {
    flow.versions[|flow.versions| - 1]
  }

  // ---- The steps ----

  datatype Event =
    | Tick(elapsed: nat)
    | Restart
    | InitialList
    | MarkSynced
    | StoreJob(id: nat)
    | ObserveJob(id: nat, key: string)
    | FinishJob(id: nat, failed: bool)
    | Refresh(key: string, version: nat)
    | Relist(key: string)
    | Default(key: string, accepted: bool)
    | Reject(key: string, accepted: bool)
    | Begin(key: string)
    | Examine(key: string, step: string, found: seq<nat>)
    | CheckExpectation(key: string)
    | CreateJob(key: string, id: nat, reference: Reference)
    | RefuseJob(key: string)
    | ExpectCreation(key: string)
    | End(key: string, accepted: bool)

  /** The stored jobs that a listing for the slot returns, when the pass carries `labels`. */
  ghost function Listed(c: Cluster, w: World, labels: Labels, slot: Slot): set<nat> {
    if IsSlot(c, slot) then
      set id | id in w.store && Selected(w.store[id], c[slot.key].namespace, SlotLabels(c, labels, slot))
    else {}
  }

  ghost function Bodies(w: World, ids: seq<nat>): seq<Job>
    requires Elems(ids) <= w.store.Keys
  {
    seq(|ids|, i requires 0 <= i < |ids| => assert ids[i] in Elems(ids); w.store[ids[i]])
  }

  predicate Satisfied(w: World, slot: Slot) {
    slot in w.expected ==> Expectations.IsExpired(w.expected[slot], w.now)
  }

  // Each event: when it can happen, and the world after it.

  // A refresh may bring any version that the server has held: a list may be on its way for long, and a
  // resync may queue an older object behind a newer one.

  function Detached(worker: Worker): Worker {
    if worker.Busy? then worker.(attached := false) else worker
  }

  predicate CanRefresh(w: World, key: string, version: nat) {
    key in w.flows && version < |w.flows[key].versions|
  }

  function Refreshed(flow: Flow, version: nat): Flow
    requires version < |flow.versions|
  {
    flow.(cached := flow.versions[version], seen := version, worker := Detached(flow.worker))
  }

  predicate CanRelist(w: World, key: string) {
    key in w.flows && w.flows[key].versions != []
  }

  function SetFlow(w: World, key: string, flow: Flow): World {
    w.(flows := w.flows[key := flow])
  }

  /** The controller loses everything it holds in memory, and lists the workflows anew. */
  function Restarted(flow: Flow): Flow {
    (if flow.versions == [] then flow else Refreshed(flow, |flow.versions| - 1)).(worker := Idle)
  }

  function AfterRestart(w: World): World {
    w.(store := map[], listing := None, synced := false, expected := map[],
       flows := map k | k in w.flows :: Restarted(w.flows[k]))
  }

  predicate CanMarkSynced(w: World) {
    w.listing.Some? && w.listing.value <= w.store.Keys
  }

  predicate CanStoreJob(w: World, id: nat) {
    w.listing.Some? && id in w.jobs
  }

  function AfterStoreJob(w: World, id: nat): World
    requires CanStoreJob(w, id)
  {
    w.(store := w.store[id := w.jobs[id].body])
  }

  /** The informer's handler looks up the workflow of a stored job by its selector. */
  predicate CanObserveJob(c: Cluster, w: World, id: nat, key: string) {
    && id in w.store && key in c && c[key].namespace == w.store[id].namespace
    && Matches(map[UID_LABEL := c[key].uid], w.store[id].labels) && STEP_LABEL in w.store[id].labels
  }

  function AfterObserveJob(c: Cluster, w: World, id: nat, key: string): World
    requires CanObserveJob(c, w, id, key)
  {
    w.(expected := w.expected - {Slot(key, w.store[id].labels[STEP_LABEL])})
  }

  predicate CanFinishJob(w: World, id: nat) {
    id in w.jobs && !IsJobFinished(w.jobs[id].body)
  }

  /** The job completes or fails. */
  function AfterFinishJob(w: World, id: nat, failed: bool): World
    requires CanFinishJob(w, id)
  {
    var job := w.jobs[id];
    var condition := JobCondition(if failed then JobFailed else JobComplete, ConditionTrue);
    w.(jobs := w.jobs[id := job.(body := job.body.(conditions := job.body.conditions + [condition]))],
       log := w.log + [JobFinished(job.slot)])
  }

  /** The preconditions of a pass over the cached workflow. */
  predicate CanStart(c: Cluster, w: World, key: string) {
    && key in c && key in w.flows && w.flows[key].worker.Idle? && w.synced
    && !w.flows[key].cached.finished && !Paused(w.flows[key].cached.labels)
  }

  /** An update that the server accepts makes a new version. */
  function Updated(flow: Flow, snap: Snapshot, accepted: bool): Flow {
    if accepted then flow.(versions := flow.versions + [snap]) else flow
  }

  predicate CanDefault(c: Cluster, w: World, key: string) {
    CanStart(c, w, key) && UID_LABEL !in w.flows[key].cached.labels
  }

  /** What the defaulting of a copy leaves of the cached workflow: a labels map that is there is shared. */
  function LeftByDefault(s: Submission, cached: Snapshot): Snapshot {
    if s.hasLabels then cached.(labels := cached.labels[UID_LABEL := s.uid]) else cached
  }

  function AfterDefault(s: Submission, flow: Flow, accepted: bool): Flow {
    var sent := Snapshot(flow.cached.labels[UID_LABEL := s.uid], true, Some(map[]), false);
    Updated(flow.(cached := LeftByDefault(s, flow.cached)), sent, accepted)
  }

  /** The labels of a workflow that has to be validated get a verdict in place. */
  function Labelled(snap: Snapshot, valid: bool): Snapshot {
    snap.(labels := snap.labels[VALID_LABEL := FormatBool(valid)])
  }

  ghost predicate CanReject(c: Cluster, w: World, key: string) {
    && CanStart(c, w, key) && UID_LABEL in w.flows[key].cached.labels
    && NeedsValidation(w.flows[key].cached.labels) && !Verdict(c[key], w.flows[key].cached)
  }

  /** A first negative verdict is sent to the server. */
  function AfterReject(flow: Flow, accepted: bool): Flow {
    var labelled := Labelled(flow.cached, false);
    Updated(flow.(cached := labelled), labelled, accepted && VALID_LABEL !in flow.cached.labels)
  }

  ghost predicate CanBegin(c: Cluster, w: World, key: string) {
    && CanStart(c, w, key) && UID_LABEL in w.flows[key].cached.labels
    && (NeedsValidation(w.flows[key].cached.labels) ==> Verdict(c[key], w.flows[key].cached))
  }

  /** The copy with which a pass gets to the step loop. */
  function Started(snap: Snapshot): Snapshot {
    if NeedsValidation(snap.labels) then Labelled(snap, true) else snap
  }

  function AfterBegin(s: Submission, flow: Flow): Flow {
    var copy := Started(flow.cached);
    flow.(cached := copy, worker := Busy(copy, s.steps.Keys, Ranging, NeedsValidation(flow.cached.labels), true, true))
  }

  predicate IsBusy(c: Cluster, w: World, key: string) {
    key in c && key in w.flows && w.flows[key].worker.Busy?
  }

  function WorkerOf(c: Cluster, w: World, key: string): Worker
    requires IsBusy(c, w, key)
  {
    w.flows[key].worker
  }

  ghost predicate CanExamine(c: Cluster, w: World, key: string, step: string, found: seq<nat>) {
    && IsBusy(c, w, key)
    && var worker := WorkerOf(c, w, key);
       && worker.stage.Ranging? && step in worker.rest && step in c[key].steps
       && Lists(found, Listed(c, w, worker.copy.labels, Slot(key, step)))
  }

  ghost function TurnOf(c: Cluster, w: World, key: string, step: string, found: seq<nat>): Action
    requires CanExamine(c, w, key, step, found)
  {
    Decide(c[key].steps, Read(WorkerOf(c, w, key).copy.statuses), step, Bodies(w, found))
  }

  /** The worker after it has gone on from a step. */
  function WentOn(worker: Worker, step: string): (after: Worker)
    requires worker.Busy?
    ensures after.Busy? && after.stage == worker.stage
  {
    worker.(rest := worker.rest - {step}, complete := worker.complete && Done(Read(worker.copy.statuses), step))
  }

  /** The report of a job goes to the statuses map, which the cached workflow may share; without one the pass dies. */
  function Written(flow: Flow, step: string, status: StepStatus): Flow
    requires flow.worker.Busy?
  {
    var worker := WentOn(flow.worker, step);
    if worker.copy.statuses.None? then flow.(worker := Idle)
    else
      var copy := worker.copy.(statuses := Some(worker.copy.statuses.value[step := status]));
      flow.(worker := worker.(copy := copy, changed := true), cached := if worker.attached then copy else flow.cached)
  }

  function AfterTurn(flow: Flow, step: string, turn: Action): Flow
    requires flow.worker.Busy?
  {
    match turn
    case Skip => flow.(worker := WentOn(flow.worker, step))
    case Create => flow.(worker := WentOn(flow.worker, step).(stage := FoundNone(step)))
    case Write(status) => Written(flow, step, status)
  }

  ghost function AfterExamine(c: Cluster, w: World, key: string, step: string, found: seq<nat>): World
    requires CanExamine(c, w, key, step, found)
  {
    SetFlow(w, key, AfterTurn(w.flows[key], step, TurnOf(c, w, key, step, found)))
  }

  predicate CanCheck(c: Cluster, w: World, key: string) {
    IsBusy(c, w, key) && WorkerOf(c, w, key).stage.FoundNone?
  }

  function AtStage(w: World, key: string, stage: Stage): World
    requires key in w.flows && w.flows[key].worker.Busy?
  {
    SetFlow(w, key, w.flows[key].(worker := w.flows[key].worker.(stage := stage)))
  }

  /** The expectation check lets the pass go on to the job or back to the next step. */
  function AfterCheck(c: Cluster, w: World, key: string): World
    requires CanCheck(c, w, key)
  {
    var step := WorkerOf(c, w, key).stage.step;
    AtStage(w, key, if Satisfied(w, Slot(key, step)) then MayCreate(step) else Ranging)
  }

  predicate CanCreate(c: Cluster, w: World, key: string) {
    IsBusy(c, w, key) && WorkerOf(c, w, key).stage.MayCreate? && IsSlot(c, Slot(key, WorkerOf(c, w, key).stage.step))
  }

  function AfterCreate(c: Cluster, w: World, key: string, id: nat, reference: Reference): World
    requires CanCreate(c, w, key)
  {
    var slot := Slot(key, WorkerOf(c, w, key).stage.step);
    var body := Job(c[key].namespace, SlotLabels(c, WorkerOf(c, w, key).copy.labels, slot), [], Some(reference));
    AtStage(w.(jobs := w.jobs[id := ServerJob(slot, body)], log := w.log + [JobCreated(slot)]), key,
      MustExpect(slot.step))
  }

  predicate CanExpect(c: Cluster, w: World, key: string) {
    IsBusy(c, w, key) && WorkerOf(c, w, key).stage.MustExpect?
  }

  function AfterExpect(c: Cluster, w: World, key: string): World
    requires CanExpect(c, w, key)
  {
    AtStage(w.(expected := w.expected[Slot(key, WorkerOf(c, w, key).stage.step) := w.now]), key, Ranging)
  }

  predicate CanEnd(c: Cluster, w: World, key: string) {
    IsBusy(c, w, key) && WorkerOf(c, w, key).stage.Ranging? && WorkerOf(c, w, key).rest == {}
  }

  /** A pass that found all steps complete adds the Complete condition; a pass that changed something updates. */
  function AfterEnd(flow: Flow, accepted: bool): Flow
    requires flow.worker.Busy?
  {
    var worker := flow.worker;
    Updated(flow.(worker := Idle), worker.copy.(finished := worker.copy.finished || worker.complete),
            accepted && (worker.changed || worker.complete))
  }

  ghost predicate Enabled(c: Cluster, w: World, e: Event) {
    match e
    case Tick(_) => true
    case Restart => true
    case InitialList => w.listing.None?
    case MarkSynced => CanMarkSynced(w)
    case StoreJob(id) => CanStoreJob(w, id)
    case ObserveJob(id, key) => CanObserveJob(c, w, id, key)
    case FinishJob(id, _) => CanFinishJob(w, id)
    case Refresh(key, version) => CanRefresh(w, key, version)
    case Relist(key) => CanRelist(w, key)
    case Default(key, _) => CanDefault(c, w, key)
    case Reject(key, _) => CanReject(c, w, key)
    case Begin(key) => CanBegin(c, w, key)
    case Examine(key, step, found) => CanExamine(c, w, key, step, found)
    case CheckExpectation(key) => CanCheck(c, w, key)
    case CreateJob(key, id, _) => CanCreate(c, w, key) && id !in w.jobs
    case RefuseJob(key) => CanCreate(c, w, key)
    case ExpectCreation(key) => CanExpect(c, w, key)
    case End(key, _) => CanEnd(c, w, key)
  }

  ghost function Next(c: Cluster, w: World, e: Event): World
    requires Enabled(c, w, e)
  {
    match e
    case Tick(elapsed) => w.(now := w.now + elapsed)
    case Restart => AfterRestart(w)
    case InitialList => w.(listing := Some(w.jobs.Keys))
    case MarkSynced => w.(synced := true)
    case StoreJob(id) => AfterStoreJob(w, id)
    case ObserveJob(id, key) => AfterObserveJob(c, w, id, key)
    case FinishJob(id, failed) => AfterFinishJob(w, id, failed)
    case Refresh(key, version) => SetFlow(w, key, Refreshed(w.flows[key], version))
    case Relist(key) => SetFlow(w, key, Refreshed(w.flows[key], |w.flows[key].versions| - 1))
    case Default(key, accepted) => SetFlow(w, key, AfterDefault(c[key], w.flows[key], accepted))
    case Reject(key, accepted) => SetFlow(w, key, AfterReject(w.flows[key], accepted))
    case Begin(key) => SetFlow(w, key, AfterBegin(c[key], w.flows[key]))
    case Examine(key, step, found) => AfterExamine(c, w, key, step, found)
    case CheckExpectation(key) => AfterCheck(c, w, key)
    case CreateJob(key, id, reference) => AfterCreate(c, w, key, id, reference)
    case RefuseJob(key) => AtStage(w, key, Ranging)
    case ExpectCreation(key) => AfterExpect(c, w, key)
    case End(key, accepted) => SetFlow(w, key, AfterEnd(w.flows[key], accepted))
  }

  /** No time passes and nothing restarts. */
  predicate Calm(e: Event) {
    !e.Tick? && !e.Restart?
  }

  /**
   * Refreshes go forward through the versions.  No safety property needs this; where a run is said to
   * exist it is one with this order, and where a workflow is said to be lost it is lost to such runs.
   */
  predicate Forward(w: World, e: Event) {
    e.Refresh? && e.key in w.flows ==> w.flows[e.key].seen < e.version
  }

  ghost predicate IsStep(c: Cluster, w: World, e: Event, after: World) {
    Enabled(c, w, e) && after == Next(c, w, e)
  }

  /** A run: worlds and the events between them, from an initial world. */
  ghost predicate IsRun(c: Cluster, ws: seq<World>, es: seq<Event>) {
    && WellFormed(c) && |ws| == |es| + 1 && Initial(c, ws[0])
    && forall i, j :: 0 <= i && i + 1 == j < |ws| ==> IsStep(c, ws[i], es[i], ws[j])
  }

  // ---- What every reachable world satisfies ----

  /** Labels are those submitted, then with the UID, then with a verdict that is true only of acceptable workflows. */
  ghost predicate KnownLabels(s: Submission, labels: Labels) {
    || labels == s.labels
    || labels == IdentifiedLabels(s)
    || labels == ValidatedLabels(s, false)
    || (labels == ValidatedLabels(s, true) && Acceptable(s))
  }

  /** A step is recorded complete only if a job of it has finished. */
  ghost predicate Sound(log: seq<LogEntry>, key: string, statuses: Statuses) {
    forall n :: Done(statuses, n) ==> JobFinished(Slot(key, n)) in log
  }

  predicate AllComplete(steps: Steps, statuses: Statuses) {
    forall n :: n in steps ==> Done(statuses, n)
  }

  /**
   * A workflow without the UID label is as it was submitted; one with a positive verdict has a selector; a
   * finished one has all steps complete.
   */
  ghost predicate SnapInv(c: Cluster, log: seq<LogEntry>, key: string, snap: Snapshot)
    requires key in c
  {
    && KnownLabels(c[key], snap.labels)
    && (UID_LABEL !in snap.labels ==> snap == Submitted(c[key]))
    && (!NeedsValidation(snap.labels) ==> snap.hasSelector)
    && Sound(log, key, Read(snap.statuses))
    && (snap.finished ==> AllComplete(c[key].steps, Read(snap.statuses)))
  }

  /** On the way to a job, the step has a template and its dependencies are complete in the copy. */
  ghost predicate StageInv(c: Cluster, key: string, statuses: Statuses, stage: Stage) {
    stage.Ranging? ||
    (IsSlot(c, Slot(key, stage.step)) && DependenciesResolved(c[key].steps[stage.step], statuses)
      && !Done(statuses, stage.step))
  }

  /** A pass has an accepted copy; what it calls complete is complete, as far as it has come. */
  ghost predicate WorkerInv(c: Cluster, log: seq<LogEntry>, synced: bool, key: string, worker: Worker)
    requires key in c
  {
    worker.Busy? ==>
      var statuses := Read(worker.copy.statuses);
      && synced && Acceptable(c[key]) && !Paused(c[key].labels) && worker.rest <= c[key].steps.Keys
      && worker.copy.labels == ValidatedLabels(c[key], true) && worker.copy.hasSelector && !worker.copy.finished
      && Sound(log, key, statuses)
      && StageInv(c, key, statuses, worker.stage)
      && (worker.stage.Ranging? || worker.stage.step !in worker.rest)
      && (worker.complete ==> forall n :: n in c[key].steps && n !in worker.rest ==> Done(statuses, n))
  }

  /** A copy that shares its maps with the cached workflow is equal to it. */
  ghost predicate FlowInv(c: Cluster, log: seq<LogEntry>, synced: bool, key: string, flow: Flow)
    requires key in c
  {
    && flow.seen < |flow.versions|
    && (forall snap :: snap in flow.versions ==> SnapInv(c, log, key, snap))
    && SnapInv(c, log, key, flow.cached)
    && WorkerInv(c, log, synced, key, flow.worker)
    && (flow.worker.Busy? && flow.worker.attached ==> flow.cached == flow.worker.copy)
  }

  ghost predicate FlowsInv(c: Cluster, log: seq<LogEntry>, synced: bool, flows: map<string, Flow>) {
    flows.Keys == c.Keys && forall k :: k in c ==> FlowInv(c, log, synced, k, flows[k])
  }

  ghost predicate JobInv(c: Cluster, log: seq<LogEntry>, job: ServerJob) {
    && IsSlot(c, job.slot) && Acceptable(c[job.slot.key]) && !Paused(c[job.slot.key].labels)
    && job.body.namespace == c[job.slot.key].namespace && job.body.reference.Some?
    && job.body.labels == SlotLabels(c, ValidatedLabels(c[job.slot.key], true), job.slot)
    && JobCreated(job.slot) in log
    && (job.body.conditions == [] || IsJobFinished(job.body))
    && (IsJobFinished(job.body) ==> JobFinished(job.slot) in log)
  }

  ghost predicate JobsInv(c: Cluster, log: seq<LogEntry>, jobs: map<nat, ServerJob>) {
    forall id :: id in jobs ==> JobInv(c, log, jobs[id])
  }

  ghost predicate HasJob(jobs: map<nat, ServerJob>, slot: Slot) {
    exists id :: id in jobs && jobs[id].slot == slot
  }

  /** A job is created after jobs of all its dependencies have finished, and finishes after it is created. */
  ghost predicate EntryInv(c: Cluster, before: seq<LogEntry>, entry: LogEntry) {
    var slot := entry.slot;
    && IsSlot(c, slot) && Acceptable(c[slot.key])
    && match entry
       case JobCreated(_) =>
         forall d :: d in c[slot.key].steps[slot.step].dependencies ==> JobFinished(Slot(slot.key, d)) in before
       case JobFinished(_) => JobCreated(slot) in before
  }

  ghost predicate LogInv(c: Cluster, log: seq<LogEntry>) {
    forall i :: 0 <= i < |log| ==> EntryInv(c, log[..i], log[i])
  }

  /** The informer's copy is the job as it is, or as it was created. */
  ghost predicate StoredInv(job: Job, stored: Job) {
    stored == job || stored == job.(conditions := [])
  }

  ghost predicate StoreInv(jobs: map<nat, ServerJob>, store: map<nat, Job>) {
    forall id :: id in store ==> id in jobs && StoredInv(jobs[id].body, store[id])
  }

  ghost predicate ExpectInv(jobs: map<nat, ServerJob>, expected: map<Slot, int>) {
    forall slot :: slot in expected ==> HasJob(jobs, slot)
  }

  /** The worker of the slot has created its job and not yet recorded the expectation. */
  ghost predicate InGap(flows: map<string, Flow>, slot: Slot) {
    slot.key in flows && flows[slot.key].worker.Busy? && flows[slot.key].worker.stage == MustExpect(slot.step)
  }

  ghost predicate HasStored(jobs: map<nat, ServerJob>, store: map<nat, Job>, slot: Slot) {
    exists id :: id in store && id in jobs && jobs[id].slot == slot
  }

  /** Every slot that has a job has one in the store, is expected, or is in the gap. */
  ghost predicate Covered(jobs: map<nat, ServerJob>, store: map<nat, Job>, expected: map<Slot, int>, flows: map<string,
      Flow>) {
    forall slot :: HasJob(jobs, slot) ==> HasStored(jobs, store, slot) || slot in expected || InGap(flows, slot)
  }

  /** What is known of workflows, workers and jobs in terms of the log. */
  ghost predicate HistoryInv(c: Cluster, w: World) {
    && FlowsInv(c, w.log, w.synced, w.flows)
    && JobsInv(c, w.log, w.jobs)
    && LogInv(c, w.log)
  }

  /** Where the jobs of each slot show. */
  ghost predicate SlotsInv(w: World) {
    && StoreInv(w.jobs, w.store)
    && ExpectInv(w.jobs, w.expected)
    && (w.synced ==> Covered(w.jobs, w.store, w.expected, w.flows))
    && (forall slot :: slot in w.expected ==> w.expected[slot] <= w.now)
    && (forall slot :: InGap(w.flows, slot) ==> HasJob(w.jobs, slot))
    && (w.synced ==> w.listing.Some?)
    // no job is created between the initial listing and the end of its delivery
    && (!w.synced && w.listing.Some? ==> w.listing.value == w.jobs.Keys)
  }

  ghost predicate Inv(c: Cluster, w: World) {
    HistoryInv(c, w) && SlotsInv(w)
  }
}
