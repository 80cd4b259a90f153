/**
 * The transitioner at work on objects: what one call does to the workflow, its cached original, the jobs
 * and the expectations.
 */
module TransitionerModel {
  import opened Prelude
  import opened Api
  import opened Jobs
  import opened Validation
  import opened Scheduling
  import opened Processing
  import opened Objects
  import opened Expectations

  /** The key of a workflow in queue, store and expectations. */
  function KeyOf(namespace: string, name: string): string {
    if namespace == "" then name else namespace + "/" + name
  }

  /** Two workflows have different keys; neither namespaces nor names contain a slash. */
  lemma KeysDiffer(namespace: string, name: string, otherNamespace: string, otherName: string)
    requires '/' !in namespace && '/' !in name && '/' !in otherNamespace && '/' !in otherName
    ensures KeyOf(namespace, name) == KeyOf(otherNamespace, otherName) <==>
            namespace == otherNamespace && name == otherName
  {
    SlashOfKey(namespace, name);
    SlashOfKey(otherNamespace, otherName);
    var key, other := KeyOf(namespace, name), KeyOf(otherNamespace, otherName);
    assert namespace != "" ==> key[|namespace|] == '/';
    assert otherNamespace != "" ==> other[|otherNamespace|] == '/';
    if key == KeyOf(otherNamespace, otherName) && namespace != "" {
      assert key[..|namespace|] == namespace && key[..|otherNamespace|] == otherNamespace;
      assert key[|namespace| + 1..] == name && key[|otherNamespace| + 1..] == otherName;
    }
  }

  lemma SlashOfKey(namespace: string, name: string)
    requires '/' !in namespace && '/' !in name
    ensures var key := KeyOf(namespace, name);
            if namespace == "" then '/' !in key
            else |namespace| < |key| && forall i :: 0 <= i < |key| ==> (key[i] == '/' <==> i == |namespace|)
  {
    var key := KeyOf(namespace, name);
    if namespace != "" {
      forall i | 0 <= i < |key| ensures key[i] == '/' <==> i == |namespace| {
        assert i < |namespace| ==> key[i] == namespace[i];
        assert i > |namespace| ==> key[i] == name[i - |namespace| - 1];
      }
    }
  }

  const NO_TEMPLATE := JobTemplate(map[], "")

  function TemplateOf(steps: Steps, n: string): JobTemplate {
    if n in steps && steps[n].jobTemplate.Some? then steps[n].jobTemplate.value else NO_TEMPLATE
  }

  /** The job created for a step; its name is given by the server. */
  function NewJob(env: Env, n: string): Job {
    Job(env.namespace, JobLabels(env.labels, TemplateOf(env.steps, n), n), [], None)
  }

  /** Jobs created so far; `refused` in a call says that the server does not take the job. */
  class JobControl {
    var created: seq<Job>

    method CreateJob(namespace: string, template: JobTemplate, workflowLabels: Labels, n: string, refused: bool)
      returns (ok: bool)
      modifies this
      ensures ok == !refused
      ensures created ==
              old(created) + if ok then [Job(namespace, JobLabels(workflowLabels, template, n), [], None)] else []
    {
      var labels := GetWorkflowJobLabelSet(workflowLabels, template, n);
      ok := !refused;
      if ok {
        created := created + [Job(namespace, labels, [], None)];
      }
    }
  }

  ghost function JobsFor(env: Env, launched: seq<string>): seq<Job> {
    seq(|launched|, i requires 0 <= i < |launched| => NewJob(env, launched[i]))
  }

  ghost function ExpectedFor(key: string, launched: seq<string>, now: int): seq<Operation> {
    seq(|launched|, i requires 0 <= i < |launched| => Expected(key, launched[i], now))
  }

  lemma {:induction false} LaunchesAreFromOrder(env: Env, order: seq<string>, statuses: Statuses, blocked: set<string>)
    requires Elems(order) <= env.steps.Keys
    ensures Elems(Launches(env, order, statuses, blocked)) <= Elems(order)
  {
    if order != [] {
      assert Elems(order[..|order| - 1]) <= Elems(order) && order[|order| - 1] in Elems(order);
      LaunchesAreFromOrder(env, order[..|order| - 1], statuses, blocked);
    }
  }

  class Transitioner {
    const expectations: WorkflowStepExpectations
    const jobControl: JobControl
    var workflowStore: map<string, WorkflowObject>
    var jobStore: seq<Job>

    constructor (expectations: WorkflowStepExpectations, jobControl: JobControl)
      ensures this.expectations == expectations && this.jobControl == jobControl
      ensures workflowStore == map[] && jobStore == []
    {
      this.expectations, this.jobControl := expectations, jobControl;
      workflowStore, jobStore := map[], [];
    }

    /** The expectation of the step has expired or is not there. */
    ghost predicate Satisfied(key: string, n: string, now: int)
      reads expectations
    {
      !Awaited(expectations.history, key, n, now)
    }

    method CreateJobForStep(w: WorkflowObject, n: string, refused: bool, now: int) returns (ghost launched: bool)
      requires w.Valid() && expectations.Valid()
      requires n in w.steps && w.steps[n].jobTemplate.Some?
      modifies expectations, jobControl
      ensures expectations.Valid()
      ensures launched <==> old(Satisfied(KeyOf(w.namespace, w.name), n, now)) && !refused
      ensures launched ==>
                && jobControl.created == old(jobControl.created) + [NewJob(EnvOf(w.View(), jobStore), n)]
                && expectations.history == old(expectations.history) + [Expected(KeyOf(w.namespace, w.name), n, now)]
      ensures !launched ==>
                jobControl.created == old(jobControl.created) && expectations.history == old(expectations.history)
    {
      var key := KeyOf(w.namespace, w.name);
      var satisfied := expectations.ExpectationsForStepSatisfied(key, n, now);
      if !satisfied {
        return false;
      }
      var ok := jobControl.CreateJob(w.namespace, w.steps[n].jobTemplate.value, w.View().labels, n, refused);
      if !ok {
        return false;
      }
      expectations.ExpectCreation(key, n, now);
      return true;
    }

    /** `panicked` says that the job's report was written to a nil map, which fails. */
    method UpdateStepStatus(w: WorkflowObject, n: string, job: Job) returns (changed: bool, panicked: bool)
      requires w.Valid() && n in w.steps
      modifies w.statuses
      ensures panicked <==> w.statuses == null && Report(map[], n, job).Write?
      ensures !panicked ==> changed == Report(old(w.StatusEntries()), n, job).Write?
      ensures !panicked ==>
              w.StatusEntries() == Apply(old(w.StatusEntries()), n, Report(old(w.StatusEntries()), n, job))
      ensures changed ==>
                && n in w.StatusEntries() && Some(w.StatusEntries()[n].reference) == job.reference
                && (w.StatusEntries()[n].complete <==>
                    exists i :: 0 <= i < |job.conditions| && job.conditions[i].status == ConditionTrue
                                && job.conditions[i].conditionType in {JobComplete, JobFailed})
    {
      if job.reference.None? {
        return false, false;
      }
      var jobFinished := JobEnded(job);
      if n in w.StatusEntries() && jobFinished == w.StatusEntries()[n].complete {
        return false, false;
      }
      if w.statuses == null {
        return false, true;
      }
      w.statuses.entries := w.statuses.entries[n := StepStatus(jobFinished, job.reference.value)];
      return true, false;
    }

    /** The jobs that carry the labels of the workflow and the step. */
    method JobsOfStep(w: WorkflowObject, n: string) returns (items: seq<Job>)
      requires w.Valid() && n in w.steps && w.steps[n].jobTemplate.Some?
      ensures items == Found(EnvOf(w.View(), jobStore), n)
    {
      var selector := GetWorkflowJobLabelSet(w.View().labels, w.steps[n].jobTemplate.value, n);
      items := List(jobStore, w.namespace, selector);
    }

    method ProcessJobStep(w: WorkflowObject, n: string, refused: bool, now: int)
      returns (changed: bool, panicked: bool, ghost launched: bool)
      requires w.Valid() && expectations.Valid()
      requires n in w.steps && w.steps[n].jobTemplate.Some? && !Done(w.StatusEntries(), n)
      modifies w.statuses, expectations, jobControl
      ensures expectations.Valid()
      ensures var turn := Turn(EnvOf(old(w.View()), jobStore), old(w.StatusEntries()), n);
              && panicked == (w.statuses == null && turn.Write?)
              && (!panicked ==> changed == turn.Write? && w.StatusEntries() == Apply(old(w.StatusEntries()), n, turn))
              && launched == (turn.Create? && old(Satisfied(KeyOf(w.namespace, w.name), n, now)) && !refused)
      ensures launched ==>
                && jobControl.created == old(jobControl.created) + [NewJob(EnvOf(old(w.View()), jobStore), n)]
                && expectations.history == old(expectations.history) + [Expected(KeyOf(w.namespace, w.name), n, now)]
      ensures !launched ==>
                jobControl.created == old(jobControl.created) && expectations.history == old(expectations.history)
    {
      changed, panicked, launched := false, false, false;
      var resolved := Resolved(w.steps[n], w.StatusEntries());
      if !resolved {
        return;
      }
      var items := JobsOfStep(w, n);
      if |items| == 0 {
        launched := CreateJobForStep(w, n, refused, now);
      } else if |items| == 1 {
        changed, panicked := UpdateStepStatus(w, n, items[0]);
      }
    }

    /** One turn: the body of the loop over the steps. */
    method ProcessStep(w: WorkflowObject, n: string, refused: bool, now: int)
      returns (changed: bool, done: bool, panicked: bool, ghost launched: bool)
      requires w.Valid() && expectations.Valid() && n in w.steps
      modifies w.statuses, expectations, jobControl
      ensures expectations.Valid()
      ensures done == Done(old(w.StatusEntries()), n)
      ensures var turn := Turn(EnvOf(old(w.View()), jobStore), old(w.StatusEntries()), n);
              && panicked == (w.statuses == null && turn.Write?)
              && (!panicked ==> changed == turn.Write? && w.StatusEntries() == Apply(old(w.StatusEntries()), n, turn))
              && launched == (turn.Create? && old(Satisfied(KeyOf(w.namespace, w.name), n, now)) && !refused)
      ensures launched ==>
                && jobControl.created == old(jobControl.created) + [NewJob(EnvOf(old(w.View()), jobStore), n)]
                && expectations.history == old(expectations.history) + [Expected(KeyOf(w.namespace, w.name), n, now)]
      ensures !launched ==>
                jobControl.created == old(jobControl.created) && expectations.history == old(expectations.history)
    {
      done := Done(w.StatusEntries(), n);
      if done || w.steps[n].jobTemplate.None? {
        return false, done, false, false;
      }
      changed, panicked, launched := ProcessJobStep(w, n, refused, now);
    }

    /** The loop over the steps, in some order.  It ends early at a step whose report cannot be written. */
    method RangeOverSteps(w: WorkflowObject, refused: set<string>, now: int)
      returns (changed: bool, workflowComplete: bool, panicked: bool, ghost order: seq<string>,
        ghost launched: seq<string>)
      requires w.Valid() && expectations.Valid()
      modifies w.statuses, expectations, jobControl
      ensures expectations.Valid()
      ensures NoDup(order) && Elems(order) <= w.steps.Keys && (!panicked ==> Elems(order) == w.steps.Keys)
      ensures var start := StartOf(old(w.View()), jobStore, refused, now, old(jobControl.created),
              old(expectations.history));
              && panicked == (w.statuses == null && Writes(start.env, order, start.statuses))
              && (!panicked ==> Reached(start, order, w.StatusEntries(), changed, workflowComplete))
              && Launched(start, order, launched, jobControl.created, expectations.history)
    {
      ghost var start := StartOf(w.View(), jobStore, refused, now, jobControl.created, expectations.history);
      changed, panicked, order, launched := false, false, [], [];
      workflowComplete := true;
      var rest := w.steps.Keys;
      while rest != {}
        invariant rest <= w.steps.Keys && Lists(order, w.steps.Keys - rest)
        invariant expectations.Valid() && !panicked
        invariant w.statuses == null ==> !Writes(start.env, order, start.statuses)
        invariant Reached(start, order, w.StatusEntries(), changed, workflowComplete)
        invariant Launched(start, order, launched, jobControl.created, expectations.history)
      {
        var n :| n in rest;
        ghost var statuses, created, history := w.StatusEntries(), jobControl.created, expectations.history;
        assert EnvOf(w.View(), jobStore) == start.env;
        ghost var stepLaunched: bool;
        var stepChanged, done;
        stepChanged, done, panicked, stepLaunched := ProcessStep(w, n, n in refused, now);
        LongerRange(start, order, rest, n, statuses, changed, workflowComplete, launched, stepLaunched, created,
          history);
        rest := rest - {n};
        order := order + [n];
        launched := if stepLaunched then launched + [n] else launched;
        if panicked {
          return;
        }
        changed := stepChanged || changed;
        workflowComplete := workflowComplete && done;
      }
    }

    method ProcessSteps(w: WorkflowObject, refused: set<string>, now: int)
      returns (changed: bool, panicked: bool, ghost order: seq<string>, ghost launched: seq<string>)
      requires w.Valid() && expectations.Valid()
      modifies w`conditions, w`completionTime, w.statuses, expectations, jobControl
      ensures expectations.Valid()
      ensures NoDup(order) && Elems(order) <= w.steps.Keys && (!panicked ==> Elems(order) == w.steps.Keys)
      ensures panicked == (w.statuses == null && Writes(EnvOf(old(w.View()), jobStore), order, old(w.View()).statuses))
      ensures if panicked then w.View() == old(w.View())
              else (w.View(), changed) == Processing.ProcessSteps(old(w.View()), jobStore, order, now)
      ensures Launched(StartOf(old(w.View()), jobStore, refused, now, old(jobControl.created),
              old(expectations.history)),
                       order, launched, jobControl.created, expectations.history)
    {
      ghost var start := StartOf(w.View(), jobStore, refused, now, jobControl.created, expectations.history);
      var workflowComplete;
      changed, workflowComplete, panicked, order, launched := RangeOverSteps(w, refused, now);
      if panicked {
        return;
      }
      PassEnds(old(w.View()), start, order, w.StatusEntries(), changed, workflowComplete);
      if workflowComplete {
        w.AddCompleteCondition(now);
        changed := true;
      }
    }

    /** Validates the workflow and records the verdict in its labels. */
    method LabelValidity(w: WorkflowObject, keys: seq<string>, checks: Checks) returns (isValid: bool)
      requires w.Valid() && w.labels != null && Lists(keys, w.steps.Keys)
      modifies w.labels
      ensures isValid == (checks.Passed() && ValidSpec(old(w.View())))
      ensures w.View() == old(w.View()).(labels := old(w.View()).labels[VALID_LABEL := FormatBool(isValid)])
    {
      var errors := ValidateWorkflow(w.View(), keys, checks);
      isValid := errors == [];
      w.labels.entries := w.labels.entries[VALID_LABEL := FormatBool(isValid)];
    }

    /** The part of `Process` that comes after defaulting. */
    method ProcessDefaulted(w: WorkflowObject, keys: seq<string>, refused: set<string>, checks: Checks, now: int)
      returns (changed: bool, panicked: bool, ghost order: seq<string>, ghost launched: seq<string>)
      requires w.Valid() && expectations.Valid() && Lists(keys, w.steps.Keys) && UID_LABEL in w.View().labels
      modifies w`conditions, w`completionTime, w.labels, w.statuses, expectations, jobControl
      ensures expectations.Valid()
      ensures NoDup(order) && Elems(order) <= w.steps.Keys && (!panicked ==> Elems(order) == w.steps.Keys)
      ensures panicked == Panics(old(w.View()), w.statuses != null, Input(true, jobStore, order, checks, now))
      ensures if panicked then w.View() == Accepted(old(w.View()))
              else (w.View(), changed) == Processing.Process(old(w.View()), Input(true, jobStore, order, checks, now))
      ensures if ReachesSteps(old(w.View()), checks)
              then Launched(StartOf(Accepted(old(w.View())), jobStore, refused, now, old(jobControl.created),
                old(expectations.history)),
                            order, launched, jobControl.created, expectations.history)
              else jobControl.created == old(jobControl.created) && expectations.history == old(expectations.history)
    {
      panicked, order, launched := false, keys, [];
      var needsStatusUpdate := false;
      var exists_ := VALID_LABEL in w.View().labels;
      if !exists_ || w.View().labels[VALID_LABEL] == FormatBool(false) {
        var isValid := LabelValidity(w, keys, checks);
        if !isValid {
          changed := !exists_;
          return;
        }
        needsStatusUpdate := true;
      }
      changed, panicked, order, launched := ProcessSteps(w, refused, now);
      changed := changed || needsStatusUpdate;
    }

    /**
     * One call on the caller's copy of a workflow.  `keys` lists the step names for the validator;
     * `refused` are the steps whose job the server does not take.
     */
    method Process(w: WorkflowObject, keys: seq<string>, refused: set<string>, checks: Checks, now: int)
      returns (changed: bool, panicked: bool, ghost order: seq<string>, ghost launched: seq<string>)
      requires w.Valid() && expectations.Valid() && Lists(keys, w.steps.Keys)
      modifies w, w.labels, w.jobsSelector, w.statuses, expectations, jobControl
      ensures w.Valid() && expectations.Valid()
      ensures NoDup(order) && Elems(order) <= w.steps.Keys && (!panicked ==> Elems(order) == w.steps.Keys)
      ensures panicked == Panics(old(w.View()), old(w.statuses) != null, Input(true, jobStore, order, checks, now))
      ensures if panicked then w.View() == Accepted(old(w.View()))
              else (w.View(), changed) == Processing.Process(old(w.View()), Input(true, jobStore, order, checks, now))
      ensures old(w.labels) != null ==> w.labels == old(w.labels)
      ensures old(w.jobsSelector) != null ==> w.jobsSelector == old(w.jobsSelector)
      ensures UID_LABEL in old(w.View()).labels ==>
              w.statuses == old(w.statuses) && w.jobsSelector == old(w.jobsSelector)
      ensures UID_LABEL !in old(w.View()).labels ==>
                w.statuses != null && fresh(w.statuses)
                  && (old(w.statuses) != null ==> old(w.statuses).entries == old(w.statuses.entries))
      ensures if ReachesSteps(old(w.View()), checks)
              then Launched(StartOf(Accepted(old(w.View())), jobStore, refused, now, old(jobControl.created),
                old(expectations.history)),
                            order, launched, jobControl.created, expectations.history)
              else jobControl.created == old(jobControl.created) && expectations.history == old(expectations.history)
    {
      panicked, order, launched := false, keys, [];
      if UID_LABEL !in w.View().labels {
        w.SetDefaults(now);
        changed := true;
        return;
      }
      changed, panicked, order, launched := ProcessDefaulted(w, keys, refused, checks, now);
    }

    /** A call proceeds if the job store is synced and the workflow is neither finished nor paused. */
    method Preconditions(w: WorkflowObject, synced: bool) returns (met: bool)
      ensures met == PreconditionsMet(w.View(), synced)
      ensures met <==>
                && synced
                && (forall i :: 0 <= i < |w.conditions| && w.conditions[i].status == ConditionTrue ==>
                                  w.conditions[i].conditionType !in {WorkflowComplete, WorkflowFailed})
                && (w.labels == null || PAUSE_LABEL !in w.labels.entries || w.labels.entries[PAUSE_LABEL] != "true")
    {
      ProceedsIff(w.View(), synced);
      if !synced {
        return false;
      }
      var finished := WorkflowEnded(w.conditions);
      if finished {
        return false;
      }
      if PAUSE_LABEL in w.View().labels && w.View().labels[PAUSE_LABEL] == "true" {
        return false;
      }
      return true;
    }

    /**
     * One call for a key: whether and after how many milliseconds to queue it again, and what has been
     * sent to the server.  `updateOk` is the outcome of sending.  Whether the job store is synced is
     * asked twice, and `syncedThen` is the second answer: a store that becomes synced in between loses
     * the key, which is queued again only by a later event.  A call that panics is abandoned.
     */
    method TransitionWorkflow(
      key: string, synced: bool, syncedThen: bool, keys: seq<string>, refused: set<string>,
      checks: Checks, updateOk: bool, now: int)
      returns (requeue: Option<int>, sent: Option<Workflow>, panicked: bool, ghost order: seq<string>,
        ghost launched: seq<string>)
      requires expectations.Valid()
      requires key in workflowStore ==> workflowStore[key].Valid() && Lists(keys, workflowStore[key].steps.Keys)
      modifies if key in workflowStore
               then {workflowStore[key].labels, workflowStore[key].jobsSelector, workflowStore[key].statuses} else {}
      modifies expectations, jobControl
      ensures expectations.Valid()
      ensures key !in workflowStore ==>
                && requeue == None && sent == None && !panicked && jobControl.created == old(jobControl.created)
                && expectations.history == old(expectations.history) + [Deleted(key)]
      ensures key in workflowStore && !PreconditionsMet(old(workflowStore[key].View()), synced) ==>
                && requeue == (if syncedThen then None else Some(REQUEUE_NOT_SYNCED)) && sent == None && !panicked
                && order == keys
                && workflowStore[key].View() == old(workflowStore[key].View())
                && jobControl.created == old(jobControl.created) && expectations.history == old(expectations.history)
      ensures key in workflowStore && !synced ==>
                && requeue == (if syncedThen then None else Some(100)) && sent == None && !panicked
                && workflowStore[key].View() == old(workflowStore[key].View())
                && jobControl.created == old(jobControl.created) && expectations.history == old(expectations.history)
      ensures key in workflowStore && PreconditionsMet(old(workflowStore[key].View()), synced) ==>
                var before, input := old(workflowStore[key].View()), Input(true, jobStore, order, checks, now);
                && NoDup(order) && Elems(order) <= before.steps.Keys
                && (!panicked ==> Elems(order) == before.steps.Keys)
                && panicked == Panics(before, workflowStore[key].statuses != null, input)
                && (panicked ==> requeue == None && sent == None && workflowStore[key].View() == Accepted(before))
                && (!panicked ==>
                      var (after, changed) := Processing.Process(before, input);
                      && sent == (if changed then Some(after) else None)
                      && requeue == (if changed && !updateOk then Some(500) else None)
                      && workflowStore[key].View() == Remnant(before, after, workflowStore[key].labels != null))
      ensures key in workflowStore && PreconditionsMet(old(workflowStore[key].View()), synced) ==>
                var before := old(workflowStore[key].View());
                if ReachesSteps(before, checks)
                then Launched(StartOf(Accepted(before), jobStore, refused, now, old(jobControl.created),
                  old(expectations.history)),
                              order, launched, jobControl.created, expectations.history)
                else jobControl.created == old(jobControl.created) && expectations.history == old(expectations.history)
    {
      requeue, sent, panicked, order, launched := None, None, false, keys, [];
      if key !in workflowStore {
        expectations.DeleteExpectations(key);
        return;
      }
      var w := new WorkflowObject.CopyOf(workflowStore[key]);
      var met := Preconditions(w, synced);
      if !met {
        if !syncedThen {
          requeue := Some(REQUEUE_NOT_SYNCED);
        }
        return;
      }
      var changed;
      changed, panicked, order, launched := Process(w, keys, refused, checks, now);
      ghost var c, before := workflowStore[key], old(workflowStore[key].View());
      assert c.labels != null ==> c.View().labels == w.View().labels;
      assert c.labels == null ==> c.View().labels == before.labels;
      assert c.jobsSelector != null ==> c.View().jobsSelector == w.View().jobsSelector;
      assert UID_LABEL in before.labels ==> c.View().statuses == w.View().statuses;
      assert UID_LABEL !in before.labels ==> c.View().statuses == before.statuses;
      if changed && !panicked {
        sent := Some(w.View());
        if !updateOk {
          requeue := Some(REQUEUE_CONFLICT);
        }
      }
    }
  }

  /** Milliseconds after which a key is queued again. */
  const REQUEUE_NOT_SYNCED := 100
  const REQUEUE_CONFLICT := 500

  /**
   * What the cached original shows after a call on its copy.  The copy shares the maps that are there:
   * changed labels and statuses show through whether or not they reach the server, while conditions,
   * times, a selector or statuses map made by defaulting, and labels made for a workflow without any do not.
   */
  ghost function Remnant(before: Workflow, after: Workflow, hasLabels: bool): Workflow {
    before.(
      labels := if hasLabels then after.labels else before.labels,
      jobsSelector := if before.jobsSelector.Some? then after.jobsSelector else None,
      statuses := if UID_LABEL in before.labels then after.statuses else before.statuses)
  }

  // ---- The state of a pass ----

  ghost function StartOf(w: Workflow, store: seq<Job>, refused: set<string>, now: int, created: seq<Job>,
      history: seq<Operation>): Start {
    Start(EnvOf(w, store), w.statuses, KeyOf(w.namespace, w.name), refused, now, created, history)
  }

  datatype Start = Start(
    env: Env,
    statuses: Statuses,
    key: string,
    refused: set<string>,
    now: int,
    created: seq<Job>,
    history: seq<Operation>)
  {
    /** The steps for which no job is launched: refused by the server, or awaited already. */
    ghost function Blocked(): set<string> {
      set n | n in env.steps && (n in refused || Awaited(history, key, n, now))
    }
  }

  /** The loop has done the turns of `order`. */
  ghost predicate Reached(start: Start, order: seq<string>, statuses: Statuses, changed: bool, complete: bool) {
    && Elems(order) <= start.env.steps.Keys
    && statuses == RunOrder(start.env, order, start.statuses)
    && changed == Writes(start.env, order, start.statuses)
    && complete == forall n :: n in order ==> Done(start.statuses, n)
  }

  /** The jobs of `launched`, and nothing else, have been created and are expected. */
  ghost predicate Launched(start: Start, order: seq<string>, launched: seq<string>, created: seq<Job>,
      history: seq<Operation>) {
    && Elems(order) <= start.env.steps.Keys
    && launched == Launches(start.env, order, start.statuses, start.Blocked())
    && created == start.created + JobsFor(start.env, launched)
    && history == start.history + ExpectedFor(start.key, launched, start.now)
  }

  /** A pass that goes on to one more step. */
  lemma LongerPass(start: Start, order: seq<string>, n: string, statuses: Statuses, changed: bool, complete: bool)
    requires Reached(start, order, statuses, changed, complete) && n in start.env.steps && n !in order
    ensures var turn := Turn(start.env, statuses, n);
            Reached(start, order + [n], Apply(statuses, n, turn), turn.Write? || changed, complete && Done(statuses, n))
  {
    assert (order + [n])[..|order|] == order;
    assert forall m :: m in order + [n] <==> m in order || m == n;
    RunLeavesOthers(start.env, order, start.statuses, n);
  }

  /** When the loop has gone through all steps, the workflow is what the step loop makes of it. */
  lemma PassEnds(w: Workflow, start: Start, order: seq<string>, statuses: Statuses, changed: bool, complete: bool)
    requires start.env == EnvOf(w, start.env.store) && start.statuses == w.statuses
    requires Reached(start, order, statuses, changed, complete) && Elems(order) == w.steps.Keys
    ensures Processing.ProcessSteps(w, start.env.store, order, start.now) ==
            (if complete then AddCompleteCondition(w.(statuses := statuses), start.now) else w.(statuses := statuses),
             complete || changed)
  {
    assert forall n :: n in w.steps ==> n in Elems(order);
  }

  lemma LongerLaunch(start: Start, order: seq<string>, launched: seq<string>, n: string, more: bool, created: seq<Job>,
      history: seq<Operation>)
    requires Launched(start, order, launched, created, history)
    requires n in start.env.steps && n !in order
    requires var turn := Turn(start.env, RunOrder(start.env, order, start.statuses), n);
             more == (turn.Create? && !Awaited(history, start.key, n, start.now) && n !in start.refused)
    ensures !more ==> Launched(start, order + [n], launched, created, history)
    ensures more ==> Launched(start, order + [n], launched + [n], created + [NewJob(start.env, n)],
                              history + [Expected(start.key, n, start.now)])
  {
    LaunchesSnoc(start.env, order, n, start.statuses, start.Blocked());
    assert n !in Elems(launched) by {
      LaunchesAreFromOrder(start.env, order, start.statuses, start.Blocked());
    }
    OthersStayAwaited(start.history, start.key, launched, n, start.now);
    LongerList(start, launched, n);
  }

  /** What the loop knows, after one more turn. */
  lemma LongerRange(start: Start, order: seq<string>, rest: set<string>, n: string, statuses: Statuses, changed: bool,
      complete: bool,
                    launched: seq<string>, more: bool, created: seq<Job>, history: seq<Operation>)
    requires Reached(start, order, statuses, changed, complete) && Launched(start, order, launched, created, history)
    requires rest <= start.env.steps.Keys && Lists(order, start.env.steps.Keys - rest) && n in rest
    requires var turn := Turn(start.env, statuses, n);
             more == (turn.Create? && !Awaited(history, start.key, n, start.now) && n !in start.refused)
    ensures Lists(order + [n], start.env.steps.Keys - (rest - {n}))
    ensures var turn := Turn(start.env, statuses, n);
            && Reached(start, order + [n], Apply(statuses, n, turn),
                       turn.Write? || changed, complete && Done(statuses, n))
            && (Writes(start.env, order + [n], start.statuses) <==>
                turn.Write? || Writes(start.env, order, start.statuses))
    ensures if more
            then Launched(start, order + [n], launched + [n], created + [NewJob(start.env, n)],
                          history + [Expected(start.key, n, start.now)])
            else Launched(start, order + [n], launched, created, history)
  {
    assert n !in order by {
      assert n !in Elems(order);
    }
    LongerPass(start, order, n, statuses, changed, complete);
    LongerLaunch(start, order, launched, n, more, created, history);
    WritesMore(start.env, order, n, start.statuses);
    ListsSnoc(order, start.env.steps.Keys - rest, n);
    assert start.env.steps.Keys - rest + {n} == start.env.steps.Keys - (rest - {n});
  }

  lemma LongerList(start: Start, launched: seq<string>, n: string)
    ensures start.created + JobsFor(start.env, launched + [n]) ==
            start.created + JobsFor(start.env, launched) + [NewJob(start.env, n)]
    ensures start.history + ExpectedFor(start.key, launched + [n], start.now) ==
            start.history + ExpectedFor(start.key, launched, start.now) + [Expected(start.key, n, start.now)]
  {
  }

  /** Expecting other steps does not make a step awaited. */
  lemma {:induction false} OthersStayAwaited(history: seq<Operation>, key: string, launched: seq<string>, n: string,
      now: int)
    requires n !in launched
    ensures Awaited(history + ExpectedFor(key, launched, now), key, n, now) <==> Awaited(history, key, n, now)
  {
    if launched == [] {
      assert history + ExpectedFor(key, launched, now) == history;
    } else {
      var front, last := launched[..|launched| - 1], Expected(key, launched[|launched| - 1], now);
      OthersStayAwaited(history, key, front, n, now);
      var before := history + ExpectedFor(key, front, now);
      assert history + ExpectedFor(key, launched, now) == before + [last];
      forall i ensures Stands(before + [last], key, n, i) <==> Stands(before, key, n, i) {
        StandsAfter(before, last, key, n, i);
      }
    }
  }
}
