/** The manager's event handlers: what the informers do to expectations and to the queue. */
module ManagerModel {
  import opened Prelude
  import opened Api
  import opened Jobs
  import opened Processing
  import opened Expectations
  import opened TransitionerModel

  /** A missing label reads as the empty string. */
  function StepOf(job: Job): string {
    if STEP_LABEL in job.labels then job.labels[STEP_LABEL] else ""
  }

  /** The key of the workflow that is taken to own the job. */
  function OwnerKey(workflows: seq<Workflow>, job: Job): Option<string> {
    if job.labels == map[] || Owners(workflows, job) == [] then None
    else Some(KeyOf(Owners(workflows, job)[0].namespace, Owners(workflows, job)[0].name))
  }

  /** A job without the UID of a stored workflow in its labels queues nothing and ends no expectation. */
  lemma ForeignJobHasNoOwner(workflows: seq<Workflow>, job: Job)
    requires forall v :: v in workflows ==> Identified(v)
    requires forall v :: v in workflows ==> !(UID_LABEL in job.labels && job.labels[UID_LABEL] == v.uid)
    ensures OwnerKey(workflows, job) == None
  {
    OnlyLabelledJobsAreOwned(workflows, job);
  }

  /** `queued` are the keys added to the work queue, in order; the queue itself is not part of this model. */
  class Manager {
    const expectations: WorkflowStepExpectations
    var workflows: seq<Workflow>
    var queued: seq<string>

    constructor (expectations: WorkflowStepExpectations)
      ensures this.expectations == expectations && workflows == [] && queued == []
    {
      this.expectations := expectations;
      workflows, queued := [], [];
    }

    method EnqueueWorkflow(w: Workflow)
      modifies this`queued
      ensures queued == old(queued) + [KeyOf(w.namespace, w.name)]
    {
      queued := queued + [KeyOf(w.namespace, w.name)];
    }

    /** Of several owners the first is taken. */
    method GetJobWorkflow(job: Job) returns (w: Option<Workflow>)
      ensures w.None? <==> OwnerKey(workflows, job).None?
      ensures w.Some? ==>
                exists i :: 0 <= i < |workflows| && workflows[i] == w.value && Owns(w.value, job)
                            && forall j :: 0 <= j < i ==> !Owns(workflows[j], job)
      ensures w.Some? ==> OwnerKey(workflows, job) == Some(KeyOf(w.value.namespace, w.value.name))
    {
      var found := GetJobWorkflows(workflows, job);
      if found.None? {
        return None;
      }
      FirstOwner(workflows, job);
      return Some(found.value[0]);
    }

    method AddJob(job: Job)
      requires expectations.Valid()
      modifies this`queued, expectations
      ensures expectations.Valid()
      ensures var key := OwnerKey(workflows, job);
              var step := if STEP_LABEL in job.labels then job.labels[STEP_LABEL] else "";
              if key.None? then queued == old(queued) && expectations.history == old(expectations.history)
              else queued == old(queued) + [key.value]
                   && expectations.history == old(expectations.history) + [Observed(key.value, step)]
    {
      var w := GetJobWorkflow(job);
      if w.Some? {
        var _ := expectations.CreationObserved(KeyOf(w.value.namespace, w.value.name), StepOf(job));
        EnqueueWorkflow(w.value);
      }
    }

    /** Also what a deletion does, with the last known state of the job. */
    method UpdateJob(job: Job, same: bool)
      modifies this`queued
      ensures var key := OwnerKey(workflows, job);
              queued == old(queued) + if same || key.None? then [] else [key.value]
    {
      if same {
        return;
      }
      var w := GetJobWorkflow(job);
      if w.Some? {
        EnqueueWorkflow(w.value);
      }
    }

    /** An update of a finished workflow is not queued. */
    method UpdateWorkflow(w: Workflow)
      modifies this`queued
      ensures queued == old(queued) + if IsFinished(w.conditions) then [] else [KeyOf(w.namespace, w.name)]
    {
      if !IsFinished(w.conditions) {
        EnqueueWorkflow(w);
      }
    }
  }

  /**
   * The round trip of an expectation.  A job made for a step of a workflow, found again when the
   * workflow store holds some later state of that workflow, ends the expectation that was set when the
   * job was made, and no other one.
   */
  lemma ObservationEndsItsExpectationOnly(
    workflows: seq<Workflow>, w: Workflow, n: string, store: seq<Job>, history: seq<Operation>, key: string,
      step: string, now: int)
    requires Identified(w) && IsJobStep(w, n) && DistinctUids(workflows)
    requires forall v :: v in workflows ==>
             Identified(v) && (v.uid == w.uid ==> v.namespace == w.namespace && v.name == w.name)
    ensures var job := NewJob(EnvOf(w, store), n);
            var owner := OwnerKey(workflows, job);
            && (owner == None <==> forall v :: v in workflows ==> v.uid != w.uid)
            && (owner.Some? ==>
                  && owner.value == KeyOf(w.namespace, w.name)
                  && (Awaited(history + [Observed(owner.value, StepOf(job))], key, step, now) <==>
                      Awaited(history, key, step, now) && !(key == KeyOf(w.namespace, w.name) && step == n)))
  {
    var job := NewJob(EnvOf(w, store), n);
    assert CreatedFor(job, w, n);
    OwnerIsCreator(workflows, w, n, job);
    WithUidFinds(workflows, w.uid);
    assert job.labels != map[];
    AwaitedAfter(history, Observed(KeyOf(w.namespace, w.name), n), key, step, now);
  }
}
