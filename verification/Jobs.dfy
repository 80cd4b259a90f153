/** The labels that tie a job to its workflow and step, and the lookups that read them back. */
module Jobs {
  import opened Prelude
  import opened Api

  datatype JobConditionType = JobComplete | JobFailed | OtherJobCondition(name: string)

  datatype JobCondition = JobCondition(conditionType: JobConditionType, status: ConditionStatus)

  /** `reference` is None when no object reference can be made from the job. */
  datatype Job = Job(
    namespace: string,
    labels: Labels,
    conditions: seq<JobCondition>,
    reference: Option<Reference>)

  /** A job that failed counts as finished. */
  predicate IsJobFinished(job: Job) {
    exists c :: c in job.conditions && (c.conditionType == JobComplete || c.conditionType == JobFailed)
      && c.status == ConditionTrue
  }

  /** The loop over the conditions: only a Complete or Failed one counts, and only with status True. */
  method JobEnded(job: Job) returns (finished: bool)
    ensures finished == IsJobFinished(job)
    ensures finished <==> exists i :: 0 <= i < |job.conditions| && job.conditions[i].status == ConditionTrue
                                      && job.conditions[i].conditionType in {JobComplete, JobFailed}
  {
    for i := 0 to |job.conditions|
      invariant forall j :: 0 <= j < i && job.conditions[j].status == ConditionTrue ==>
                  job.conditions[j].conditionType !in {JobComplete, JobFailed}
    {
      var c := job.conditions[i];
      var conditionJobFinished := c.conditionType == JobComplete || c.conditionType == JobFailed;
      var conditionTrue := c.status == ConditionTrue;
      if conditionJobFinished && conditionTrue {
        return true;
      }
    }
    return false;
  }

  /** Template labels override workflow labels; the step label overrides both. */
  function JobLabels(workflowLabels: Labels, template: JobTemplate, step: string): Labels {
    workflowLabels + template.labels + map[STEP_LABEL := step]
  }

  /** A selector made from a label set matches the labels that include it. */
  predicate Matches(selector: Labels, labels: Labels) {
    forall k :: k in selector ==> k in labels && labels[k] == selector[k]
  }

  /** Copies every entry of `from` over `to`, in any order. */
  method CopyLabels(to: Labels, from: Labels) returns (r: Labels)
    ensures r == to + from
  {
    r := to;
    var rest := from.Keys;
    while rest != {}
      invariant rest <= from.Keys
      invariant r == to + (from - rest)
    {
      var k :| k in rest;
      r := r[k := from[k]];
      rest := rest - {k};
    }
    assert from - rest == from;
  }

  method GetWorkflowJobLabelSet(workflowLabels: Labels, template: JobTemplate, step: string) returns (r: Labels)
    ensures r == JobLabels(workflowLabels, template, step)
    ensures STEP_LABEL in r && r[STEP_LABEL] == step
    ensures forall k :: k in template.labels && k != STEP_LABEL ==> k in r && r[k] == template.labels[k]
    ensures forall k :: k in workflowLabels && k !in template.labels && k != STEP_LABEL ==>
            k in r && r[k] == workflowLabels[k]
    ensures r.Keys == workflowLabels.Keys + template.labels.Keys + {STEP_LABEL}
  {
    r := CopyLabels(map[], workflowLabels);
    assert r == workflowLabels;
    r := CopyLabels(r, template.labels);
    r := r[STEP_LABEL := step];
  }

  // ---- Listing jobs ----

  predicate Selected(job: Job, namespace: string, selector: Labels) {
    (namespace == "" || namespace == job.namespace) && Matches(selector, job.labels)
  }

  /** The jobs of a store that a listing returns, in the store's order. */
  function ListJobs(store: seq<Job>, namespace: string, selector: Labels): seq<Job> {
    if store == [] then [] else
      var front := ListJobs(store[..|store| - 1], namespace, selector);
      var last := store[|store| - 1];
      if Selected(last, namespace, selector) then front + [last] else front
  }

  /** A listing holds each selected job as often as the store does, and no other job. */
  lemma {:induction false} ListJobsCounts(store: seq<Job>, namespace: string, selector: Labels, job: Job)
    ensures multiset(ListJobs(store, namespace, selector))[job] ==
            if Selected(job, namespace, selector) then multiset(store)[job] else 0
  {
    if store != [] {
      ListJobsCounts(store[..|store| - 1], namespace, selector, job);
      assert store == store[..|store| - 1] + [store[|store| - 1]];
    }
  }

  /** A job that lacks a label of the selector, or has another value for it, is not listed. */
  method List(store: seq<Job>, namespace: string, selector: Labels) returns (items: seq<Job>)
    ensures items == ListJobs(store, namespace, selector)
    ensures forall job :: multiset(items)[job] ==
              if (namespace == "" || job.namespace == namespace)
                 && forall k :: k in selector ==> k in job.labels && job.labels[k] == selector[k]
              then multiset(store)[job] else 0
  {
    items := [];
    for i := 0 to |store|
      invariant items == ListJobs(store[..i], namespace, selector)
    {
      assert store[..i + 1][..i] == store[..i];
      if Selected(store[i], namespace, selector) {
        items := items + [store[i]];
      }
    }
    assert store[..|store|] == store;
    forall job
      ensures multiset(items)[job] == if Selected(job, namespace, selector) then multiset(store)[job] else 0
    {
      ListJobsCounts(store, namespace, selector, job);
    }
  }

  // ---- Looking up the workflow of a job ----

  /** A workflow without a selector owns nothing. */
  predicate Owns(w: Workflow, job: Job) {
    w.namespace == job.namespace && w.jobsSelector.Some? && Matches(w.jobsSelector.value, job.labels)
  }

  function Owners(store: seq<Workflow>, job: Job): seq<Workflow> {
    if store == [] then [] else
      var front := Owners(store[..|store| - 1], job);
      var last := store[|store| - 1];
      if Owns(last, job) then front + [last] else front
  }

  lemma {:induction false} OwnersOwn(store: seq<Workflow>, job: Job)
    ensures forall w :: w in Owners(store, job) <==> w in store && Owns(w, job)
  {
    if store != [] {
      OwnersOwn(store[..|store| - 1], job);
    }
  }

  /** Of several owners the first in the store comes first. */
  lemma {:induction false} FirstOwner(store: seq<Workflow>, job: Job)
    requires Owners(store, job) != []
    ensures exists i :: 0 <= i < |store| && store[i] == Owners(store, job)[0] && Owns(store[i], job)
                        && forall j :: 0 <= j < i ==> !Owns(store[j], job)
  {
    var front, last := store[..|store| - 1], |store| - 1;
    if Owners(front, job) == [] {
      OwnersOwn(front, job);
      assert forall j :: 0 <= j < last ==> store[j] == front[j] && front[j] in front;
    } else {
      FirstOwner(front, job);
      var i :| 0 <= i < |front| && front[i] == Owners(front, job)[0] && Owns(front[i], job)
               && forall j :: 0 <= j < i ==> !Owns(front[j], job);
      assert store[i] == Owners(store, job)[0];
      assert forall j :: 0 <= j < i ==> store[j] == front[j];
    }
  }

  /**
   * Fails for a job without labels and for a job that no workflow owns.  A workflow owns the jobs of its
   * namespace that have every label of its selector.
   */
  method GetJobWorkflows(store: seq<Workflow>, job: Job) returns (r: Option<seq<Workflow>>)
    ensures r == if job.labels == map[] || Owners(store, job) == [] then None else Some(Owners(store, job))
    ensures job.labels == map[] ==> r == None
    ensures job.labels != map[] ==>
              forall w :: (r.Some? && w in r.value) <==>
                            && w in store && w.namespace == job.namespace && w.jobsSelector.Some?
                            && forall k :: k in w.jobsSelector.value ==>
                                             k in job.labels && job.labels[k] == w.jobsSelector.value[k]
  {
    OwnersOwn(store, job);
    if |job.labels| == 0 {
      return None;
    }
    var workflows := [];
    for i := 0 to |store|
      invariant workflows == Owners(store[..i], job)
    {
      assert store[..i + 1][..i] == store[..i];
      if store[i].namespace == job.namespace {
        if store[i].jobsSelector.Some? && Matches(store[i].jobsSelector.value, job.labels) {
          workflows := workflows + [store[i]];
        }
      }
    }
    assert store[..|store|] == store;
    if |workflows| == 0 {
      return None;
    }
    return Some(workflows);
  }

  // ---- The round trip ----

  /** A workflow after `SetUID`, with a selector that holds nothing else. */
  ghost predicate Identified(w: Workflow) {
    && UID_LABEL in w.labels && w.labels[UID_LABEL] == w.uid
    && w.jobsSelector == Some(map[UID_LABEL := w.uid])
    && forall s :: s in w.steps && w.steps[s].jobTemplate.Some? ==> UID_LABEL !in w.steps[s].jobTemplate.value.labels
  }

  ghost predicate IsJobStep(w: Workflow, step: string) {
    step in w.steps && w.steps[step].jobTemplate.Some?
  }

  function StepLabels(w: Workflow, step: string): Labels
    requires IsJobStep(w, step)
  {
    JobLabels(w.labels, w.steps[step].jobTemplate.value, step)
  }

  /** The job that is created for a step of a workflow. */
  ghost predicate CreatedFor(job: Job, w: Workflow, step: string) {
    IsJobStep(w, step) && job.namespace == w.namespace && job.labels == StepLabels(w, step)
  }

  /** Two values of workflow objects; if they are of the same workflow, what labels its jobs has not changed. */
  ghost predicate SameIfSameUid(v: Workflow, w: Workflow) {
    v.uid == w.uid ==> v.namespace == w.namespace && v.labels == w.labels && v.steps == w.steps
  }

  /** A job is selected by the selector of the pair it was created for, and by that of no other pair. */
  lemma SelectedByItsPairOnly(w: Workflow, step: string, other: Workflow, otherStep: string, job: Job)
    requires Identified(w) && Identified(other) && CreatedFor(job, w, step) && IsJobStep(other, otherStep)
    requires SameIfSameUid(other, w)
    ensures Selected(job, other.namespace, StepLabels(other, otherStep)) <==> other.uid == w.uid && otherStep == step
  {
    LabelKeysDiffer();
    var selector := StepLabels(other, otherStep);
    assert job.labels[STEP_LABEL] == step && selector[STEP_LABEL] == otherStep;
    assert job.labels[UID_LABEL] == w.uid && selector[UID_LABEL] == other.uid;
    assert STEP_LABEL in selector && UID_LABEL in selector;
  }

  /** Whatever has become of the workflow since, its selector matches the job, and no other workflow's does. */
  lemma OwnsOnlyItsJobs(v: Workflow, w: Workflow, step: string, job: Job)
    requires Identified(v) && Identified(w) && CreatedFor(job, w, step)
    requires v.uid == w.uid ==> v.namespace == w.namespace
    ensures Owns(v, job) <==> v.uid == w.uid
  {
    LabelKeysDiffer();
    assert job.labels[UID_LABEL] == w.uid;
    assert v.jobsSelector.value == map[UID_LABEL := v.uid];
    assert v.jobsSelector.value[UID_LABEL] == v.uid;
  }

  /** A job that lacks the labels of a workflow and step, or has others, is not listed for the step. */
  lemma OnlyLabelledJobsAreListed(w: Workflow, step: string, store: seq<Job>, job: Job)
    requires Identified(w) && IsJobStep(w, step)
    requires !(UID_LABEL in job.labels && job.labels[UID_LABEL] == w.uid)
             || !(STEP_LABEL in job.labels && job.labels[STEP_LABEL] == step)
    ensures multiset(ListJobs(store, w.namespace, StepLabels(w, step)))[job] == 0
  {
    LabelKeysDiffer();
    ListJobsCounts(store, w.namespace, StepLabels(w, step), job);
    assert StepLabels(w, step)[UID_LABEL] == w.uid && StepLabels(w, step)[STEP_LABEL] == step;
  }

  /** A job that lacks the UID label, or has that of a workflow which is not stored, has no owner. */
  lemma OnlyLabelledJobsAreOwned(store: seq<Workflow>, job: Job)
    requires forall v :: v in store ==> Identified(v)
    requires forall v :: v in store ==> !(UID_LABEL in job.labels && job.labels[UID_LABEL] == v.uid)
    ensures Owners(store, job) == []
  {
    OwnersOwn(store, job);
    forall v | v in store ensures !Owns(v, job) {
      assert v.jobsSelector.value[UID_LABEL] == v.uid;
    }
    assert forall i :: 0 <= i < |Owners(store, job)| ==> Owners(store, job)[i] in Owners(store, job);
  }

  /** The stored workflow with the given UID, if there is one. */
  function WithUid(store: seq<Workflow>, uid: string): seq<Workflow> {
    if store == [] then [] else
      var front := WithUid(store[..|store| - 1], uid);
      var last := store[|store| - 1];
      if last.uid == uid then [last] else front
  }

  ghost predicate DistinctUids(store: seq<Workflow>) {
    forall i, j :: 0 <= i < j < |store| ==> store[i].uid != store[j].uid
  }

  lemma {:induction false} WithUidFinds(store: seq<Workflow>, uid: string)
    ensures WithUid(store, uid) == [] <==> forall v :: v in store ==> v.uid != uid
    ensures WithUid(store, uid) != [] ==>
            |WithUid(store, uid)| == 1 && WithUid(store, uid)[0] in store && WithUid(store, uid)[0].uid == uid
  {
    if store != [] {
      WithUidFinds(store[..|store| - 1], uid);
      assert store[|store| - 1] in store;
    }
  }

  /** Looking up the workflow of a job finds the stored state of the one it was created for and nothing else. */
  lemma {:induction false} OwnerIsCreator(store: seq<Workflow>, w: Workflow, step: string, job: Job)
    requires forall v :: v in store ==> Identified(v) && (v.uid == w.uid ==> v.namespace == w.namespace)
    requires DistinctUids(store) && Identified(w) && CreatedFor(job, w, step)
    ensures Owners(store, job) == WithUid(store, w.uid)
    ensures job.labels[STEP_LABEL] == step
  {
    if store != [] {
      var front, last := store[..|store| - 1], store[|store| - 1];
      assert last in store;
      OwnerIsCreator(front, w, step, job);
      OwnsOnlyItsJobs(last, w, step, job);
      WithUidFinds(front, w.uid);
    }
  }
}
