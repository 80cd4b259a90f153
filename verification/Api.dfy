/** Workflows as values: steps, statuses, conditions, and the defaulting of a submitted workflow. */
module Api {
  import opened Prelude
  import opened Graphs

  type Labels = map<string, string>

  const UID_LABEL := "nerdalize.com/workflow-uid"
  const VALID_LABEL := "nerdalize.com/valid"
  const PAUSE_LABEL := "nerdalize.com/pause"
  const STEP_LABEL := "nerdalize.com/workflow"

  lemma LabelKeysDiffer()
    ensures UID_LABEL != VALID_LABEL && UID_LABEL != STEP_LABEL && UID_LABEL != PAUSE_LABEL
    ensures VALID_LABEL != STEP_LABEL && VALID_LABEL != PAUSE_LABEL && PAUSE_LABEL != STEP_LABEL
  {
    assert |UID_LABEL| == 26 && |VALID_LABEL| == 19 && |PAUSE_LABEL| == 19 && |STEP_LABEL| == 22;
    assert VALID_LABEL[14] == 'v' && PAUSE_LABEL[14] == 'p';
  }

  function FormatBool(b: bool): string {
    if b then "true" else "false"
  }

  lemma FormatBoolDiffers()
    ensures FormatBool(true) != FormatBool(false)
  {
    assert |FormatBool(true)| == 4 && |FormatBool(false)| == 5;
  }

  /** The name of a job, as kept in a step's status. */
  type Reference = string

  datatype ConditionStatus = ConditionTrue | ConditionFalse | ConditionUnknown

  datatype JobTemplate = JobTemplate(labels: Labels, spec: string)

  datatype Step = Step(jobTemplate: Option<JobTemplate>, externalRef: Option<Reference>, dependencies: seq<string>)

  type Steps = map<string, Step>

  datatype StepStatus = StepStatus(complete: bool, reference: Reference)

  type Statuses = map<string, StepStatus>

  datatype WorkflowConditionType = WorkflowComplete | WorkflowFailed | OtherWorkflowCondition(name: string)

  datatype WorkflowCondition = WorkflowCondition(conditionType: WorkflowConditionType, status: ConditionStatus)

  /**
   * The value of a workflow object at one moment.  An absent map and an empty one are the same value
   * here; the difference, which matters to writes, is kept by the objects of module `Objects`.
   */
  datatype Workflow = Workflow(
    name: string,
    namespace: string,
    uid: string,
    activeDeadlineSeconds: Option<int>,
    labels: Labels,
    steps: Steps,
    jobsSelector: Option<Labels>,
    statuses: Statuses,
    conditions: seq<WorkflowCondition>,
    startTime: Option<int>,
    completionTime: Option<int>)

  /** The dependency graph of a set of steps. */
  function GraphOf(steps: Steps): Graph {
    map n | n in steps :: steps[n].dependencies
  }

  predicate Done(statuses: Statuses, n: string) {
    n in statuses && statuses[n].complete
  }

  predicate DependenciesResolved(step: Step, statuses: Statuses) {
    forall d :: d in step.dependencies ==> Done(statuses, d)
  }

  predicate IsTerminal(c: WorkflowCondition) {
    (c.conditionType == WorkflowComplete || c.conditionType == WorkflowFailed) && c.status == ConditionTrue
  }

  predicate IsFinished(conditions: seq<WorkflowCondition>) {
    exists c :: c in conditions && IsTerminal(c)
  }

  /** The loop over the conditions of a workflow. */
  method WorkflowEnded(conditions: seq<WorkflowCondition>) returns (finished: bool)
    ensures finished == IsFinished(conditions)
    ensures finished <==> exists i :: 0 <= i < |conditions| && conditions[i].status == ConditionTrue
                                      && conditions[i].conditionType in {WorkflowComplete, WorkflowFailed}
  {
    for i := 0 to |conditions|
      invariant forall j :: 0 <= j < i && conditions[j].status == ConditionTrue ==>
                  conditions[j].conditionType !in {WorkflowComplete, WorkflowFailed}
    {
      var c := conditions[i];
      var conditionWFFinished := c.conditionType == WorkflowComplete || c.conditionType == WorkflowFailed;
      var conditionTrue := c.status == ConditionTrue;
      if conditionWFFinished && conditionTrue {
        assert c in conditions && IsTerminal(c);
        return true;
      }
    }
    return false;
  }

  /** The loop over the dependencies of a step. */
  method Resolved(step: Step, statuses: Statuses) returns (resolved: bool)
    ensures resolved == DependenciesResolved(step, statuses)
    ensures resolved <==> forall i :: 0 <= i < |step.dependencies| ==>
                                        step.dependencies[i] in statuses && statuses[step.dependencies[i]].complete
  {
    for i := 0 to |step.dependencies|
      invariant forall j :: 0 <= j < i ==> step.dependencies[j] in statuses && statuses[step.dependencies[j]].complete
    {
      var name := step.dependencies[i];
      if name !in statuses || !statuses[name].complete {
        assert name in step.dependencies;
        return false;
      }
    }
    return true;
  }

  const COMPLETED := WorkflowCondition(WorkflowComplete, ConditionTrue)

  function SetUID(w: Workflow): Workflow {
    var selector := if w.jobsSelector.Some? then w.jobsSelector.value else map[];
    w.(labels := w.labels[UID_LABEL := w.uid], jobsSelector := Some(selector[UID_LABEL := w.uid]))
  }

  function SetDefaults(w: Workflow, now: int): Workflow {
    SetUID(w.(statuses := map[], startTime := Some(now)))
  }

  function AddCompleteCondition(w: Workflow, now: int): Workflow {
    w.(conditions := w.conditions + [COMPLETED], completionTime := Some(now))
  }

  /** Defaulting sets the UID in labels and selector, a start time and no statuses, and leaves the rest alone. */
  lemma DefaultingSetsOnly(w: Workflow, now: int)
    ensures var after := SetDefaults(w, now);
            && after.startTime == Some(now) && after.statuses == map[] && after.jobsSelector.Some?
            && UID_LABEL in after.labels && after.labels[UID_LABEL] == w.uid
            && UID_LABEL in after.jobsSelector.value && after.jobsSelector.value[UID_LABEL] == w.uid
            && after.labels - {UID_LABEL} == w.labels - {UID_LABEL}
            && after.jobsSelector.value - {UID_LABEL} ==
               (if w.jobsSelector.Some? then w.jobsSelector.value else map[]) - {UID_LABEL}
            && after == w.(labels := after.labels, jobsSelector := after.jobsSelector, statuses := map[],
                           startTime := after.startTime)
  {
  }
}
