/** The validators of a workflow and of an edit to a running workflow, as loops that collect errors. */
module Validation {
  import opened Prelude
  import opened Graphs
  import opened Api
  import TopologicalSort

  datatype FieldError =
    | SortFailed(error: TopologicalSort.SortError)
    | ExclusiveReferences(step: string)
    | NegativeDeadline
    | SelectorRequired
    | SelectorImmutable
    | CannotDelete(step: string, completed: bool)
    | CannotModify(step: string, completed: bool)
    | WorkflowCompleted
    | StatusesMissing
    | MetadataInvalid
    | SelectorInvalid

  /** The outcomes of checks that are not part of this model: object metadata and label-selector syntax. */
  datatype Checks = Checks(metadataOk: bool, selectorOk: bool) {
    predicate Passed() {
      metadataOk && selectorOk
    }
  }

  predicate Exclusive(step: Step) {
    step.jobTemplate.Some? && step.externalRef.Some?
  }

  ghost predicate ValidSteps(steps: Steps) {
    && Closed(GraphOf(steps)) && Acyclic(GraphOf(steps))
    && forall n :: n in steps ==> !Exclusive(steps[n])
  }

  ghost predicate ValidSpec(w: Workflow) {
    && (w.activeDeadlineSeconds.Some? ==> w.activeDeadlineSeconds.value >= 0)
    && w.jobsSelector.Some?
    && ValidSteps(w.steps)
  }

  /** What an error on the steps says about them. */
  ghost predicate Justified(steps: Steps, e: FieldError) {
    match e
    case SortFailed(error) => TopologicalSort.Witnessed(GraphOf(steps), error)
    case ExclusiveReferences(n) => n in steps && Exclusive(steps[n])
    case _ => false
  }

  /** `keys` is the sorted listing of the step names. */
  method ValidateWorkflowSteps(steps: Steps, keys: seq<string>) returns (errors: seq<FieldError>)
    requires Lists(keys, steps.Keys)
    ensures errors == [] <==> ValidSteps(steps)
    ensures forall e :: e in errors ==> Justified(steps, e)
    ensures forall n :: n in steps && Exclusive(steps[n]) ==> ExclusiveReferences(n) in errors
    ensures !(Closed(GraphOf(steps)) && Acyclic(GraphOf(steps))) ==> exists e :: e in errors && e.SortFailed?
  {
    errors := [];
    var r, _ := TopologicalSort.Sort(GraphOf(steps), keys);
    if r.Err? {
      errors := errors + [SortFailed(r.error)];
    }
    var referenceErrors := ReferenceErrors(steps);
    errors := errors + referenceErrors;
    assert errors == [] <==> r.Ok? && referenceErrors == [];
    assert r.Err? ==> SortFailed(r.error) in errors;
  }

  /** The loop over the steps of `ValidateWorkflowSteps`. */
  method ReferenceErrors(steps: Steps) returns (errors: seq<FieldError>)
    ensures forall e :: e in errors ==> e.ExclusiveReferences? && Justified(steps, e)
    ensures forall n :: n in steps && Exclusive(steps[n]) ==> ExclusiveReferences(n) in errors
    ensures errors == [] <==> forall n :: n in steps ==> !Exclusive(steps[n])
  {
    errors := [];
    var rest := steps.Keys;
    while rest != {}
      invariant rest <= steps.Keys
      invariant forall e :: e in errors ==> e.ExclusiveReferences? && Justified(steps, e)
      invariant forall n :: n in steps && n !in rest && Exclusive(steps[n]) ==> ExclusiveReferences(n) in errors
    {
      var n :| n in rest;
      if steps[n].jobTemplate.Some? && steps[n].externalRef.Some? {
        errors := errors + [ExclusiveReferences(n)];
      }
      rest := rest - {n};
    }
    if errors != [] {
      assert errors[0] in errors;
    }
  }

  /** What each error says about a specification. */
  ghost predicate SpecFault(w: Workflow, checks: Checks, e: FieldError) {
    match e
    case NegativeDeadline => w.activeDeadlineSeconds.Some? && w.activeDeadlineSeconds.value < 0
    case SelectorRequired => w.jobsSelector.None?
    case SelectorInvalid => w.jobsSelector.Some? && !checks.selectorOk
    case ExclusiveReferences(n) => n in w.steps && w.steps[n].jobTemplate.Some? && w.steps[n].externalRef.Some?
    case SortFailed(error) => TopologicalSort.Witnessed(GraphOf(w.steps), error)
    case _ => false
  }

  method ValidateWorkflowSpec(w: Workflow, keys: seq<string>, checks: Checks) returns (errors: seq<FieldError>)
    requires Lists(keys, w.steps.Keys)
    ensures errors == [] <==> checks.selectorOk && ValidSpec(w)
    ensures forall e :: e in errors ==> SpecFault(w, checks, e)
    ensures forall e :: SpecFault(w, checks, e) && !e.SortFailed? ==> e in errors
    ensures !(Closed(GraphOf(w.steps)) && Acyclic(GraphOf(w.steps))) ==> exists e :: e in errors && e.SortFailed?
  {
    errors := [];
    if w.activeDeadlineSeconds.Some? && w.activeDeadlineSeconds.value < 0 {
      errors := errors + [NegativeDeadline];
    }
    if w.jobsSelector.None? {
      errors := errors + [SelectorRequired];
    } else if !checks.selectorOk {
      errors := errors + [SelectorInvalid];
    }
    var stepErrors := ValidateWorkflowSteps(w.steps, keys);
    errors := errors + stepErrors;
  }

  method ValidateWorkflow(w: Workflow, keys: seq<string>, checks: Checks) returns (errors: seq<FieldError>)
    requires Lists(keys, w.steps.Keys)
    ensures errors == [] <==> checks.Passed() && ValidSpec(w)
    ensures forall e :: e in errors ==> SpecFault(w, checks, e) || (e == MetadataInvalid && !checks.metadataOk)
    ensures forall e :: SpecFault(w, checks, e) && !e.SortFailed? ==> e in errors
    ensures !checks.metadataOk ==> MetadataInvalid in errors
    ensures !(Closed(GraphOf(w.steps)) && Acyclic(GraphOf(w.steps))) ==> exists e :: e in errors && e.SortFailed?
  {
    errors := if checks.metadataOk then [] else [MetadataInvalid];
    var specErrors := ValidateWorkflowSpec(w, keys, checks);
    errors := errors + specErrors;
  }

  // ---- Edits to a running workflow ----

  predicate Running(w: Workflow, n: string) {
    n in w.steps && n in w.statuses && !w.statuses[n].complete
  }

  predicate Completed(w: Workflow, n: string) {
    n in w.steps && Done(w.statuses, n)
  }

  ghost function RunningSteps(w: Workflow): set<string> {
    set n | n in w.steps && Running(w, n)
  }

  ghost function CompletedSteps(w: Workflow): set<string> {
    set n | n in w.steps && Completed(w, n)
  }

  method GetWorkflowRunningAndCompletedSteps(w: Workflow) returns (running: set<string>, completed: set<string>)
    ensures forall n :: n in running <==> n in w.steps && n in w.statuses && !w.statuses[n].complete
    ensures forall n :: n in completed <==> n in w.steps && n in w.statuses && w.statuses[n].complete
  {
    running, completed := {}, {};
    var rest := w.steps.Keys;
    while rest != {}
      invariant rest <= w.steps.Keys
      invariant forall n :: n in running <==> n !in rest && Running(w, n)
      invariant forall n :: n in completed <==> n !in rest && Completed(w, n)
    {
      var n :| n in rest;
      if n in w.statuses {
        if w.statuses[n].complete {
          completed := completed + {n};
        } else {
          running := running + {n};
        }
      }
      rest := rest - {n};
    }
  }

  const NO_STEP := Step(None, None, [])

  function StepAt(steps: Steps, n: string): Step {
    if n in steps then steps[n] else NO_STEP
  }

  ghost predicate KeepsStarted(steps: Steps, oldSteps: Steps, started: set<string>) {
    forall n :: n in started ==> n in steps && n in oldSteps && steps[n] == oldSteps[n]
  }

  /** What each error says about an edit; while a started step is missing, changed ones are not reported. */
  ghost predicate UpdateFault(w: Workflow, oldW: Workflow, running: set<string>, completed: set<string>, checks: Checks,
      e: FieldError) {
    match e
    case SelectorImmutable => w.jobsSelector != oldW.jobsSelector
    case CannotDelete(n, done) => n in oldW.steps && n !in w.steps && n in (if done then completed else running)
    case CannotModify(n, done) =>
      && (forall m :: m in running + completed && m in oldW.steps ==> m in w.steps)
      && n in w.steps && w.steps[n] != StepAt(oldW.steps, n) && n in (if done then completed else running)
    case _ => SpecFault(w, checks, e)
  }

  /** The loop over the removed steps of `ValidateWorkflowSpecUpdate`, which ends with the first started one. */
  method RemovedStep(steps: Steps, oldSteps: Steps, running: set<string>, completed: set<string>)
    returns (errors: seq<FieldError>)
    requires running + completed <= oldSteps.Keys
    ensures errors == [] <==> running + completed <= steps.Keys
    ensures errors != [] ==>
              && errors == [errors[0]] && errors[0].CannotDelete?
              && errors[0].step in (if errors[0].completed then completed else running)
              && errors[0].step !in steps
  {
    var removed := oldSteps.Keys - steps.Keys;
    while removed != {}
      invariant removed <= oldSteps.Keys - steps.Keys
      invariant (running + completed) !! (oldSteps.Keys - steps.Keys - removed)
    {
      var n :| n in removed;
      if n in running {
        return [CannotDelete(n, false)];
      }
      if n in completed {
        return [CannotDelete(n, true)];
      }
      removed := removed - {n};
    }
    return [];
  }

  /** The loop over the steps kept, of `ValidateWorkflowSpecUpdate`. */
  method ModifiedSteps(steps: Steps, oldSteps: Steps, running: set<string>, completed: set<string>)
    returns (errors: seq<FieldError>)
    requires running + completed <= oldSteps.Keys
    ensures forall e :: e in errors ==> e.CannotModify?
    ensures forall n, done :: CannotModify(n, done) in errors <==>
              n in (if done then completed else running) && n in steps && steps[n] != oldSteps[n]
    ensures errors == [] <==> forall n :: n in running + completed && n in steps ==> steps[n] == oldSteps[n]
  {
    errors := [];
    var rest := steps.Keys;
    while rest != {}
      invariant rest <= steps.Keys
      invariant forall e :: e in errors ==> e.CannotModify?
      invariant forall n, done :: CannotModify(n, done) in errors <==>
                  n in (if done then completed else running) && n in steps.Keys - rest && steps[n] != oldSteps[n]
      invariant errors == [] <==>
                forall n :: n in running + completed && n in steps.Keys - rest ==> steps[n] == oldSteps[n]
    {
      var n :| n in rest;
      if steps[n] != StepAt(oldSteps, n) {
        if n in running {
          errors := errors + [CannotModify(n, false)];
        }
        if n in completed {
          errors := errors + [CannotModify(n, true)];
        }
      }
      rest := rest - {n};
    }
  }

  method ValidateWorkflowSpecUpdate(w: Workflow, oldW: Workflow, running: set<string>, completed: set<string>,
      keys: seq<string>, checks: Checks)
    returns (errors: seq<FieldError>)
    requires Lists(keys, w.steps.Keys)
    requires running + completed <= oldW.steps.Keys
    ensures errors == [] <==> checks.selectorOk && ValidSpec(w) && w.jobsSelector == oldW.jobsSelector
                              && KeepsStarted(w.steps, oldW.steps, running + completed)
    ensures forall e :: e in errors ==> UpdateFault(w, oldW, running, completed, checks, e)
    ensures forall e :: UpdateFault(w, oldW, running, completed, checks, e) && !e.SortFailed? && !e.CannotDelete? ==>
                          e in errors
    ensures forall n :: n in running + completed && n !in w.steps ==> exists e :: e in errors && e.CannotDelete?
  {
    errors := ValidateWorkflowSpec(w, keys, checks);
    if w.jobsSelector != oldW.jobsSelector {
      errors := errors + [SelectorImmutable];
    }
    var removed := RemovedStep(w.steps, oldW.steps, running, completed);
    if removed != [] {
      return errors + removed;
    }
    var modified := ModifiedSteps(w.steps, oldW.steps, running, completed);
    assert forall n, done :: CannotModify(n, done) in modified <==>
                             UpdateFault(w, oldW, running, completed, checks, CannotModify(n, done));
    errors := errors + modified;
  }

  /** The workflow has no step left to run; a workflow without steps counts. */
  ghost predicate AllCompleted(w: Workflow) {
    forall n :: n in w.steps ==> Completed(w, n)
  }

  ghost predicate UpdateAllowed(w: Workflow, oldW: Workflow) {
    && !AllCompleted(oldW)
    && ValidSpec(w)
    && w.jobsSelector == oldW.jobsSelector
    && KeepsStarted(w.steps, oldW.steps, set n | n in oldW.steps && n in oldW.statuses)
  }

  /** `statusesPresent` says that the statuses map of the new object is not nil. */
  method ValidateWorkflowUpdate(w: Workflow, oldW: Workflow, keys: seq<string>, checks: Checks, statusesPresent: bool)
    returns (errors: seq<FieldError>)
    requires Lists(keys, w.steps.Keys)
    ensures errors == [] <==> checks.Passed() && statusesPresent && UpdateAllowed(w, oldW)
    ensures AllCompleted(oldW) ==> errors == (if checks.metadataOk then [] else [MetadataInvalid]) + [WorkflowCompleted]
    ensures !AllCompleted(oldW) ==>
              && (!checks.metadataOk ==> MetadataInvalid in errors) && (!statusesPresent ==> StatusesMissing in errors)
              && (forall e :: e in errors ==>
                    || (e == MetadataInvalid && !checks.metadataOk) || (e == StatusesMissing && !statusesPresent)
                    || UpdateFault(w, oldW, RunningSteps(oldW), CompletedSteps(oldW), checks, e))
              && (forall e :: UpdateFault(w, oldW, RunningSteps(oldW), CompletedSteps(oldW), checks, e) ==>
                                e in errors || e.SortFailed? || e.CannotDelete?)
              && ((exists n :: n in RunningSteps(oldW) + CompletedSteps(oldW) && n !in w.steps) ==>
                    exists e :: e in errors && e.CannotDelete?)
  {
    errors := if checks.metadataOk then [] else [MetadataInvalid];
    var running, completed := GetWorkflowRunningAndCompletedSteps(oldW);
    var allCompleted := true;
    var rest := oldW.steps.Keys;
    while allCompleted && rest != {}
      invariant rest <= oldW.steps.Keys
      invariant if allCompleted then forall n :: n in oldW.steps && n !in rest ==> Completed(oldW, n)
                else !AllCompleted(oldW)
      decreases |rest|
    {
      var n :| n in rest;
      if n !in completed {
        allCompleted := false;
      }
      rest := rest - {n};
    }
    if allCompleted {
      errors := errors + [WorkflowCompleted];
      return;
    }
    assert running + completed == set n | n in oldW.steps && n in oldW.statuses;
    assert running == RunningSteps(oldW) && completed == CompletedSteps(oldW);
    var specErrors := ValidateWorkflowSpecUpdate(w, oldW, running, completed, keys, checks);
    errors := errors + specErrors;
    if !statusesPresent {
      errors := errors + [StatusesMissing];
    }
  }
}
