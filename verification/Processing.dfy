/** One call of the transitioner on a workflow value: defaulting, validation, the step loop, completion. */
module Processing {
  import opened Prelude
  import opened Api
  import opened Jobs
  import opened Validation
  import opened Scheduling

  /** What a pass reads besides the workflow: the job store, the order of the step map, the clock. */
  datatype Input = Input(synced: bool, store: seq<Job>, order: seq<string>, checks: Checks, now: int)

  predicate PreconditionsMet(w: Workflow, synced: bool) {
    synced && !IsFinished(w.conditions) && !(PAUSE_LABEL in w.labels && w.labels[PAUSE_LABEL] == "true")
  }

  /**
   * A call proceeds exactly if the job store is synced, no Complete or Failed condition is True, and the
   * workflow is not paused.
   */
  lemma ProceedsIff(w: Workflow, synced: bool)
    ensures PreconditionsMet(w, synced) <==>
              && synced
              && (forall i :: 0 <= i < |w.conditions| && w.conditions[i].status == ConditionTrue ==>
                                w.conditions[i].conditionType !in {WorkflowComplete, WorkflowFailed})
              && !(PAUSE_LABEL in w.labels && w.labels[PAUSE_LABEL] == "true")
  {
    if i :| 0 <= i < |w.conditions| && w.conditions[i].status == ConditionTrue
            && w.conditions[i].conditionType in {WorkflowComplete, WorkflowFailed} {
      assert w.conditions[i] in w.conditions && IsTerminal(w.conditions[i]);
    }
  }

  predicate AllDone(w: Workflow) {
    forall n :: n in w.steps ==> Done(w.statuses, n)
  }

  function EnvOf(w: Workflow, store: seq<Job>): Env {
    Env(w.namespace, w.labels, w.steps, store)
  }

  /** Whether some turn of the order writes a status. */
  predicate Writes(env: Env, order: seq<string>, statuses: Statuses)
    requires Elems(order) <= env.steps.Keys
  {
    if order == [] then false else
      var front, n := order[..|order| - 1], order[|order| - 1];
      assert Elems(front) <= Elems(order) && n in Elems(order);
      Turn(env, RunOrder(env, front, statuses), n).Write? || Writes(env, front, statuses)
  }

  /** The workflow after the step loop, and whether the loop asks for an update. */
  function ProcessSteps(w: Workflow, store: seq<Job>, order: seq<string>, now: int): (Workflow, bool)
    requires Elems(order) <= w.steps.Keys
  {
    var env := EnvOf(w, store);
    var after := w.(statuses := RunOrder(env, order, w.statuses));
    if AllDone(w) then (AddCompleteCondition(after, now), true)
    else (after, Writes(env, order, w.statuses))
  }

  predicate NeedsValidation(labels: Labels) {
    VALID_LABEL !in labels || labels[VALID_LABEL] == FormatBool(false)
  }

  /** The workflow after one call, and whether the call asks for an update. */
  ghost function Process(w: Workflow, input: Input): (Workflow, bool)
    requires Elems(input.order) <= w.steps.Keys
  {
    if UID_LABEL !in w.labels then (SetDefaults(w, input.now), true)
    else if NeedsValidation(w.labels) then
      var valid := input.checks.Passed() && ValidSpec(w);
      var labelled := w.(labels := w.labels[VALID_LABEL := FormatBool(valid)]);
      if valid then (ProcessSteps(labelled, input.store, input.order, input.now).0, true)
      else (labelled, VALID_LABEL !in w.labels)
    else ProcessSteps(w, input.store, input.order, input.now)
  }

  /** The step loop adds a Complete condition exactly if all steps were complete before it, with the call's time. */
  lemma StepsMeaning(w: Workflow, store: seq<Job>, order: seq<string>, now: int)
    requires Elems(order) <= w.steps.Keys
    ensures var (after, asks) := ProcessSteps(w, store, order, now);
            && after == w.(statuses := after.statuses, conditions := after.conditions,
                           completionTime := after.completionTime)
            && if forall n :: n in w.steps ==> n in w.statuses && w.statuses[n].complete
               then asks && after.completionTime == Some(now)
                    && after.conditions == w.conditions + [WorkflowCondition(WorkflowComplete, ConditionTrue)]
               else after.conditions == w.conditions && after.completionTime == w.completionTime
  {
  }

  /** What a call makes of the labels, and when it gets no further than them. */
  lemma ProcessMeaning(w: Workflow, input: Input)
    requires Elems(input.order) <= w.steps.Keys
    ensures var (after, asks) := Process(w, input);
            var valid := input.checks.metadataOk && input.checks.selectorOk && ValidSpec(w);
            if UID_LABEL !in w.labels then asks && after == SetDefaults(w, input.now)
            else if VALID_LABEL in w.labels && w.labels[VALID_LABEL] != "false" then
              after.labels == w.labels && (after, asks) == ProcessSteps(w, input.store, input.order, input.now)
            else
              && after.labels == w.labels[VALID_LABEL := if valid then "true" else "false"]
              && (!valid ==> after == w.(labels := after.labels) && asks == (VALID_LABEL !in w.labels))
              && (valid ==>
                    var labelled := w.(labels := after.labels);
                    asks && after == ProcessSteps(labelled, input.store, input.order, input.now).0)
  {
  }

  /** The call gets to the step loop. */
  ghost predicate ReachesSteps(w: Workflow, checks: Checks) {
    UID_LABEL in w.labels && (NeedsValidation(w.labels) ==> checks.Passed() && ValidSpec(w))
  }

  /** The workflow as it enters the step loop. */
  function Accepted(w: Workflow): Workflow {
    if NeedsValidation(w.labels) then w.(labels := w.labels[VALID_LABEL := FormatBool(true)]) else w
  }

  /** The call gets to write a status and there is no map to write it to. */
  ghost predicate Panics(w: Workflow, hasStatuses: bool, input: Input)
    requires Elems(input.order) <= w.steps.Keys
  {
    !hasStatuses && ReachesSteps(w, input.checks) && Writes(EnvOf(Accepted(w), input.store), input.order, w.statuses)
  }

  lemma WritesMore(env: Env, order: seq<string>, n: string, statuses: Statuses)
    requires Elems(order) <= env.steps.Keys && n in env.steps
    ensures Elems(order + [n]) <= env.steps.Keys
    ensures Writes(env, order + [n], statuses) <==>
            Turn(env, RunOrder(env, order, statuses), n).Write? || Writes(env, order, statuses)
  {
    assert (order + [n])[..|order|] == order;
  }

  lemma {:induction false} WritesChange(env: Env, order: seq<string>, statuses: Statuses)
    requires Elems(order) <= env.steps.Keys
    ensures Writes(env, order, statuses) <==> RunOrder(env, order, statuses) != statuses
  {
    if order != [] {
      var front, n := order[..|order| - 1], order[|order| - 1];
      assert Elems(front) <= Elems(order) && n in Elems(order);
      WritesChange(env, front, statuses);
      RunAdvances(env, front, statuses);
      RunAdvances(env, order, statuses);
      var before := RunOrder(env, front, statuses);
      if Turn(env, before, n).Write? {
        assert n !in Frozen(env, before);
        assert n in Frozen(env, RunOrder(env, order, statuses));
      }
    }
  }

  /** An update is asked for exactly when labels, spec or status have changed. */
  lemma UpdateIffChanged(w: Workflow, input: Input)
    requires Elems(input.order) <= w.steps.Keys
    ensures Process(w, input).1 <==> Process(w, input).0 != w
  {
    LabelKeysDiffer();
    FormatBoolDiffers();
    var r := Process(w, input);
    if UID_LABEL !in w.labels {
      assert UID_LABEL in r.0.labels;
    } else if NeedsValidation(w.labels) {
      if input.checks.Passed() && ValidSpec(w) {
        assert VALID_LABEL in r.0.labels && r.0.labels[VALID_LABEL] == FormatBool(true);
      } else {
        assert VALID_LABEL in w.labels ==> r.0.labels == w.labels;
      }
    } else {
      WritesChange(EnvOf(w, input.store), input.order, w.statuses);
      assert |AddCompleteCondition(w, input.now).conditions| != |w.conditions|;
      assert AllDone(w) ==> |r.0.conditions| != |w.conditions|;
    }
  }

  /**
   * Defaulting starts a workflow without statuses, and makes its jobs identifiable exactly if the
   * selector was absent or held nothing else and no template sets the UID label.
   */
  lemma DefaultingIdentifiesIff(w: Workflow, now: int)
    ensures Identified(SetDefaults(w, now)) <==>
              (w.jobsSelector.None? || w.jobsSelector.value.Keys <= {UID_LABEL})
              && forall n :: n in w.steps && w.steps[n].jobTemplate.Some? ==>
                    UID_LABEL !in w.steps[n].jobTemplate.value.labels
    ensures SetDefaults(w, now).statuses == map[] && SetDefaults(w, now).steps == w.steps
    ensures !IsFinished(w.conditions) ==> !PhaseOf(SetDefaults(w, now)).Raw?
  {
    var after := SetDefaults(w, now);
    if w.jobsSelector.Some? {
      if after.jobsSelector.value == map[UID_LABEL := w.uid] {
        assert after.jobsSelector.value.Keys == {UID_LABEL};
      }
    }
  }

  // ---- Phases ----

  datatype Phase = Raw | Defaulted | Invalid | Validated | Finished

  function PhaseOf(w: Workflow): Phase {
    if IsFinished(w.conditions) then Finished
    else if UID_LABEL !in w.labels then Raw
    else if VALID_LABEL !in w.labels then Defaulted
    else if w.labels[VALID_LABEL] == FormatBool(false) then Invalid
    else Validated
  }

  /** Phases in the order in which a workflow goes through them; an invalid workflow may still become valid. */
  function Rank(phase: Phase): nat {
    match phase
    case Raw => 0
    case Defaulted => 1
    case Invalid => 2
    case Validated => 3
    case Finished => 4
  }

  /** One call on the workflow as the previous one left it. */
  ghost function Transition(w: Workflow, input: Input): Workflow
    requires Elems(input.order) <= w.steps.Keys
  {
    if PreconditionsMet(w, input.synced) then Process(w, input).0 else w
  }

  /** What calls may do to a workflow, whatever the job store holds. */
  ghost predicate Progressed(before: Workflow, after: Workflow) {
    && after.(labels := before.labels, jobsSelector := before.jobsSelector, statuses := before.statuses,
              conditions := before.conditions, startTime := before.startTime,
                completionTime := before.completionTime) == before
    && Rank(PhaseOf(before)) <= Rank(PhaseOf(after))
    && (PhaseOf(before).Finished? ==> after == before)
    && (!PhaseOf(before).Raw? ==> forall n :: Done(before.statuses, n) ==>
          Done(after.statuses, n) && after.statuses[n] == before.statuses[n])
    && (if PhaseOf(after).Finished? && !PhaseOf(before).Finished?
        then after.conditions == before.conditions + [COMPLETED] && AllDone(after)
        else after.conditions == before.conditions)
  }

  lemma TransitionProgresses(w: Workflow, input: Input)
    requires Elems(input.order) <= w.steps.Keys
    ensures Progressed(w, Transition(w, input))
    ensures PhaseOf(Transition(w, input)).Finished? && !PhaseOf(w).Finished? ==> AllDone(w)
  {
    if PreconditionsMet(w, input.synced) {
      if UID_LABEL in w.labels {
        CallProgresses(w, input);
      } else {
        LabelKeysDiffer();
      }
    }
  }

  /** A call on a workflow that has been defaulted. */
  lemma CallProgresses(w: Workflow, input: Input)
    requires Elems(input.order) <= w.steps.Keys && PreconditionsMet(w, input.synced) && UID_LABEL in w.labels
    ensures Progressed(w, Process(w, input).0)
    ensures PhaseOf(Process(w, input).0).Finished? ==> AllDone(w)
  {
    LabelKeysDiffer();
    FormatBoolDiffers();
    var after := Process(w, input).0;
    RunAdvances(EnvOf(w.(labels := after.labels), input.store), input.order, w.statuses);
    if after.conditions != w.conditions {
      assert IsTerminal(COMPLETED) && COMPLETED in after.conditions;
      assert IsFinished(after.conditions);
    }
  }

  ghost function Run(w: Workflow, inputs: seq<Input>): Workflow
    requires forall i :: 0 <= i < |inputs| ==> Elems(inputs[i].order) <= w.steps.Keys
    ensures Run(w, inputs).steps == w.steps
  {
    if inputs == [] then w else Transition(Run(w, inputs[..|inputs| - 1]), inputs[|inputs| - 1])
  }

  /**
   * Over any number of calls, each on the result of the one before and each with a job store of its
   * own: phases never go back, complete steps stay as they are, a finished workflow is never changed,
   * and the Complete condition is added at most once, when every step is complete.
   */
  lemma {:induction false} RunProgresses(w: Workflow, inputs: seq<Input>)
    requires forall i :: 0 <= i < |inputs| ==> Elems(inputs[i].order) <= w.steps.Keys
    ensures Progressed(w, Run(w, inputs))
  {
    if inputs != [] {
      var front := inputs[..|inputs| - 1];
      RunProgresses(w, front);
      TransitionProgresses(Run(w, front), inputs[|inputs| - 1]);
    }
  }
}
