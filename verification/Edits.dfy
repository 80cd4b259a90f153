/** Accepted edits to a running workflow keep it schedulable: an unfinished one always has a ready step. */
module Edits {
  import opened Prelude
  import opened Graphs
  import opened Api
  import opened Scheduling
  import opened Validation
  import opened Processing

  /** The graph is closed and acyclic, and only existing steps whose dependencies are complete have started. */
  ghost predicate Schedulable(w: Workflow) {
    && Closed(GraphOf(w.steps)) && Acyclic(GraphOf(w.steps))
    && forall n :: n in w.statuses ==> n in w.steps && DependenciesResolved(w.steps[n], w.statuses)
  }

  /** The dependencies of the step are complete and it is not. */
  predicate Ready(w: Workflow, n: string) {
    n in w.steps && !Done(w.statuses, n) && DependenciesResolved(w.steps[n], w.statuses)
  }

  ghost predicate HasReady(w: Workflow) {
    exists n :: Ready(w, n)
  }

  /** The controller works only on steps that run jobs; an external step that is ready stays as it is. */
  ghost predicate HasReadyJob(w: Workflow) {
    exists n :: Ready(w, n) && w.steps[n].jobTemplate.Some?
  }

  predicate JobsOnly(w: Workflow) {
    forall n :: n in w.steps ==> w.steps[n].jobTemplate.Some?
  }

  /** In a closed and acyclic graph an unfinished workflow always has a ready step. */
  lemma NoDeadlock(w: Workflow) returns (n: string)
    requires Closed(GraphOf(w.steps)) && Acyclic(GraphOf(w.steps)) && !AllDone(w)
    ensures Ready(w, n)
  {
    var g := GraphOf(w.steps);
    var undone := set n | n in w.steps && !Done(w.statuses, n);
    var u :| u in w.steps && !Done(w.statuses, u);
    assert u in undone;
    n := MinimalStep(g, undone);
    forall d | d in w.steps[n].dependencies ensures Done(w.statuses, d) {
      assert DependsOn(g, n, d);
      assert d in g && d !in undone;
    }
  }

  lemma {:induction false} RunKeepsSchedulable(env: Env, order: seq<string>, w: Workflow)
    requires Schedulable(w) && env.steps == w.steps && Elems(order) <= env.steps.Keys
    ensures Schedulable(w.(statuses := RunOrder(env, order, w.statuses)))
  {
    if order != [] {
      var front, n := order[..|order| - 1], order[|order| - 1];
      assert Elems(front) <= Elems(order) && n in Elems(order);
      RunKeepsSchedulable(env, front, w);
      var before := RunOrder(env, front, w.statuses);
      RunAdvances(env, [n], before);
      assert RunOrder(env, [n], before) == RunOrder(env, order, w.statuses) by {
        assert [n][..0] == [];
      }
    }
  }

  lemma TransitionKeepsSchedulable(w: Workflow, input: Input)
    requires Schedulable(w) && Elems(input.order) <= w.steps.Keys
    ensures Schedulable(Transition(w, input))
  {
    if PreconditionsMet(w, input.synced) && UID_LABEL in w.labels {
      var labelled := w.(labels := Transition(w, input).labels);
      RunKeepsSchedulable(EnvOf(labelled, input.store), input.order, labelled);
      assert labelled.(statuses := w.statuses) == labelled;
    }
  }

  /** An accepted edit that leaves the status alone keeps the workflow schedulable and its started steps as they are. */
  lemma EditKeepsSchedulable(w: Workflow, oldW: Workflow)
    requires Schedulable(oldW) && UpdateAllowed(w, oldW) && w.statuses == oldW.statuses
    ensures Schedulable(w)
    ensures forall n :: n in w.statuses ==> w.steps[n] == oldW.steps[n]
  {
  }

  /** One change to a workflow: a call of the transitioner, or an accepted edit that leaves the status alone. */
  ghost predicate Changed(before: Workflow, after: Workflow) {
    || (exists input: Input :: Elems(input.order) <= before.steps.Keys && after == Transition(before, input))
    || (UpdateAllowed(after, before) && after.statuses == before.statuses)
  }

  ghost predicate IsHistory(ws: seq<Workflow>) {
    |ws| > 0 && forall i :: 0 <= i < |ws| - 1 ==> Changed(ws[i], ws[i + 1])
  }

  /**
   * However calls and accepted edits alternate after defaulting, the workflow stays schedulable: as
   * long as a step is unfinished, one is ready, and if all steps run jobs the controller can work on it.
   */
  lemma {:induction false} EditedWorkflowNeverDeadlocks(ws: seq<Workflow>)
    requires IsHistory(ws)
    requires ws[0].statuses == map[] && ValidSteps(ws[0].steps)
    ensures Schedulable(ws[|ws| - 1])
    ensures !AllDone(ws[|ws| - 1]) ==> HasReady(ws[|ws| - 1]) && (JobsOnly(ws[|ws| - 1]) ==> HasReadyJob(ws[|ws| - 1]))
  {
    var last := ws[|ws| - 1];
    if |ws| > 1 {
      var front := ws[..|ws| - 1];
      EditedWorkflowNeverDeadlocks(front);
      var before := front[|front| - 1];
      assert Changed(ws[|ws| - 2], ws[|ws| - 2 + 1]);
      if UpdateAllowed(last, before) && last.statuses == before.statuses {
        EditKeepsSchedulable(last, before);
      } else {
        var input: Input :| Elems(input.order) <= before.steps.Keys && last == Transition(before, input);
        TransitionKeepsSchedulable(before, input);
      }
    }
    if !AllDone(last) {
      var n := NoDeadlock(last);
    }
  }
}
