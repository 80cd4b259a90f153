/** What one turn of the scheduler decides, what a pass over all steps does, and where repeated passes end. */
module Scheduling {
  import opened Prelude
  import opened Api
  import opened Jobs

  // ---- One turn ----

  datatype Action = Skip | Create | Write(status: StepStatus)

  /** What is done for a step, given the jobs that are listed for it. */
  function Decide(steps: Steps, statuses: Statuses, n: string, found: seq<Job>): Action
    requires n in steps
  {
    if Done(statuses, n) then Skip
    else if steps[n].jobTemplate.None? then Skip
    else if !DependenciesResolved(steps[n], statuses) then Skip
    else if |found| == 0 then Create
    else if |found| == 1 then Report(statuses, n, found[0])
    else Skip
  }

  function Report(statuses: Statuses, n: string, job: Job): Action {
    if job.reference.None? then Skip
    else
      var finished := IsJobFinished(job);
      if n in statuses && finished == statuses[n].complete then Skip
      else Write(StepStatus(finished, job.reference.value))
  }

  /**
   * A status is recorded complete exactly if some Complete or Failed condition of the job is True; False and
   * Unknown ones, and conditions of other types, do not count.  It is recorded if it is new or has changed.
   */
  lemma ReportMeaning(statuses: Statuses, n: string, job: Job)
    ensures var finished := exists i :: 0 <= i < |job.conditions| && job.conditions[i].status == ConditionTrue
                                        && job.conditions[i].conditionType in {JobComplete, JobFailed};
            Report(statuses, n, job) ==
            if job.reference.None? || (n in statuses && statuses[n].complete == finished) then Skip
            else Write(StepStatus(finished, job.reference.value))
  {
    if i :| 0 <= i < |job.conditions| && job.conditions[i].status == ConditionTrue
            && job.conditions[i].conditionType in {JobComplete, JobFailed} {
      assert job.conditions[i] in job.conditions && IsJobFinished(job);
    }
  }

  function Apply(statuses: Statuses, n: string, action: Action): Statuses {
    if action.Write? then statuses[n := action.status] else statuses
  }

  // ---- One pass ----

  /** What does not change while a pass runs undisturbed. */
  datatype Env = Env(namespace: string, labels: Labels, steps: Steps, store: seq<Job>)

  function Found(env: Env, n: string): seq<Job>
    requires n in env.steps
  {
    if env.steps[n].jobTemplate.None? then []
    else ListJobs(env.store, env.namespace, JobLabels(env.labels, env.steps[n].jobTemplate.value, n))
  }

  function Turn(env: Env, statuses: Statuses, n: string): Action
    requires n in env.steps
  {
    Decide(env.steps, statuses, n, Found(env, n))
  }

  /** The statuses after the turns of `order`, a sequence of step names. */
  function RunOrder(env: Env, order: seq<string>, statuses: Statuses): Statuses
    requires Elems(order) <= env.steps.Keys
  {
    if order == [] then statuses else
      var front, n := order[..|order| - 1], order[|order| - 1];
      assert Elems(front) <= Elems(order) && n in Elems(order);
      var before := RunOrder(env, front, statuses);
      Apply(before, n, Turn(env, before, n))
  }

  /** The steps of `order` whose turn launches a job, except the `blocked` ones. */
  function Launches(env: Env, order: seq<string>, statuses: Statuses, blocked: set<string>): seq<string>
    requires Elems(order) <= env.steps.Keys
  {
    if order == [] then [] else
      var front, n := order[..|order| - 1], order[|order| - 1];
      assert Elems(front) <= Elems(order) && n in Elems(order);
      var rest := Launches(env, front, statuses, blocked);
      if Turn(env, RunOrder(env, front, statuses), n).Create? && n !in blocked then rest + [n] else rest
  }

  lemma LaunchesSnoc(env: Env, order: seq<string>, n: string, statuses: Statuses, blocked: set<string>)
    requires Elems(order) <= env.steps.Keys && n in env.steps
    ensures Elems(order + [n]) <= env.steps.Keys
    ensures Launches(env, order + [n], statuses, blocked) ==
            Launches(env, order, statuses, blocked)
            + (if Turn(env, RunOrder(env, order, statuses), n).Create? && n !in blocked then [n] else [])
  {
    assert (order + [n])[..|order|] == order;
  }

  /** No turn changes a status. */
  ghost predicate Quiet(env: Env, statuses: Statuses) {
    forall n :: n in env.steps ==> !Turn(env, statuses, n).Write?
  }

  lemma {:induction false} RunOrderConcat(env: Env, a: seq<string>, b: seq<string>, statuses: Statuses)
    requires Elems(a) <= env.steps.Keys && Elems(b) <= env.steps.Keys
    ensures Elems(a + b) <= env.steps.Keys
    ensures RunOrder(env, a + b, statuses) == RunOrder(env, b, RunOrder(env, a, statuses))
  {
    if b == [] {
      assert a + b == a;
    } else {
      var front := b[..|b| - 1];
      assert Elems(front) <= Elems(b);
      RunOrderConcat(env, a, front, statuses);
      assert (a + b)[..|a + b| - 1] == a + front;
    }
  }

  // ---- What a pass can change ----

  /** The single job listed for the step has finished. */
  predicate JobDone(env: Env, n: string)
    requires n in env.steps
  {
    |Found(env, n)| == 1 && IsJobFinished(Found(env, n)[0])
  }

  /** The steps whose status no further turn changes. */
  ghost function Frozen(env: Env, statuses: Statuses): set<string> {
    set n | n in env.steps && n in statuses && (statuses[n].complete || !JobDone(env, n))
  }

  ghost predicate Advanced(env: Env, before: Statuses, after: Statuses) {
    && before.Keys <= after.Keys <= before.Keys + env.steps.Keys
    && (forall n :: Done(before, n) ==> n in after && after[n] == before[n])
    && Frozen(env, before) <= Frozen(env, after)
    && (before == after || Frozen(env, before) != Frozen(env, after))
  }

  lemma {:induction false} RunAdvances(env: Env, order: seq<string>, statuses: Statuses)
    requires Elems(order) <= env.steps.Keys
    ensures Advanced(env, statuses, RunOrder(env, order, statuses))
  {
    if order != [] {
      var front, n := order[..|order| - 1], order[|order| - 1];
      assert Elems(front) <= Elems(order) && n in Elems(order);
      RunAdvances(env, front, statuses);
      var before := RunOrder(env, front, statuses);
      if Turn(env, before, n).Write? {
        assert n !in Frozen(env, before);
        assert n in Frozen(env, RunOrder(env, order, statuses));
      }
    }
  }

  /** A run that leaves the statuses alone has passed no step whose turn would write. */
  lemma {:induction false} IdleRunWritesNothing(env: Env, order: seq<string>, statuses: Statuses, n: string)
    requires Elems(order) <= env.steps.Keys && RunOrder(env, order, statuses) == statuses
    requires n in order
    ensures !Turn(env, statuses, n).Write?
  {
    var front, last := order[..|order| - 1], order[|order| - 1];
    assert Elems(front) <= Elems(order) && last in Elems(order);
    RunAdvances(env, front, statuses);
    var before := RunOrder(env, front, statuses);
    RunAdvances(env, [last], before);
    assert RunOrder(env, [last], before) == RunOrder(env, order, statuses) by {
      assert [last][..0] == [];
    }
    assert before == statuses;
    if n in front {
      IdleRunWritesNothing(env, front, statuses, n);
    }
  }

  /** A pass leaves alone the status of a step it has not come to. */
  lemma {:induction false} RunLeavesOthers(env: Env, order: seq<string>, statuses: Statuses, n: string)
    requires Elems(order) <= env.steps.Keys && n !in order
    ensures var after := RunOrder(env, order, statuses);
            (n in after <==> n in statuses) && (n in after ==> after[n] == statuses[n])
  {
    if order != [] {
      assert Elems(order[..|order| - 1]) <= Elems(order);
      RunLeavesOthers(env, order[..|order| - 1], statuses, n);
    }
  }

  // ---- Confluence ----

  /**
   * Every status that differs from the first one is the report of the step's job, and agrees with
   * the status the step has in `end`.
   */
  ghost predicate AgreesWith(env: Env, first: Statuses, now: Statuses, end: Statuses) {
    forall n :: n in now && !(n in first && first[n] == now[n]) ==> n in end && end[n] == now[n]
  }

  ghost predicate Reported(env: Env, first: Statuses, now: Statuses) {
    && first.Keys <= now.Keys
    && (forall n :: Done(first, n) ==> Done(now, n))
    && forall n :: n in now && !(n in first && first[n] == now[n]) ==>
         && n in env.steps && |Found(env, n)| == 1 && Found(env, n)[0].reference.Some?
         && now[n] == StepStatus(IsJobFinished(Found(env, n)[0]), Found(env, n)[0].reference.value)
  }

  lemma {:induction false} RunReports(env: Env, order: seq<string>, statuses: Statuses)
    requires Elems(order) <= env.steps.Keys
    ensures Reported(env, statuses, RunOrder(env, order, statuses))
  {
    if order != [] {
      var front, n := order[..|order| - 1], order[|order| - 1];
      assert Elems(front) <= Elems(order) && n in Elems(order);
      RunReports(env, front, statuses);
    }
  }

  /** Whatever a run writes, every quiet outcome from the same start holds too. */
  lemma {:induction false} RunAgrees(env: Env, order: seq<string>, statuses: Statuses, end: Statuses)
    requires Elems(order) <= env.steps.Keys
    requires Reported(env, statuses, end) && Quiet(env, end)
    ensures AgreesWith(env, statuses, RunOrder(env, order, statuses), end)
  {
    if order != [] {
      var front, n := order[..|order| - 1], order[|order| - 1];
      assert Elems(front) <= Elems(order) && n in Elems(order);
      RunAgrees(env, front, statuses, end);
      RunReports(env, front, statuses);
      RunAdvances(env, front, statuses);
      var before := RunOrder(env, front, statuses);
      if Turn(env, before, n).Write? {
        WriteAgrees(env, statuses, before, end, n);
      }
    }
  }

  lemma WriteAgrees(env: Env, first: Statuses, now: Statuses, end: Statuses, n: string)
    requires Reported(env, first, now) && Reported(env, first, end) && Quiet(env, end)
             && AgreesWith(env, first, now, end)
    requires n in env.steps && Turn(env, now, n).Write?
    ensures n in end && end[n] == Turn(env, now, n).status
  {
    assert forall d :: d in env.steps[n].dependencies ==> Done(now, d) && Done(end, d);
    assert !Turn(env, end, n).Write?;
  }

  /** Two runs from the same statuses over the same job store that both end quietly end alike. */
  lemma Confluence(env: Env, a: seq<string>, b: seq<string>, statuses: Statuses)
    requires Elems(a) <= env.steps.Keys && Elems(b) <= env.steps.Keys
    requires Quiet(env, RunOrder(env, a, statuses)) && Quiet(env, RunOrder(env, b, statuses))
    ensures RunOrder(env, a, statuses) == RunOrder(env, b, statuses)
  {
    RunReports(env, a, statuses);
    RunReports(env, b, statuses);
    RunAgrees(env, a, statuses, RunOrder(env, b, statuses));
    RunAgrees(env, b, statuses, RunOrder(env, a, statuses));
  }

  /** Any number of passes, each ranging over all steps in an order of its own. */
  ghost predicate Passes(env: Env, orders: seq<seq<string>>) {
    forall i :: 0 <= i < |orders| ==> Lists(orders[i], env.steps.Keys)
  }

  ghost function RunPasses(env: Env, orders: seq<seq<string>>, statuses: Statuses): Statuses
    requires Passes(env, orders)
  {
    if orders == [] then statuses else
      RunOrder(env, orders[|orders| - 1], RunPasses(env, orders[..|orders| - 1], statuses))
  }

  ghost function Flattened(orders: seq<seq<string>>): seq<string> {
    if orders == [] then [] else Flattened(orders[..|orders| - 1]) + orders[|orders| - 1]
  }

  lemma {:induction false} PassesAreOneRun(env: Env, orders: seq<seq<string>>, statuses: Statuses)
    requires Passes(env, orders)
    ensures Elems(Flattened(orders)) <= env.steps.Keys
    ensures RunPasses(env, orders, statuses) == RunOrder(env, Flattened(orders), statuses)
  {
    if orders != [] {
      var front, last := orders[..|orders| - 1], orders[|orders| - 1];
      PassesAreOneRun(env, front, statuses);
      RunOrderConcat(env, Flattened(front), last, statuses);
    }
  }

  /** A pass that changes nothing shows that no turn would; a pass that changes something freezes a step. */
  lemma PassQuietOrAdvances(env: Env, order: seq<string>, statuses: Statuses)
    requires Lists(order, env.steps.Keys)
    ensures RunOrder(env, order, statuses) == statuses <==> Quiet(env, statuses)
    ensures !Quiet(env, statuses) ==> |Frozen(env, RunOrder(env, order, statuses))| > |Frozen(env, statuses)|
  {
    RunAdvances(env, order, statuses);
    SubsetSize(Frozen(env, statuses), Frozen(env, RunOrder(env, order, statuses)));
    if RunOrder(env, order, statuses) == statuses {
      forall n | n in env.steps ensures !Turn(env, statuses, n).Write? {
        assert n in Elems(order);
        IdleRunWritesNothing(env, order, statuses, n);
      }
    }
    if Quiet(env, statuses) {
      QuietRun(env, order, statuses);
    }
  }

  lemma {:induction false} QuietRun(env: Env, order: seq<string>, statuses: Statuses)
    requires Elems(order) <= env.steps.Keys && Quiet(env, statuses)
    ensures RunOrder(env, order, statuses) == statuses
  {
    if order != [] {
      assert order[|order| - 1] in Elems(order);
      assert Elems(order[..|order| - 1]) <= Elems(order);
      QuietRun(env, order[..|order| - 1], statuses);
    }
  }

  lemma {:induction false} QuietOrFrozen(env: Env, orders: seq<seq<string>>, statuses: Statuses)
    requires Passes(env, orders)
    ensures Quiet(env, RunPasses(env, orders, statuses)) || |Frozen(env, RunPasses(env, orders, statuses))| >= |orders|
  {
    if orders != [] {
      var front, last := orders[..|orders| - 1], orders[|orders| - 1];
      QuietOrFrozen(env, front, statuses);
      PassQuietOrAdvances(env, last, RunPasses(env, front, statuses));
    }
  }

  /**
   * With a fixed job store, as many passes as there are steps settle every status, and the outcome
   * does not depend on the order in which any of the passes ranges over the steps.
   */
  lemma PassesSettle(env: Env, a: seq<seq<string>>, b: seq<seq<string>>, statuses: Statuses)
    requires Passes(env, a) && Passes(env, b)
    requires |a| >= |env.steps| && |b| >= |env.steps|
    ensures Quiet(env, RunPasses(env, a, statuses))
    ensures RunPasses(env, a, statuses) == RunPasses(env, b, statuses)
  {
    EnoughPasses(env, a, statuses);
    EnoughPasses(env, b, statuses);
    PassesAreOneRun(env, a, statuses);
    PassesAreOneRun(env, b, statuses);
    Confluence(env, Flattened(a), Flattened(b), statuses);
  }

  lemma EnoughPasses(env: Env, orders: seq<seq<string>>, statuses: Statuses)
    requires Passes(env, orders) && |orders| >= |env.steps|
    ensures Quiet(env, RunPasses(env, orders, statuses))
  {
    var end := RunPasses(env, orders, statuses);
    QuietOrFrozen(env, orders, statuses);
    SubsetSize(Frozen(env, end), env.steps.Keys);
  }
}
