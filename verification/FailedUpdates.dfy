/**
 * What becomes of a change that did not reach the server.  The cached workflow, which a call changes in
 * part, is replaced only when a poll finds that the workflow it has listed differs from the entry of the
 * name map; that entry holds the same maps as the cached workflow until the next poll.  Between what a call
 * changes in place and the arrival of its update, and between a poll's listing and its comparison, anything
 * else may happen.
 */
module FailedUpdates {
  import opened Prelude
  import opened Api
  import opened Jobs
  import opened Validation
  import opened Scheduling
  import opened Processing
  import opened Objects
  import opened TransitionerModel

  /**
   * `listed` is what a poll has listed and not yet compared; `shared` says that the entry of the name map
   * holds the maps of the cached workflow; `held` is what a call is about to send.
   */
  datatype State = State(
    server: Copy,
    listed: Option<Copy>,
    known: Option<Copy>,
    cached: Copy,
    shared: bool,
    held: Option<Copy>)

  /** `Rewatch` starts a watch with an empty name map; a list that is on its way is lost with the old one. */
  datatype Event = List | Compare | Rewatch | Call(input: Input) | Update(accepted: bool)

  /** A call ranges over all steps; there is one call at a time. */
  ghost predicate Enabled(s: State, e: Event) {
    match e
    case List => s.listed.None?
    case Compare => s.listed.Some?
    case Rewatch => true
    case Call(input) => s.held.None? && Elems(input.order) == s.cached.w.steps.Keys && NoDup(input.order)
    case Update(_) => s.held.Some?
  }

  /** The comparison delivers the listed workflow to the cache. */
  predicate Delivers(s: State)
    requires s.listed.Some?
  {
    s.known != s.listed
  }

  /** The call gets past its preconditions. */
  predicate Begins(c: Copy, input: Input) {
    PreconditionsMet(c.w, input.synced)
  }

  /** The call tries to send the workflow. */
  ghost predicate Sends(c: Copy, input: Input)
    requires Elems(input.order) <= c.w.steps.Keys
  {
    Begins(c, input) && !Panics(c.w, c.hasStatuses, input) && Process(c.w, input).1
  }

  /** What a call leaves of the workflow it was given a copy of. */
  ghost function Left(c: Copy, input: Input): Copy
    requires Elems(input.order) <= c.w.steps.Keys
  {
    if !Begins(c, input) then c
    else if Panics(c.w, c.hasStatuses, input) then c.(w := Accepted(c.w))
    else c.(w := Remnant(c.w, Process(c.w, input).0, c.hasLabels))
  }

  /** What the call sends; defaulting makes labels and statuses if there are none. */
  ghost function SentBy(c: Copy, input: Input): Copy
    requires Elems(input.order) <= c.w.steps.Keys
  {
    Copy(Process(c.w, input).0, true, c.hasStatuses || UID_LABEL !in c.w.labels, c.version)
  }

  ghost function Next(s: State, e: Event): State
    requires Enabled(s, e)
  {
    match e
    case List => s.(listed := Some(s.server))
    case Compare =>
      if Delivers(s) then s.(listed := None, known := s.listed, cached := s.listed.value, shared := true)
      else s.(listed := None, shared := false)
    case Rewatch => s.(listed := None, known := None, shared := false)
    case Call(input) =>
      var left := Left(s.cached, input);
      s.(known := if s.shared then Some(left) else s.known, cached := left,
         held := if Sends(s.cached, input) then Some(SentBy(s.cached, input)) else None)
    case Update(accepted) =>
      s.(server := if accepted then s.held.value.(version := s.server.version + 1) else s.server, held := None)
  }

  /** A call whose update, if it makes one, fails at once. */
  ghost function Failed(s: State, input: Input): State
    requires Enabled(s, Call(input))
  {
    Next(s, Call(input)).(held := None)
  }

  ghost predicate IsHistory(s: State, es: seq<Event>)
    decreases |es|
  {
    es == [] || (Enabled(s, es[0]) && IsHistory(Next(s, es[0]), es[1..]))
  }

  ghost function After(s: State, es: seq<Event>): State
    requires IsHistory(s, es)
    decreases |es|
  {
    if es == [] then s else After(Next(s, es[0]), es[1..])
  }

  /** An entry that shares the maps of the cached workflow shows the same. */
  ghost predicate Coherent(s: State) {
    && IsCopy(s.server) && IsCopy(s.cached) && (s.held.Some? ==> IsCopy(s.held.value))
    && (s.listed.Some? ==> IsCopy(s.listed.value)) && (s.known.Some? ==> IsCopy(s.known.value))
    && (s.shared ==> s.known == Some(s.cached))
  }

  /** No call is under way, and the last poll has seen the server's workflow as it is. */
  ghost predicate Polled(s: State) {
    Coherent(s) && s.known == Some(s.server) && (s.listed.Some? ==> s.listed == Some(s.server)) && s.held.None?
  }

  /**
   * After a call that sent nothing successfully, a poll notices what the call left exactly if the entry
   * shares its maps.
   */
  lemma PollNoticesIff(s: State, input: Input)
    requires Polled(s) && s.listed.None? && Enabled(s, Call(input))
    ensures var after := Failed(s, input);
            Delivers(Next(after, List)) <==> s.shared && after.cached != s.server
  {
  }

  // ---- What a call leaves ----

  lemma LeftIsCopy(c: Copy, input: Input)
    requires IsCopy(c) && Elems(input.order) <= c.w.steps.Keys
    ensures IsCopy(Left(c, input))
  {
    if Begins(c, input) && !c.hasStatuses && ReachesSteps(c.w, input.checks) {
      WritesChange(EnvOf(Accepted(c.w), input.store), input.order, c.w.statuses);
    }
  }

  lemma SentIsCopy(c: Copy, input: Input)
    requires IsCopy(c) && Elems(input.order) <= c.w.steps.Keys && Sends(c, input)
    ensures IsCopy(SentBy(c, input))
  {
    LeftIsCopy(c, input);
  }

  /** The copy gives no call a reason to panic: there is a statuses map, or there will be one. */
  ghost predicate Sane(c: Copy) {
    c.hasStatuses || UID_LABEL !in c.w.labels
  }

  lemma NotSentNothingLeft(c: Copy, input: Input)
    requires IsCopy(c) && Sane(c) && Elems(input.order) <= c.w.steps.Keys && !Sends(c, input)
    ensures Left(c, input) == c
  {
    if Begins(c, input) {
      UpdateIffChanged(c.w, input);
    }
  }

  // ---- When is a failed change sent again? ----

  /** Some call of the history tries to send the workflow. */
  ghost predicate SentAgain(s: State, es: seq<Event>)
    requires IsHistory(s, es)
    decreases |es|
  {
    es != [] && ((es[0].Call? && Sends(s.cached, es[0].input)) || SentAgain(Next(s, es[0]), es[1..]))
  }

  /** Every call of the history ranges over all of the steps. */
  ghost predicate AllRange(es: seq<Event>, keys: set<string>)
    decreases |es|
  {
    es == [] || ((es[0].Call? ==> Lists(es[0].input.order, keys)) && AllRange(es[1..], keys))
  }

  /** All copies have the same steps. */
  ghost predicate HasSteps(s: State, steps: Steps) {
    && s.server.w.steps == steps && s.cached.w.steps == steps
    && (s.listed.Some? ==> s.listed.value.w.steps == steps)
    && (s.held.Some? ==> s.held.value.w.steps == steps)
  }

  lemma {:induction false} HistoryRanges(s: State, es: seq<Event>, steps: Steps)
    requires IsHistory(s, es) && HasSteps(s, steps)
    ensures AllRange(es, steps.Keys)
    decreases |es|
  {
    if es != [] {
      StepsKept(s, es[0], steps);
      HistoryRanges(Next(s, es[0]), es[1..], steps);
    }
  }

  lemma StepsKept(s: State, e: Event, steps: Steps)
    requires Enabled(s, e) && HasSteps(s, steps)
    ensures HasSteps(Next(s, e), steps)
  {
    if e.Call? {
      assert Left(s.cached, e.input).w.steps == steps;
    }
  }

  /**
   * What calls find after the event, if they found `found` before, and the next poll brings the server's if
   * it `notices`.
   */
  ghost function FoundAfter(server: Copy, found: Copy, notices: bool, e: Event): (after: Copy)
    requires server.w.steps == found.w.steps && (e.Call? ==> Elems(e.input.order) <= found.w.steps.Keys)
    ensures after.w.steps == found.w.steps
  {
    match e
    case Compare => if notices then server else found
    case Call(input) => Left(found, input)
    case _ => found
  }

  /** A poll notices nothing that one before it did not, unless there is a new watch. */
  predicate NoticesAfter(notices: bool, e: Event) {
    e.Rewatch? || (notices && !e.Compare?)
  }

  /**
   * Some call of the history would send what it finds, if it finds `left` up to the first poll that
   * notices, and `server` from then on.  A poll notices if the entry shares the maps, or after a new watch.
   * A call that does not send leaves what it found as it was, unless it panics.
   */
  ghost predicate Due(server: Copy, left: Copy, notices: bool, es: seq<Event>)
    requires server.w.steps == left.w.steps
    requires AllRange(es, left.w.steps.Keys)
    decreases |es|
  {
    es != [] &&
    (|| (es[0].Call? && Sends(left, es[0].input))
     || Due(server, FoundAfter(server, left, notices, es[0]), NoticesAfter(notices, es[0]), es[1..]))
  }

  /**
   * The state between the failed call and the next call that sends: `notices` says that the next poll
   * brings the server's workflow back.
   */
  ghost predicate Waiting(s: State, server: Copy, left: Copy, notices: bool) {
    && Coherent(s) && s.server == server && s.cached == left && s.held.None?
    && (s.listed.Some? ==> s.listed == Some(server))
    && (if notices then s.known == None || (s.shared && s.known == Some(left))
        else s.known == Some(server) && (s.shared ==> left == server))
  }

  lemma WaitingNext(s: State, e: Event, server: Copy, left: Copy, notices: bool)
    requires Waiting(s, server, left, notices) && Enabled(s, e) && (e.Call? ==> !Sends(left, e.input))
    requires Sane(server) && server.w.steps == left.w.steps
    ensures Waiting(Next(s, e), server, FoundAfter(server, left, notices, e), NoticesAfter(notices, e))
  {
    if e.Call? {
      LeftIsCopy(left, e.input);
      if left == server {
        NotSentNothingLeft(server, e.input);
      }
    }
  }

  lemma {:induction false} SentAgainIffDue(s: State, es: seq<Event>, server: Copy, left: Copy, notices: bool)
    requires Waiting(s, server, left, notices) && IsHistory(s, es)
    requires Sane(server) && server.w.steps == left.w.steps
    requires AllRange(es, left.w.steps.Keys)
    ensures SentAgain(s, es) <==> Due(server, left, notices, es)
    decreases |es|
  {
    if es != [] {
      var e, rest := es[0], es[1..];
      if !(e.Call? && Sends(left, e.input)) {
        WaitingNext(s, e, server, left, notices);
        SentAgainIffDue(Next(s, e), rest, server, FoundAfter(server, left, notices, e), NoticesAfter(notices, e));
      }
    }
  }

  /**
   * A change that a call made to the workflow as last polled, and could not send, is sent again by a
   * history of calls, polls and new watches exactly if some call of it would send the workflow that it
   * finds: the server's, once a poll has noticed the difference, and what the failed call left until
   * then.  Without a new watch only the first poll can notice, and only if the entry shares the maps.
   * (What becomes of a server's copy that has the UID label and no statuses is shown in module `Recovery`.)
   */
  lemma FailedChangeSentAgainIff(s: State, input: Input, es: seq<Event>)
    requires Polled(s) && s.cached == s.server && Sane(s.server)
    requires Enabled(s, Call(input)) && IsHistory(Failed(s, input), es)
    ensures AllRange(es, s.server.w.steps.Keys)
    ensures SentAgain(Failed(s, input), es) <==> Due(s.server, Left(s.server, input), s.shared, es)
  {
    LeftIsCopy(s.cached, input);
    HistoryRanges(Failed(s, input), es, s.server.w.steps);
    SentAgainIffDue(Failed(s, input), es, s.server, Left(s.server, input), s.shared);
  }

  /** What the labels ask of a call that ranges over all steps, if it is to send a workflow that has been defaulted. */
  ghost predicate LabelsSend(w: Workflow, next: Input) {
    if VALID_LABEL !in w.labels then true
    else if w.labels[VALID_LABEL] == FormatBool(false) then next.checks.Passed() && ValidSpec(w)
    else AllDone(w) || !Quiet(EnvOf(w, next.store), w.statuses)
  }

  /**
   * Whether the next call sends what a failed one left, in every phase and over every job store: a failed
   * defaulting is redone only for a workflow that came without labels; a failed negative verdict is sent
   * again only by turning positive; after a failed positive verdict or status the call sends if the
   * workflow is complete or a turn has something new to write.
   */
  lemma NextCallSendsIff(c: Copy, input: Input, next: Input)
    requires Lists(input.order, c.w.steps.Keys) && Lists(next.order, c.w.steps.Keys)
    requires IsCopy(c) && Begins(c, input) && Begins(Left(c, input), next)
    ensures var left := Left(c, input);
            Sends(left, next) <==>
              !Panics(left.w, left.hasStatuses, next) &&
              match PhaseOf(c.w)
              case Raw => !c.hasLabels || LabelsSend(left.w, next)
              case Defaulted => if input.checks.Passed() && ValidSpec(c.w)
                then AllDone(left.w) || !Quiet(EnvOf(left.w, next.store), left.w.statuses)
                                else next.checks.Passed() && ValidSpec(c.w)
              case Invalid => if input.checks.Passed() && ValidSpec(c.w)
                then AllDone(left.w) || !Quiet(EnvOf(left.w, next.store), left.w.statuses)
                              else next.checks.Passed() && ValidSpec(c.w)
              case _ => AllDone(left.w) || !Quiet(EnvOf(left.w, next.store), left.w.statuses)
  {
    LabelKeysDiffer();
    FormatBoolDiffers();
    var left := Left(c, input);
    if UID_LABEL in left.w.labels {
      DefaultedSendsIff(left.w, next);
    }
    LeftLabels(c, input);
  }

  lemma LeftLabels(c: Copy, input: Input)
    requires IsCopy(c) && Begins(c, input) && Elems(input.order) <= c.w.steps.Keys
    ensures UID_LABEL !in c.w.labels ==> (UID_LABEL in Left(c, input).w.labels <==> c.hasLabels)
    ensures UID_LABEL in c.w.labels ==>
              && Left(c, input).w.labels == LabelsAfter(c.w, input.checks)
              && (ValidSpec(Left(c, input).w) <==> ValidSpec(c.w))
  {
    if UID_LABEL in c.w.labels {
      LabelsOfCall(c.w, input);
    }
  }

  /** The labels of a defaulted workflow after a call, with the verdict if there is a new one. */
  ghost function LabelsAfter(w: Workflow, checks: Checks): Labels {
    if NeedsValidation(w.labels) then w.labels[VALID_LABEL := FormatBool(checks.Passed() && ValidSpec(w))] else w.labels
  }

  lemma LabelsOfCall(w: Workflow, input: Input)
    requires UID_LABEL in w.labels && Elems(input.order) <= w.steps.Keys
    ensures Process(w, input).0.labels == LabelsAfter(w, input.checks)
    ensures Process(w, input).0.jobsSelector == w.jobsSelector && Process(w, input).0.steps == w.steps
    ensures Process(w, input).0.activeDeadlineSeconds == w.activeDeadlineSeconds
  {
  }

  lemma DefaultedSendsIff(w: Workflow, next: Input)
    requires UID_LABEL in w.labels && Lists(next.order, w.steps.Keys)
    ensures Process(w, next).1 <==> LabelsSend(w, next)
  {
    FormatBoolDiffers();
    PassQuietOrAdvances(EnvOf(w, next.store), next.order, w.statuses);
    WritesChange(EnvOf(w, next.store), next.order, w.statuses);
  }

  // ---- A failed change that is not sent again ----

  /** A validated workflow of one step, none of whose jobs has been recorded. */
  function OneStepWorkflow(template: JobTemplate): Workflow {
    Workflow("w", "ns", "id", None, map[UID_LABEL := "id", VALID_LABEL := FormatBool(true)],
             map["a" := Step(Some(template), None, [])], Some(map[UID_LABEL := "id"]), map[], [], None, None)
  }

  /** The step's job runs, and a pass finds it. */
  function RunningJob(template: JobTemplate): Job {
    Job("ns", JobLabels(OneStepWorkflow(template).labels, template, "a"), [], Some("job"))
  }

  lemma RunningJobIsReported(template: JobTemplate, statuses: Statuses)
    requires statuses == map[] || statuses == map["a" := StepStatus(false, "job")]
    ensures var w, input := OneStepWorkflow(template).(statuses := statuses),
            Input(true, [RunningJob(template)], ["a"], Checks(true, true), 0);
            && Elems(input.order) == w.steps.Keys
            && Process(w, input) == (w.(statuses := map["a" := StepStatus(false, "job")]), statuses == map[])
  {
    LabelKeysDiffer();
    FormatBoolDiffers();
    var w, store := OneStepWorkflow(template).(statuses := statuses), [RunningJob(template)];
    var selector := JobLabels(w.labels, template, "a");
    assert store[..0] == [] && ["a"][..0] == [];
    assert ListJobs(store, "ns", selector) == store;
    assert Found(EnvOf(w, store), "a") == store;
    assert RunOrder(EnvOf(w, store), [], statuses) == statuses;
    assert RunOrder(EnvOf(w, store), ["a"], statuses) == map["a" := StepStatus(false, "job")];
    assert !Done(statuses, "a") && "a" in w.steps && !NeedsValidation(w.labels);
    assert Writes(EnvOf(w, store), ["a"], statuses) <==> Turn(EnvOf(w, store), statuses, "a").Write?;
    assert Process(w, Input(true, store, ["a"], Checks(true, true), 0)) == ProcessSteps(w, store, ["a"], 0);
  }

  /**
   * The step's first status could not be sent, and the entry does not share the maps.  The next poll
   * notices nothing, and the next call finds the status in the cached workflow and sends nothing.
   */
  lemma FailedStatusIsNotSentAgain(template: JobTemplate)
    ensures var copy := Copy(OneStepWorkflow(template), true, true, 1);
            var s, call := State(copy, None, Some(copy), copy, false, None),
                           Call(Input(true, [RunningJob(template)], ["a"], Checks(true, true), 0));
            && Polled(s) && Enabled(s, call) && Sends(s.cached, call.input)
            && Failed(s, call.input).cached != copy
            && IsHistory(Failed(s, call.input), [List, Compare, call])
            && !SentAgain(Failed(s, call.input), [List, Compare, call])
            && After(Failed(s, call.input), [List, Compare, call]).server == copy
  {
    RunningJobIsReported(template, map[]);
    RunningJobIsReported(template, map["a" := StepStatus(false, "job")]);
    var copy := Copy(OneStepWorkflow(template), true, true, 1);
    var s, call := State(copy, None, Some(copy), copy, false, None),
                   Call(Input(true, [RunningJob(template)], ["a"], Checks(true, true), 0));
    var failed := Failed(s, call.input);
    var left := copy.(w := copy.w.(statuses := map["a" := StepStatus(false, "job")]));
    assert failed == s.(cached := left);
    var listed := failed.(listed := Some(copy));
    assert Next(failed, List) == listed && Next(listed, Compare) == failed;
    assert Next(failed, call) == failed;
    assert [List, Compare, call][1..] == [Compare, call] && [Compare, call][1..] == [call] && [call][1..] == [];
    assert IsHistory(failed, []) && !SentAgain(failed, []) && After(failed, []) == failed;
    assert IsHistory(failed, [call]) && !SentAgain(failed, [call]) && After(failed, [call]) == failed;
  }
}
