/**
 * When a workflow can still get to its steps after an update of it has failed: exactly as long as a copy
 * that does not look defaulted without being it is cached, or will come to be.
 */
module Recovery {
  import opened Prelude
  import opened Api
  import opened Validation
  import opened Processing
  import opened Objects
  import opened FailedUpdates

  /**
   * The copy has the UID label, so it is never defaulted again, but has no statuses map to write to, or no
   * selector and so never a positive verdict.
   */
  ghost predicate Stuck(c: Copy) {
    && UID_LABEL in c.w.labels
    && (!c.hasStatuses || (c.w.jobsSelector.None? && NeedsValidation(c.w.labels)))
  }

  /** A pass over the copy gets to the step loop and can record what it finds. */
  ghost predicate Usable(c: Copy, input: Input) {
    Begins(c, input) && c.hasStatuses && ReachesSteps(c.w, input.checks)
  }

  ghost predicate Recovered(s: State) {
    IsFinished(s.cached.w.conditions)
      || exists input: Input :: Lists(input.order, s.cached.w.steps.Keys) && Usable(s.cached, input)
  }

  predicate WithoutRewatch(es: seq<Event>) {
    forall e :: e in es ==> !e.Rewatch?
  }

  /** Some continuation, without a new watch if there is none to come, gets the workflow to its steps. */
  ghost predicate CanRecover(s: State, rewatch: bool) {
    exists es :: IsHistory(s, es) && (rewatch || WithoutRewatch(es)) && Recovered(After(s, es))
  }

  // ---- What every copy of a submission is like ----

  /** A submission that has steps, would be accepted, is not paused, and sets no label of the controller. */
  ghost predicate IsSubmission(w: Workflow) {
    && w.steps != map[] && ValidSteps(w.steps)
    && (w.activeDeadlineSeconds.Some? ==> w.activeDeadlineSeconds.value >= 0)
    && UID_LABEL !in w.labels && VALID_LABEL !in w.labels
    && PreconditionsMet(w, true)
  }

  ghost predicate Descends(w: Workflow, c: Copy) {
    && IsCopy(c) && c.w.steps == w.steps && c.w.activeDeadlineSeconds == w.activeDeadlineSeconds
    && !(PAUSE_LABEL in c.w.labels && c.w.labels[PAUSE_LABEL] == "true")
    && (UID_LABEL !in c.w.labels ==> VALID_LABEL !in c.w.labels)
    && (!NeedsValidation(c.w.labels) ==> c.w.jobsSelector.Some?)
    && (UID_LABEL !in c.w.labels || Stuck(c) ==> !IsFinished(c.w.conditions))
  }

  lemma LeftDescends(w: Workflow, c: Copy, input: Input)
    requires IsSubmission(w) && Descends(w, c) && Lists(input.order, w.steps.Keys)
    ensures Descends(w, Left(c, input)) && (Stuck(c) ==> Stuck(Left(c, input)))
  {
    LabelKeysDiffer();
    FormatBoolDiffers();
    LeftIsCopy(c, input);
  }

  /** What is sent lacks something exactly if what is left does, and a first copy is sent complete. */
  lemma SentDescends(w: Workflow, c: Copy, input: Input)
    requires IsSubmission(w) && Descends(w, c) && Lists(input.order, w.steps.Keys) && Sends(c, input)
    ensures Descends(w, SentBy(c, input)) && UID_LABEL in SentBy(c, input).w.labels
    ensures Stuck(SentBy(c, input)) <==> Stuck(c)
  {
    LabelKeysDiffer();
    FormatBoolDiffers();
    SentIsCopy(c, input);
    if Stuck(c) {
      StuckIsUnfinished(w, c, input);
    }
  }

  /** A stuck workflow is not completed: none of its steps is. */
  lemma StuckIsUnfinished(w: Workflow, c: Copy, input: Input)
    requires IsSubmission(w) && Descends(w, c) && Stuck(c) && Lists(input.order, w.steps.Keys)
    ensures Process(c.w, input).0.conditions == c.w.conditions
  {
    FormatBoolDiffers();
    if !c.hasStatuses {
      var n :| n in w.steps;
      assert !Done(c.w.statuses, n);
    }
  }

  /**
   * What holds of all states in which a submission can be.  The server's, the listed, the cached and the
   * held copy may each be stuck or not, whatever the others are.
   */
  ghost predicate Possible(w: Workflow, s: State) {
    && Coherent(s) && Descends(w, s.server) && Descends(w, s.cached)
    && s.cached.version <= s.server.version
    && (s.known.Some? ==> s.known.value.version <= s.server.version)
    && (s.listed.Some? ==> Descends(w, s.listed.value) && s.listed.value.version <= s.server.version)
    && (s.held.Some? ==> Descends(w, s.held.value) && UID_LABEL in s.held.value.w.labels)
  }

  lemma PossibleNext(w: Workflow, s: State, e: Event)
    requires IsSubmission(w) && Possible(w, s) && Enabled(s, e)
    ensures Possible(w, Next(s, e))
  {
    if e.Call? {
      LeftDescends(w, s.cached, e.input);
      if Sends(s.cached, e.input) {
        SentDescends(w, s.cached, e.input);
      }
    }
  }

  lemma SubmittedIsPossible(c: Copy)
    requires IsSubmission(c.w) && IsCopy(c)
    ensures Possible(c.w, State(c, None, None, c, false, None))
  {
  }

  lemma {:induction false} HistoryIsPossible(w: Workflow, s: State, es: seq<Event>)
    requires IsSubmission(w) && Possible(w, s) && IsHistory(s, es)
    ensures Possible(w, After(s, es))
    decreases |es|
  {
    if es != [] {
      PossibleNext(w, s, es[0]);
      HistoryIsPossible(w, Next(s, es[0]), es[1..]);
    }
  }

  /** The server comes to hold a stuck workflow exactly by an accepted update with one. */
  lemma ServerStuckIff(w: Workflow, s: State, e: Event)
    requires IsSubmission(w) && Possible(w, s) && Enabled(s, e)
    ensures Stuck(Next(s, e).server) <==> if e.Update? && e.accepted then Stuck(s.held.value) else Stuck(s.server)
    ensures e.Call? && Next(s, e).held.Some? ==> (Stuck(Next(s, e).held.value) <==> Stuck(s.cached))
  {
    if e.Call? && Sends(s.cached, e.input) {
      SentDescends(w, s.cached, e.input);
    }
  }

  // ---- Lost ----

  /** The copy is there, and is not stuck. */
  ghost predicate Good(c: Option<Copy>) {
    c.Some? && !Stuck(c.value)
  }

  /**
   * A poll that has listed the workflow, or the next one that does, will find that the server's differs
   * from the entry.
   */
  predicate WillDeliver(s: State) {
    s.known != Some(s.server) || (s.listed.Some? && s.listed != Some(s.server))
  }

  /** A copy that is not stuck is cached, about to be sent, or about to be delivered. */
  ghost predicate Recoverable(s: State, rewatch: bool) {
    || Good(Some(s.cached))
    || Good(s.held)
    || (Good(s.listed) && s.known != s.listed)
    || (Good(Some(s.server)) && (WillDeliver(s) || rewatch))
  }

  lemma LostNext(w: Workflow, s: State, e: Event, rewatch: bool)
    requires IsSubmission(w) && Possible(w, s) && Enabled(s, e) && !Recoverable(s, rewatch) && (rewatch || !e.Rewatch?)
    ensures !Recoverable(Next(s, e), rewatch)
  {
    if e.Call? {
      LeftDescends(w, s.cached, e.input);
      ServerStuckIff(w, s, e);
    }
  }

  lemma {:induction false} LostForGood(w: Workflow, s: State, es: seq<Event>, rewatch: bool)
    requires IsSubmission(w) && Possible(w, s) && IsHistory(s, es)
    requires !Recoverable(s, rewatch) && (rewatch || WithoutRewatch(es))
    ensures !Recovered(After(s, es))
    decreases |es|
  {
    if es == [] {
      StuckIsUnusable(w, s);
    } else {
      assert es[0] in es;
      PossibleNext(w, s, es[0]);
      LostNext(w, s, es[0], rewatch);
      LostForGood(w, Next(s, es[0]), es[1..], rewatch);
    }
  }

  lemma StuckIsUnusable(w: Workflow, s: State)
    requires Possible(w, s) && Stuck(s.cached)
    ensures !Recovered(s)
  {
  }

  // ---- Recovered ----

  lemma OneMore(s: State, e: Event, es: seq<Event>)
    requires Enabled(s, e) && IsHistory(Next(s, e), es)
    ensures IsHistory(s, [e] + es) && After(s, [e] + es) == After(Next(s, e), es)
  {
    assert ([e] + es)[1..] == es;
  }

  /** A step towards recovery. */
  lemma Before(s: State, e: Event, es: seq<Event>, rewatch: bool) returns (history: seq<Event>)
    requires Enabled(s, e) && IsHistory(Next(s, e), es) && Recovered(After(Next(s, e), es))
    requires rewatch || (!e.Rewatch? && WithoutRewatch(es))
    ensures IsHistory(s, history) && (rewatch || WithoutRewatch(history)) && Recovered(After(s, history))
  {
    OneMore(s, e, es);
    history := [e] + es;
  }

  lemma UsableNow(w: Workflow, s: State)
    requires IsSubmission(w) && Possible(w, s) && UID_LABEL in s.cached.w.labels && !Stuck(s.cached)
    ensures Recovered(s)
  {
    if !IsFinished(s.cached.w.conditions) {
      var order := Listing(w.steps.Keys);
      var input := Input(true, [], order, Checks(true, true), 0);
      assert Lists(input.order, s.cached.w.steps.Keys) && Usable(s.cached, input);
    }
  }

  /** A poll brings the server's copy, after one that is on its way. */
  lemma DeliveredRecovers(w: Workflow, s: State) returns (es: seq<Event>)
    requires IsSubmission(w) && Possible(w, s) && WillDeliver(s) && UID_LABEL in s.server.w.labels && !Stuck(s.server)
    ensures IsHistory(s, es) && WithoutRewatch(es) && Recovered(After(s, es))
    decreases if s.listed == Some(s.server) then 0 else if s.listed.None? then 1 else 2
  {
    var e := if s.listed.Some? then Compare else List;
    var after := Next(s, e);
    PossibleNext(w, s, e);
    if s.listed == Some(s.server) {
      UsableNow(w, after);
      es := Before(s, e, [], false);
    } else {
      var more := DeliveredRecovers(w, after);
      es := Before(s, e, more, false);
    }
  }

  /** A copy that a call has made good is accepted and comes back. */
  lemma HeldRecovers(w: Workflow, s: State) returns (es: seq<Event>)
    requires IsSubmission(w) && Possible(w, s) && Good(s.held)
    ensures IsHistory(s, es) && WithoutRewatch(es) && Recovered(After(s, es))
  {
    PossibleNext(w, s, Update(true));
    var more := DeliveredRecovers(w, Next(s, Update(true)));
    es := Before(s, Update(true), more, false);
  }

  /** A first copy is defaulted; an update that is on its way may fail before. */
  lemma CachedRecovers(w: Workflow, s: State) returns (es: seq<Event>)
    requires IsSubmission(w) && Possible(w, s) && !Stuck(s.cached)
    ensures IsHistory(s, es) && WithoutRewatch(es) && Recovered(After(s, es))
    decreases s.held.Some?
  {
    if UID_LABEL in s.cached.w.labels {
      es := [];
      UsableNow(w, s);
    } else if s.held.Some? {
      PossibleNext(w, s, Update(false));
      var more := CachedRecovers(w, Next(s, Update(false)));
      es := Before(s, Update(false), more, false);
    } else {
      var order := Listing(w.steps.Keys);
      var call := Call(Input(true, [], order, Checks(true, true), 0));
      PossibleNext(w, s, call);
      ServerStuckIff(w, s, call);
      var more := HeldRecovers(w, Next(s, call));
      es := Before(s, call, more, false);
    }
  }

  lemma ListedRecovers(w: Workflow, s: State) returns (es: seq<Event>)
    requires IsSubmission(w) && Possible(w, s) && Good(s.listed) && s.known != s.listed
    ensures IsHistory(s, es) && WithoutRewatch(es) && Recovered(After(s, es))
  {
    PossibleNext(w, s, Compare);
    var more := CachedRecovers(w, Next(s, Compare));
    es := Before(s, Compare, more, false);
  }

  /** The server's copy comes to the cache, and is defaulted there if need be. */
  lemma ServerRecovers(w: Workflow, s: State) returns (es: seq<Event>)
    requires IsSubmission(w) && Possible(w, s) && !Stuck(s.server) && WillDeliver(s)
    ensures IsHistory(s, es) && WithoutRewatch(es) && Recovered(After(s, es))
    decreases if s.listed == Some(s.server) then 0 else if s.listed.None? then 1 else 2
  {
    if s.listed == Some(s.server) && s.known != s.listed {
      es := ListedRecovers(w, s);
    } else {
      var e := if s.listed.Some? then Compare else List;
      PossibleNext(w, s, e);
      var more := ServerRecovers(w, Next(s, e));
      es := Before(s, e, more, false);
    }
  }

  lemma WatchRecovers(w: Workflow, s: State) returns (es: seq<Event>)
    requires IsSubmission(w) && Possible(w, s) && !Stuck(s.server)
    ensures IsHistory(s, es) && Recovered(After(s, es))
  {
    PossibleNext(w, s, Rewatch);
    var more := ServerRecovers(w, Next(s, Rewatch));
    es := Before(s, Rewatch, more, true);
  }

  /**
   * In every state that a submission can get into, with a call and a poll at any point of theirs, the
   * workflow can still get to its steps exactly if a copy that is not stuck is cached, or about to be sent,
   * or has been listed and differs from the entry, or is the server's and a poll will notice it or a new
   * watch is to come.
   */
  lemma RecoversIff(w: Workflow, s: State, rewatch: bool)
    requires IsSubmission(w) && Possible(w, s)
    ensures CanRecover(s, rewatch) <==> Recoverable(s, rewatch)
  {
    if !Recoverable(s, rewatch) {
      forall es | IsHistory(s, es) && (rewatch || WithoutRewatch(es)) ensures !Recovered(After(s, es)) {
        LostForGood(w, s, es, rewatch);
      }
    } else if Good(Some(s.cached)) {
      var es := CachedRecovers(w, s);
    } else if Good(s.held) {
      var es := HeldRecovers(w, s);
    } else if Good(s.listed) && s.known != s.listed {
      var es := ListedRecovers(w, s);
    } else if WillDeliver(s) {
      var es := ServerRecovers(w, s);
    } else {
      var es := WatchRecovers(w, s);
    }
  }

  /**
   * When the first update of a submission fails, a new watch always helps.  Without one the workflow can
   * get to its steps exactly if the entry of the name map shares the cached maps, so that the next poll
   * notices, or if the cached copy still gets all that defaulting makes: it came without labels, or with
   * both a selector and statuses.
   */
  lemma FailedDefaultingRecoversIff(s: State, input: Input)
    requires IsSubmission(s.server.w) && Polled(s) && s.cached == s.server && input.synced
    requires Enabled(s, Call(input))
    ensures var after := Failed(s, input);
            && CanRecover(after, true)
            && (CanRecover(after, false) <==>
                  s.shared || !s.server.hasLabels || (s.server.w.jobsSelector.Some? && s.server.hasStatuses))
  {
    LabelKeysDiffer();
    PossibleNext(s.server.w, s, Call(input));
    RecoversIff(s.server.w, Failed(s, input), true);
    RecoversIff(s.server.w, Failed(s, input), false);
  }

  /** Such a copy has no verdict yet, so the next call sends it, unless it panics. */
  lemma StuckCopyIsSent(c: Copy, input: Input, next: Input)
    requires Lists(input.order, c.w.steps.Keys) && Lists(next.order, c.w.steps.Keys)
    requires IsCopy(c) && IsSubmission(c.w) && input.synced && c.hasLabels && Begins(Left(c, input), next)
    ensures Sends(Left(c, input), next) <==> !Panics(Left(c, input).w, c.hasStatuses, next)
  {
    LabelKeysDiffer();
    NextCallSendsIff(c, input, next);
  }

  /**
   * Once an update with a stuck copy has been accepted, the workflow is lost, whatever is polled or watched
   * afterwards, exactly if the cached copy is stuck too and no poll has listed another one that differs
   * from the entry.
   */
  lemma SentStuckCopyLosesIff(w: Workflow, s: State, rewatch: bool)
    requires IsSubmission(w) && Possible(w, s) && s.held.Some? && Stuck(s.held.value)
    ensures CanRecover(Next(s, Update(true)), rewatch) <==> !Stuck(s.cached) || (Good(s.listed) && s.known != s.listed)
  {
    PossibleNext(w, s, Update(true));
    RecoversIff(w, Next(s, Update(true)), rewatch);
  }

  /**
   * A poll that falls into the update with the stuck copy saves the workflow: the first update of a
   * submission with labels has failed, the next call is about to send what is left, and a poll brings the
   * first copy back before that arrives.
   */
  lemma PollDuringUpdateSaves(s: State, input: Input, next: Input)
    requires IsSubmission(s.server.w) && Polled(s) && s.listed.None? && s.cached == s.server && s.shared && input.synced
    requires s.server.hasLabels && !(s.server.w.jobsSelector.Some? && s.server.hasStatuses)
    requires Enabled(s, Call(input)) && Enabled(s, Call(next)) && Begins(Left(s.server, input), next)
    requires !Panics(Left(s.server, input).w, s.server.hasStatuses, next)
    ensures var history := [Call(next), List, Compare, Update(true)];
            && IsHistory(Failed(s, input), history)
            && Stuck(After(Failed(s, input), history).server)
            && CanRecover(After(Failed(s, input), history), false)
  {
    LabelKeysDiffer();
    FormatBoolDiffers();
    var w, failed := s.server.w, Failed(s, input);
    PossibleNext(w, s, Call(input));
    StuckCopyIsSent(s.server, input, next);
    var called := Next(failed, Call(next));
    PossibleNext(w, failed, Call(next));
    ServerStuckIff(w, failed, Call(next));
    var listed := Next(called, List);
    PossibleNext(w, called, List);
    LeftIsStuck(s.server, input);
    LeftDescends(w, Left(s.server, input), next);
    var compared := Next(listed, Compare);
    PossibleNext(w, listed, Compare);
    SentStuckCopyLosesIff(w, compared, false);
    FourEvents(failed, Call(next), List, Compare, Update(true));
  }

  /** What a call leaves of a submission with labels, but without a selector or without statuses. */
  lemma LeftIsStuck(c: Copy, input: Input)
    requires IsSubmission(c.w) && IsCopy(c) && input.synced && c.hasLabels && Lists(input.order, c.w.steps.Keys)
    requires !(c.w.jobsSelector.Some? && c.hasStatuses)
    ensures Stuck(Left(c, input))
  {
    LabelKeysDiffer();
  }

  lemma FourEvents(s: State, e: Event, f: Event, g: Event, h: Event)
    requires Enabled(s, e) && Enabled(Next(s, e), f) && Enabled(Next(Next(s, e), f), g)
             && Enabled(Next(Next(Next(s, e), f), g), h)
    ensures IsHistory(s, [e, f, g, h])
    ensures After(s, [e, f, g, h]) == Next(Next(Next(Next(s, e), f), g), h)
  {
    OneMore(Next(Next(Next(s, e), f), g), h, []);
    OneMore(Next(Next(s, e), f), g, [h]);
    OneMore(Next(s, e), f, [g, h]);
    OneMore(s, e, [f, g, h]);
    assert [e] + [f, g, h] == [e, f, g, h] && [f] + [g, h] == [f, g, h] && [g] + [h] == [g, h] && [h] + [] == [h];
  }
}
