/**
 * The cached workflow and the entry of the name map as objects: a poll that delivers makes both of the
 * same maps, and a call changes those maps in place.  What the server holds, and a list or an update on
 * their way, are values.
 */
module Replicas {
  import opened Prelude
  import opened Api
  import opened Validation
  import opened Scheduling
  import opened Processing
  import opened Objects
  import opened TransitionerModel
  import opened FailedUpdates

  ghost predicate SameMaps(a: WorkflowObject, b: WorkflowObject)
    reads a, b
  {
    a.labels == b.labels && a.jobsSelector == b.jobsSelector && a.statuses == b.statuses
  }

  /** No map of the one is a map of the other. */
  ghost predicate Apart(a: WorkflowObject, b: WorkflowObject)
    reads a, b
  {
    && (a.labels != null ==> a.labels != b.labels && a.labels != b.jobsSelector)
    && (a.jobsSelector != null ==> a.jobsSelector != b.labels && a.jobsSelector != b.jobsSelector)
    && (a.statuses != null ==> a.statuses != b.statuses)
  }

  ghost predicate SameFields(a: WorkflowObject, b: WorkflowObject)
    reads a, b
  {
    && a.name == b.name && a.namespace == b.namespace && a.uid == b.uid && a.version == b.version
    && a.activeDeadlineSeconds == b.activeDeadlineSeconds && a.steps == b.steps
    && a.conditions == b.conditions && a.startTime == b.startTime && a.completionTime == b.completionTime
  }

  lemma SameShown(a: WorkflowObject, b: WorkflowObject)
    requires SameMaps(a, b) && SameFields(a, b) && b.Valid()
    ensures a.Valid() && a.Shown() == b.Shown()
  {
  }

  ghost function Maps(o: WorkflowObject?): set<object?>
    reads o
  {
    if o == null then {} else {o.labels, o.jobsSelector, o.statuses}
  }

  /** A workflow's entry in the name map, and its object in the workflow store. */
  class Replica {
    const key: string
    const transitioner: Transitioner
    var known: WorkflowObject?
    /** The last comparison has delivered, and there has been no new watch since. */
    ghost var shared: bool

    function Cached(): WorkflowObject
      requires key in transitioner.workflowStore
      reads this, transitioner
    {
      transitioner.workflowStore[key]
    }

    /** The initial listing. */
    constructor (key: string, transitioner: Transitioner, server: Copy)
      requires IsCopy(server) && transitioner.expectations.Valid()
      modifies transitioner`workflowStore
      ensures this.key == key && this.transitioner == transitioner
      ensures Valid() && Shows(State(server, None, None, server, false, None))
    {
      this.key, this.transitioner, known, shared := key, transitioner, null, false;
      new;
      var listed := new WorkflowObject.Decoded(server);
      transitioner.workflowStore := transitioner.workflowStore[key := listed];
    }

    ghost function Footprint(): set<object?>
      reads this, transitioner, known, transitioner.workflowStore.Values
    {
      {this, transitioner, transitioner.expectations, known} + Maps(known)
      + if key in transitioner.workflowStore then {Cached()} + Maps(Cached()) else {}
    }

    ghost predicate Valid()
      reads Footprint(), this, transitioner, known, transitioner.workflowStore.Values
    {
      && key in transitioner.workflowStore && transitioner.expectations.Valid()
      && Cached().Valid() && known != Cached()
      && (known != null ==> known.Valid())
      && (shared ==> known != null && SameMaps(known, Cached()) && SameFields(known, Cached()))
      && (!shared && known != null ==> Apart(known, Cached()))
    }

    /** Entry and store are in the given state. */
    ghost predicate Shows(s: State)
      requires Valid()
      reads Footprint(), this, transitioner, known, transitioner.workflowStore.Values
    {
      && s.known == (if known == null then None else Some(known.Shown()))
      && s.cached == Cached().Shown() && s.shared == shared
    }

    /** An event of the watch: the informer stores the object; the name map keeps a copy of it. */
    method Deliver(polled: WorkflowObject, ghost s: State)
      requires Valid() && polled.Valid() && s.listed == Some(polled.Shown()) && Delivers(s)
      modifies this`known, this`shared, transitioner`workflowStore
      ensures Valid() && Shows(Next(s, FailedUpdates.Compare))
    {
      transitioner.workflowStore := transitioner.workflowStore[key := polled];
      known := new WorkflowObject.CopyOf(polled);
      shared := true;
    }

    /** No event: only the name map takes the listed workflow. */
    method Renew(polled: WorkflowObject, ghost s: State)
      requires Valid() && Shows(s) && s.listed == Some(polled.Shown()) && !Delivers(s)
      requires Apart(polled, Cached()) && polled != Cached() && polled.Valid()
      modifies this`known, this`shared
      ensures Valid() && Shows(Next(s, FailedUpdates.Compare))
    {
      known := polled;
      shared := false;
    }

    /** A tick compares what it has listed with the entry; an event reaches the workflow store at once. */
    method Compare(list: Copy, ghost s: State)
      requires Valid() && Shows(s) && IsCopy(list) && s.listed == Some(list)
      modifies this`known, this`shared, transitioner`workflowStore
      ensures Valid() && Shows(Next(s, FailedUpdates.Compare))
    {
      var polled := new WorkflowObject.Decoded(list);
      if known == null || known.Shown() != polled.Shown() {
        Deliver(polled, s);
      } else {
        Renew(polled, s);
      }
    }

    /** A new watch starts with an empty name map. */
    method Rewatch(ghost s: State)
      requires Valid() && Shows(s)
      modifies this`known, this`shared
      ensures Valid() && Shows(Next(s, FailedUpdates.Rewatch))
    {
      known := null;
      shared := false;
    }

    /**
     * A call of the transitioner up to its update: what it leaves of the cached workflow and of an entry
     * that shares its maps, and what it is about to send.
     */
    method Call(
      synced: bool, syncedThen: bool, keys: seq<string>, refused: set<string>, checks: Checks, updateOk: bool, now: int,
      ghost s: State)
      returns (sent: Option<Copy>, ghost input: Input)
      requires Valid() && Shows(s) && s.held.None? && Lists(keys, Cached().steps.Keys)
      modifies Maps(Cached()), transitioner.expectations, transitioner.jobControl
      ensures Valid() && Lists(input.order, s.cached.w.steps.Keys)
      ensures input == Input(synced, transitioner.jobStore, input.order, checks, now)
      ensures Shows(Next(s, FailedUpdates.Call(input))) && sent == Next(s, FailedUpdates.Call(input)).held
    {
      sent, input := TransitionCopy(transitioner, key, synced, syncedThen, keys, refused, checks, updateOk, now);
      if shared {
        SameShown(known, Cached());
      } else if known != null {
        assert s.known == Some(known.Shown());
      }
    }
  }

  /** A call of the transitioner, in terms of the copies of the workflow before and after it. */
  method TransitionCopy(
    t: Transitioner, key: string,
    synced: bool, syncedThen: bool, keys: seq<string>, refused: set<string>, checks: Checks, updateOk: bool, now: int)
    returns (sent: Option<Copy>, ghost input: Input)
    requires t.expectations.Valid() && key in t.workflowStore
    requires t.workflowStore[key].Valid() && Lists(keys, t.workflowStore[key].steps.Keys)
    modifies Maps(t.workflowStore[key]), t.expectations, t.jobControl
    ensures t.expectations.Valid() && Lists(input.order, t.workflowStore[key].steps.Keys)
    ensures input == Input(synced, t.jobStore, input.order, checks, now)
    ensures var before := old(t.workflowStore[key].Shown());
            && sent == (if Sends(before, input) then Some(SentBy(before, input)) else None)
            && t.workflowStore[key].Shown() == Left(before, input)
  {
    ghost var c := t.workflowStore[key].Shown();
    var hasStatuses := t.workflowStore[key].statuses != null || UID_LABEL !in t.workflowStore[key].View().labels;
    var requeue, workflow, panicked, order, launched :=
      t.TransitionWorkflow(key, synced, syncedThen, keys, refused, checks, updateOk, now);
    ghost var rest := Listing(c.w.steps.Keys - Elems(order));
    input := Input(synced, t.jobStore, order + rest, checks, now);
    OrderCompleted(c.w, c.hasStatuses, input, order, rest, panicked);
    sent := if workflow.Some? then Some(Copy(workflow.value, true, hasStatuses, t.workflowStore[key].version))
      else None;
  }

  lemma {:induction false} WritesPrefix(env: Env, a: seq<string>, b: seq<string>, statuses: Statuses)
    requires Elems(a) <= env.steps.Keys && Elems(b) <= env.steps.Keys && Writes(env, a, statuses)
    ensures Elems(a + b) <= env.steps.Keys && Writes(env, a + b, statuses)
  {
    if b == [] {
      assert a + b == a;
    } else {
      assert Elems(b[..|b| - 1]) <= Elems(b);
      WritesPrefix(env, a, b[..|b| - 1], statuses);
      assert (a + b)[..|a + b| - 1] == a + b[..|b| - 1];
    }
  }

  /** The order of a call that panics can be completed to one over all steps. */
  lemma OrderCompleted(w: Workflow, hasStatuses: bool, input: Input, order: seq<string>, rest: seq<string>,
      panicked: bool)
    requires NoDup(order) && Elems(order) <= w.steps.Keys && (!panicked ==> Elems(order) == w.steps.Keys)
    requires Lists(rest, w.steps.Keys - Elems(order)) && input.order == order + rest
    ensures Lists(input.order, w.steps.Keys) && (!panicked ==> input.order == order)
    ensures Panics(w, hasStatuses, input.(order := order)) ==> Panics(w, hasStatuses, input)
  {
    ListsConcat(order, rest, Elems(order), w.steps.Keys - Elems(order));
    assert rest != [] ==> rest[0] in Elems(rest);
    if Panics(w, hasStatuses, input.(order := order)) {
      WritesPrefix(EnvOf(Accepted(w), input.store), order, rest, w.statuses);
    }
  }
}
