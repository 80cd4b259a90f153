/** The nested map of creation expectations and the operation history it stands for. */
module Expectations {

  /** Five minutes, in nanoseconds. */
  const EXPECTATIONS_TIMEOUT := 300_000_000_000

  predicate IsExpired(timestamp: int, now: int) {
    now - timestamp > EXPECTATIONS_TIMEOUT
  }

  datatype Operation =
    | Expected(key: string, step: string, at: int)
    | Observed(key: string, step: string)
    | Deleted(key: string)

  /** The operation ends an expectation of the pair. */
  predicate Cancels(op: Operation, key: string, step: string) {
    match op
    case Expected(k, s, _) => k == key && s == step
    case Observed(k, s) => k == key && s == step
    case Deleted(k) => k == key
  }

  /** Operation `i` set the expectation of the pair that still stands at the end of the history. */
  ghost predicate Stands(history: seq<Operation>, key: string, step: string, i: int) {
    && 0 <= i < |history|
    && history[i].Expected? && history[i].key == key && history[i].step == step
    && forall j :: i < j < |history| ==> !Cancels(history[j], key, step)
  }

  /** An expectation of the pair stands and is no older than the timeout. */
  ghost predicate Awaited(history: seq<Operation>, key: string, step: string, now: int) {
    exists i :: Stands(history, key, step, i) && !IsExpired(history[i].at, now)
  }

  /** Up to five minutes after it was set, and no longer. */
  lemma AwaitedIff(history: seq<Operation>, key: string, step: string, now: int)
    ensures Awaited(history, key, step, now) <==>
              exists i :: Stands(history, key, step, i) && now <= history[i].at + 300_000_000_000
  {
    if i :| Stands(history, key, step, i) && now <= history[i].at + 300_000_000_000 {
      assert Stands(history, key, step, i) && !IsExpired(history[i].at, now);
    }
  }

  type Store = map<string, map<string, int>>

  predicate Recorded(store: Store, key: string, step: string) {
    key in store && step in store[key]
  }

  /** The store holds exactly the standing expectations, each with the time it was set. */
  ghost predicate Represents(store: Store, history: seq<Operation>) {
    forall key, step ::
      if Recorded(store, key, step)
      then exists i :: Stands(history, key, step, i) && history[i].at == store[key][step]
      else forall i :: !Stands(history, key, step, i)
  }

  lemma StandsAfter(history: seq<Operation>, op: Operation, key: string, step: string, i: int)
    ensures Stands(history + [op], key, step, i) <==>
            if Cancels(op, key, step) then i == |history| && op.Expected? else Stands(history, key, step, i)
  {
    var next := history + [op];
    assert next[|history|] == op;
    assert forall j :: 0 <= j < |history| ==> next[j] == history[j];
  }

  lemma StandsOnce(history: seq<Operation>, key: string, step: string, i: int, j: int)
    requires Stands(history, key, step, i) && Stands(history, key, step, j)
    ensures i == j
  {
    assert Cancels(history[i], key, step) && Cancels(history[j], key, step);
  }

  /** What each operation does to every pair; before the first one nothing is awaited. */
  lemma AwaitedAfter(history: seq<Operation>, op: Operation, key: string, step: string, now: int)
    ensures !Awaited([], key, step, now)
    ensures var before := Awaited(history, key, step, now);
            Awaited(history + [op], key, step, now) <==>
              match op
              case Expected(k, s, at) => if k == key && s == step then now <= at + 300_000_000_000 else before
              case Observed(k, s) => (k != key || s != step) && before
              case Deleted(k) => k != key && before
  {
    var next := history + [op];
    forall i ensures Stands(next, key, step, i) <==>
      if Cancels(op, key, step) then i == |history| && op.Expected? else Stands(history, key, step, i)
    {
      StandsAfter(history, op, key, step, i);
    }
    if i :| Stands(history, key, step, i) && !IsExpired(history[i].at, now) {
      assert next[i] == history[i];
      assert !Cancels(op, key, step) ==> Stands(next, key, step, i);
    }
    if Cancels(op, key, step) && op.Expected? {
      assert Stands(next, key, step, |history|);
    }
  }

  /** One operation on the store: what the methods below do, one pair at a time. */
  ghost predicate Applied(before: Store, op: Operation, after: Store) {
    forall key, step ::
      if !Cancels(op, key, step)
      then Recorded(after, key, step) == Recorded(before, key, step)
           && (Recorded(after, key, step) ==> after[key][step] == before[key][step])
      else Recorded(after, key, step) == op.Expected? && (op.Expected? ==> after[key][step] == op.at)
  }

  lemma AppliedRepresents(before: Store, history: seq<Operation>, op: Operation, after: Store)
    requires Represents(before, history) && Applied(before, op, after)
    ensures Represents(after, history + [op])
  {
    var next := history + [op];
    forall key, step
      ensures if Recorded(after, key, step)
              then exists i :: Stands(next, key, step, i) && next[i].at == after[key][step]
              else forall i :: !Stands(next, key, step, i)
    {
      forall i ensures Stands(next, key, step, i) <==>
        if Cancels(op, key, step) then i == |history| && op.Expected? else Stands(history, key, step, i)
      {
        StandsAfter(history, op, key, step, i);
      }
      if Recorded(after, key, step) {
        if Cancels(op, key, step) {
          assert Stands(next, key, step, |history|);
        } else {
          var i :| Stands(history, key, step, i) && history[i].at == before[key][step];
          assert Stands(next, key, step, i);
        }
      }
    }
  }

  class WorkflowStepExpectations {
    var store: Store
    ghost var history: seq<Operation>

    ghost predicate Valid()
      reads this
    {
      Represents(store, history)
    }

    constructor ()
      ensures Valid() && history == [] && store == map[]
    {
      store, history := map[], [];
    }

    method ExpectCreation(key: string, step: string, now: int)
      requires Valid()
      modifies this
      ensures Valid() && history == old(history) + [Expected(key, step, now)]
      ensures Applied(old(store), Expected(key, step, now), store)
    {
      if key !in store {
        store := store[key := map[]];
      }
      store := store[key := store[key][step := now]];
      AppliedRepresents(old(store), history, Expected(key, step, now), store);
      history := history + [Expected(key, step, now)];
    }

    /** False up to five minutes after the expectation of the pair that still stands was set, true from then on. */
    method ExpectationsForStepSatisfied(key: string, step: string, now: int) returns (satisfied: bool)
      requires Valid()
      ensures satisfied <==> !Awaited(history, key, step, now)
      ensures satisfied <==> forall i :: Stands(history, key, step, i) ==> now > history[i].at + 300_000_000_000
      ensures satisfied <==> Recorded(store, key, step) ==> now > store[key][step] + 300_000_000_000
    {
      RecordedIffAwaited(store, history, key, step, now);
      AwaitedIff(history, key, step, now);
      if key !in store {
        return true;
      }
      if step in store[key] {
        if IsExpired(store[key][step], now) {
          return true;
        }
        return false;
      }
      return true;
    }

    /** Fails when nothing at all is recorded under the key; the record of the pair is gone either way. */
    method CreationObserved(key: string, step: string) returns (found: bool)
      requires Valid()
      modifies this
      ensures Valid() && history == old(history) + [Observed(key, step)]
      ensures Applied(old(store), Observed(key, step), store)
      ensures found <==> key in old(store)
    {
      found := key in store;
      if found {
        store := store[key := store[key] - {step}];
      }
      AppliedRepresents(old(store), history, Observed(key, step), store);
      history := history + [Observed(key, step)];
    }

    method DeleteExpectations(key: string)
      requires Valid()
      modifies this
      ensures Valid() && history == old(history) + [Deleted(key)]
      ensures Applied(old(store), Deleted(key), store)
    {
      store := store - {key};
      AppliedRepresents(old(store), history, Deleted(key), store);
      history := history + [Deleted(key)];
    }
  }

  lemma RecordedIffAwaited(store: Store, history: seq<Operation>, key: string, step: string, now: int)
    requires Represents(store, history)
    ensures Recorded(store, key, step) && !IsExpired(store[key][step], now) <==> Awaited(history, key, step, now)
  {
    if Recorded(store, key, step) {
      var i :| Stands(history, key, step, i) && history[i].at == store[key][step];
      forall j | Stands(history, key, step, j) ensures j == i {
        StandsOnce(history, key, step, i, j);
      }
    }
  }
}
