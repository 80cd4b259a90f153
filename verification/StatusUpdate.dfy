/** Sending a changed workflow to a server that accepts a write only at its current version. */
module StatusUpdate {
  import opened Api

  /** How often an update that the server refuses is tried again. */
  const RETRY_ON_STATUS_CONFLICT := 3

  /**
   * What may go wrong besides a conflict: the server refuses the write with a status of its own, or the
   * answer is lost, whether or not the write has been applied.
   */
  datatype Fault = NoFault | Refused | Lost(applied: bool)

  /** What happens around one attempt: writes of other clients before it, its fault, a failing read after it. */
  datatype Window = Window(writes: seq<Workflow>, fault: Fault, getFails: bool)

  /** The result of a call, and the accepted writes of the workflow, oldest first. */
  datatype Outcome = Outcome(ok: bool, attempts: nat, gets: nat, history: seq<Workflow>)

  /** The accepted writes; their number is the resource version. */
  class Server {
    var history: seq<Workflow>

    function Version(): nat
      reads this
    {
      |history|
    }

    /** Other clients write. */
    method Receive(writes: seq<Workflow>)
      modifies this
      ensures history == old(history) + writes
    {
      history := history + writes;
    }

    /** `answered` says that the client gets a status back, and `ok` that it is a success. */
    method Update(w: Workflow, version: nat, fault: Fault) returns (ok: bool, answered: bool)
      modifies this
      ensures ok == (version == old(Version()) && fault.NoFault?) && answered == !fault.Lost?
      ensures history == old(history) + if ok || (fault == Lost(true) && version == old(Version())) then [w] else []
    {
      ok, answered := version == Version() && fault.NoFault?, !fault.Lost?;
      if version == Version() && (fault.NoFault? || fault == Lost(true)) {
        history := history + [w];
      }
    }
  }

  /** A call, starting with an attempt at version `version`; `windows` has an entry for each attempt allowed. */
  function Send(history: seq<Workflow>, version: nat, w: Workflow, windows: seq<Window>): Outcome
    requires windows != []
    decreases |windows|
  {
    var first, arrived := windows[0], history + windows[0].writes;
    if first.fault.NoFault? && version == |arrived| then Outcome(true, 1, 0, arrived + [w])
    else if first.fault.Lost? then
      Outcome(false, 1, 0, if first.fault.applied && version == |arrived| then arrived + [w] else arrived)
    else if |windows| == 1 then Outcome(false, 1, 0, arrived)
    else if first.getFails then Outcome(false, 1, 1, arrived)
    else
      var rest := Send(arrived, |arrived|, w, windows[1..]);
      rest.(attempts := rest.attempts + 1, gets := rest.gets + 1)
  }

  /** `version` is the resource version with which the workflow was read; it may be out of date by now. */
  method UpdateWorkflowStatus(server: Server, w: Workflow, version: nat, windows: seq<Window>)
    returns (ok: bool, attempts: nat, gets: nat)
    requires |windows| == RETRY_ON_STATUS_CONFLICT + 1
    modifies server
    ensures Outcome(ok, attempts, gets, server.history) == Send(old(server.history), version, w, windows)
    ensures ok <==>
              exists k :: 0 <= k < 4 && windows[k].fault.NoFault?
                          && (if k == 0 then version == |old(server.history)| + |windows[0].writes|
                              else windows[k].writes == [])
                          && forall i :: 0 <= i < k ==> !windows[i].fault.Lost? && !windows[i].getFails
    ensures ok ==> exists n :: 0 <= n <= |windows| && server.history == old(server.history) + Others(windows, n) + [w]
  {
    SucceedsIff(server.history, version, w, windows);
    WritesAtMostOnce(server.history, version, w, windows);
    var rv, i := version, 0;
    assert windows[0..] == windows;
    while true
      invariant 0 <= i <= RETRY_ON_STATUS_CONFLICT
      invariant var rest := Send(server.history, rv, w, windows[i..]);
                rest.(attempts := rest.attempts + i, gets := rest.gets + i) ==
                Send(old(server.history), version, w, windows)
      decreases |windows| - i
    {
      ghost var before, rest := server.history, windows[i..];
      assert rest[0] == windows[i] && rest[1..] == windows[i + 1..];
      server.Receive(windows[i].writes);
      var answered;
      ok, answered := server.Update(w, rv, windows[i].fault);
      attempts, gets := i + 1, i;
      if ok {
        return;
      }
      if i >= RETRY_ON_STATUS_CONFLICT {
        return;
      }
      if !answered {
        return;
      }
      gets := gets + 1;
      if windows[i].getFails {
        return;
      }
      assert server.history == before + rest[0].writes && |rest| > 1;
      assert !(rest[0].fault.NoFault? && rv == |server.history|) && !rest[0].fault.Lost? && !rest[0].getFails;
      ghost var next := Send(server.history, |server.history|, w, windows[i + 1..]);
      assert Send(before, rv, w, rest) == next.(attempts := next.attempts + 1, gets := next.gets + 1);
      rv := server.Version();
      i := i + 1;
    }
  }

  // ---- What a call achieves ----

  /** The writes of other clients before or between the first `n` attempts. */
  function Others(windows: seq<Window>, n: nat): seq<Workflow> {
    if n == 0 || windows == [] then [] else windows[0].writes + Others(windows[1..], n - 1)
  }

  /** The workflow is written at most once, after the writes of others that arrived before its last attempt. */
  lemma {:induction false} WritesAtMostOnce(history: seq<Workflow>, version: nat, w: Workflow, windows: seq<Window>)
    requires windows != []
    ensures var call := Send(history, version, w, windows);
            && 1 <= call.attempts <= |windows| && call.gets < |windows|
            && call.attempts - 1 <= call.gets <= call.attempts
            && (call.ok ==> call.history == history + Others(windows, call.attempts) + [w])
            && (!call.ok ==> call.history == history + Others(windows, call.attempts)
                             || call.history == history + Others(windows, call.attempts) + [w])
    decreases |windows|
  {
    var first, arrived := windows[0], history + windows[0].writes;
    if !(first.fault.NoFault? && version == |arrived|) && !first.fault.Lost? && |windows| > 1 && !first.getFails {
      WritesAtMostOnce(arrived, |arrived|, w, windows[1..]);
      var n := Send(arrived, |arrived|, w, windows[1..]).attempts;
      assert Others(windows, n + 1) == first.writes + Others(windows[1..], n);
      assert arrived + Others(windows[1..], n) == history + Others(windows, n + 1);
    } else {
      assert Others(windows[1..], 0) == [];
      assert Others(windows, 1) == first.writes;
    }
  }

  /** Nothing newer than the version an attempt uses has arrived at the server when it does. */
  ghost predicate QuietWindow(history: seq<Workflow>, version: nat, windows: seq<Window>, i: int)
    requires 0 <= i < |windows|
  {
    if i == 0 then version == |history| + |windows[0].writes| else windows[i].writes == []
  }

  /** The attempt succeeds if the call gets to it. */
  ghost predicate Accepted(history: seq<Workflow>, version: nat, windows: seq<Window>, i: int)
    requires 0 <= i < |windows|
  {
    windows[i].fault.NoFault? && QuietWindow(history, version, windows, i)
  }

  /** The call ends at the attempt without success: the answer is lost, the read fails, or no attempt is left. */
  predicate Fatal(windows: seq<Window>, i: int)
    requires 0 <= i < |windows|
  {
    windows[i].fault.Lost? || windows[i].getFails || i + 1 == |windows|
  }

  lemma QuietLater(history: seq<Workflow>, version: nat, windows: seq<Window>, i: int)
    requires 0 <= i < |windows| - 1
    ensures var arrived := history + windows[0].writes;
            Accepted(arrived, |arrived|, windows[1..], i) <==> Accepted(history, version, windows, i + 1)
    ensures Fatal(windows[1..], i) <==> Fatal(windows, i + 1)
  {
    assert windows[1..][i] == windows[i + 1];
  }

  /**
   * A call ends with the first attempt that succeeds, loses its answer, is followed by a failing read or is
   * the last one; each attempt before costs one read.  A refusal does not end it.
   */
  lemma {:induction false} EndsAtFirst(history: seq<Workflow>, version: nat, w: Workflow, windows: seq<Window>)
    requires windows != []
    ensures var call := Send(history, version, w, windows); var last := call.attempts - 1;
            && 0 <= last < |windows|
            && (Accepted(history, version, windows, last) || Fatal(windows, last))
            && (forall i :: 0 <= i < last ==> !Accepted(history, version, windows, i) && !Fatal(windows, i))
            && (call.ok <==> Accepted(history, version, windows, last))
            && call.gets == last + if call.ok || windows[last].fault.Lost? || last + 1 == |windows| then 0 else 1
    decreases |windows|
  {
    var arrived := history + windows[0].writes;
    if !Accepted(history, version, windows, 0) && !Fatal(windows, 0) {
      EndsAtFirst(arrived, |arrived|, w, windows[1..]);
      var last := Send(arrived, |arrived|, w, windows[1..]).attempts - 1;
      forall i | 0 <= i <= last
        ensures Accepted(arrived, |arrived|, windows[1..], i) <==> Accepted(history, version, windows, i + 1)
        ensures Fatal(windows[1..], i) <==> Fatal(windows, i + 1)
      {
        QuietLater(history, version, windows, i);
      }
      forall i | 0 <= i < last + 1 ensures !Accepted(history, version, windows, i) && !Fatal(windows, i) {
        assert i > 0 ==> !Accepted(arrived, |arrived|, windows[1..], i - 1) && !Fatal(windows[1..], i - 1);
      }
    }
  }

  /**
   * A call succeeds exactly if some attempt has no fault and finds the version it uses, and no earlier one
   * loses its answer or is followed by a failing read.
   */
  lemma SucceedsIff(history: seq<Workflow>, version: nat, w: Workflow, windows: seq<Window>)
    requires windows != []
    ensures Send(history, version, w, windows).ok <==>
              exists k :: 0 <= k < |windows| && windows[k].fault.NoFault?
                          && (if k == 0 then version == |history| + |windows[0].writes| else windows[k].writes == [])
                          && forall i :: 0 <= i < k ==> !windows[i].fault.Lost? && !windows[i].getFails
  {
    EndsAtFirst(history, version, w, windows);
    var last := Send(history, version, w, windows).attempts - 1;
    if Accepted(history, version, windows, last) {
      forall i | 0 <= i < last ensures !windows[i].fault.Lost? && !windows[i].getFails {
        assert !Fatal(windows, i);
      }
    } else if k :| 0 <= k < |windows| && windows[k].fault.NoFault?
                   && (if k == 0 then version == |history| + |windows[0].writes| else windows[k].writes == [])
                   && forall i :: 0 <= i < k ==> !windows[i].fault.Lost? && !windows[i].getFails {
      assert Accepted(history, version, windows, k);
    }
  }

  /** Only conflicts go wrong. */
  ghost predicate ConflictsOnly(windows: seq<Window>) {
    forall i :: 0 <= i < |windows| ==> windows[i].fault.NoFault? && !windows[i].getFails
  }

  /** If only conflicts go wrong, a call fails exactly if another write lands in each of its windows. */
  lemma FailsIffEveryWindowIsHit(history: seq<Workflow>, version: nat, w: Workflow, windows: seq<Window>)
    requires windows != [] && ConflictsOnly(windows)
    ensures Send(history, version, w, windows).ok
            <==> exists i :: 0 <= i < |windows| && QuietWindow(history, version, windows, i)
    ensures !Send(history, version, w, windows).ok ==> Send(history, version, w, windows).attempts == |windows|
  {
    SucceedsIff(history, version, w, windows);
    EndsAtFirst(history, version, w, windows);
    if i :| 0 <= i < |windows| && QuietWindow(history, version, windows, i) {
      assert Accepted(history, version, windows, i);
    }
  }

  // ---- Newer writes ----

  /** A successful call has replaced a write that is newer than what the workflow was made from. */
  ghost predicate CoversNewer(call: Outcome, version: nat) {
    call.ok && version < |call.history| - 1
  }

  /**
   * A successful call covers a newer write exactly if one arrived, before the call or in a window that
   * has passed; if only conflicts go wrong, exactly if the first attempt was too late.
   */
  lemma CoversNewerIff(history: seq<Workflow>, version: nat, w: Workflow, windows: seq<Window>)
    requires windows != [] && version <= |history| && Send(history, version, w, windows).ok
    ensures var call := Send(history, version, w, windows);
            && (CoversNewer(call, version) <==> version < |history| || Others(windows, call.attempts) != [])
            && (ConflictsOnly(windows) ==> (CoversNewer(call, version) <==> !QuietWindow(history, version, windows, 0)))
            && call.history != [] && call.history[|call.history| - 1] == w
  {
    WritesAtMostOnce(history, version, w, windows);
    var call := Send(history, version, w, windows);
    assert Others(windows, call.attempts) == windows[0].writes + Others(windows[1..], call.attempts - 1);
    assert Others(windows[1..], 0) == [];
  }

  /** One write of another client in the first window is enough: the call succeeds and covers it. */
  lemma OneConflictIsCovered(before: Workflow, other: Workflow, w: Workflow)
    ensures var quiet := Window([], NoFault, false);
            var call := Send([before], 1, w, [Window([other], NoFault, false), quiet, quiet, quiet]);
            call.ok && call.history == [before, other, w] && CoversNewer(call, 1)
  {
    var quiet := Window([], NoFault, false);
    var windows := [Window([other], NoFault, false), quiet, quiet, quiet];
    assert windows[1..] == [quiet, quiet, quiet];
    assert [before] + [other] + [] + [w] == [before, other, w];
    assert Send([before, other], 2, w, windows[1..]).history == [before, other] + [] + [w];
  }
}
