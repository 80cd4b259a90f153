/** Stretches of runs from one world to another. */
module Paths {
  import opened Protocol
  import opened ProtocolInvariants

  ghost predicate StepAt(c: Cluster, ws: seq<World>, es: seq<Event>, i: nat)
    requires |ws| == |es| + 1 && i < |es|
  {
    IsStep(c, ws[i], es[i], ws[i + 1])
  }

  ghost predicate IsPath(c: Cluster, ws: seq<World>, es: seq<Event>) {
    |ws| == |es| + 1 && forall i :: 0 <= i < |es| ==> StepAt(c, ws, es, i)
  }

  /** A path on which the workflow store only moves forward. */
  ghost predicate ForwardPath(c: Cluster, ws: seq<World>, es: seq<Event>) {
    IsPath(c, ws, es) && forall i :: 0 <= i < |es| ==> Forward(ws[i], es[i])
  }

  /** Induction along a path. */
  lemma {:induction false} AllAlong(ws: seq<World>, kept: World -> bool, i: nat)
    requires i < |ws| && kept(ws[0])
    requires forall k :: 0 < k < |ws| && kept(ws[k - 1]) ==> kept(ws[k])
    ensures kept(ws[i])
  {
    if i > 0 {
      AllAlong(ws, kept, i - 1);
    }
  }

  lemma PathInv(c: Cluster, ws: seq<World>, es: seq<Event>, i: nat)
    requires WellFormed(c) && IsPath(c, ws, es) && Inv(c, ws[0]) && i < |ws|
    ensures Inv(c, ws[i])
  {
    var kept := (w: World) => Inv(c, w);
    forall k | 0 < k < |ws| && kept(ws[k - 1]) ensures kept(ws[k]) {
      assert StepAt(c, ws, es, k - 1);
      StepKept(c, ws[k - 1], es[k - 1]);
    }
    AllAlong(ws, kept, i);
  }

  ghost predicate CalmPath(c: Cluster, ws: seq<World>, es: seq<Event>) {
    ForwardPath(c, ws, es) && forall i :: 0 <= i < |es| ==> Calm(es[i])
  }

  /** The one world can become the other in no time, without a restart, and moving forward. */
  ghost predicate Leads(c: Cluster, w: World, after: World) {
    exists ws, es :: CalmPath(c, ws, es) && ws[0] == w && ws[|es|] == after
  }

  lemma LeadsNowhere(c: Cluster, w: World)
    ensures Leads(c, w, w)
  {
    var es: seq<Event> := [];
    assert CalmPath(c, [w], es) && [w][0] == w && [w][|es|] == w;
  }

  lemma PathSnoc(c: Cluster, ws: seq<World>, es: seq<Event>, e: Event, after: World)
    requires IsPath(c, ws, es) && IsStep(c, ws[|es|], e, after)
    ensures IsPath(c, ws + [after], es + [e])
  {
    var next, events := ws + [after], es + [e];
    forall i | 0 <= i < |events| ensures StepAt(c, next, events, i) {
      if i < |es| {
        assert StepAt(c, ws, es, i);
      }
    }
  }

  lemma PathConcat(c: Cluster, ws: seq<World>, es: seq<Event>, vs: seq<World>, fs: seq<Event>)
    requires IsPath(c, ws, es) && IsPath(c, vs, fs) && ws[|es|] == vs[0]
    ensures IsPath(c, ws[..|es|] + vs, es + fs)
  {
    var next, events := ws[..|es|] + vs, es + fs;
    forall i | 0 <= i < |events| ensures StepAt(c, next, events, i) {
      if i < |es| {
        assert StepAt(c, ws, es, i);
        assert next[i + 1] == ws[i + 1];
      } else {
        assert StepAt(c, vs, fs, i - |es|);
      }
    }
  }

  lemma LeadsOn(c: Cluster, w: World, now: World, e: Event, after: World)
    requires Leads(c, w, now) && IsStep(c, now, e, after) && Calm(e) && Forward(now, e)
    ensures Leads(c, w, after)
  {
    var ws, es :| CalmPath(c, ws, es) && ws[0] == w && ws[|es|] == now;
    PathSnoc(c, ws, es, e, after);
    var next, events := ws + [after], es + [e];
    assert CalmPath(c, next, events) && next[0] == w && next[|events|] == after;
  }

  lemma LeadsInv(c: Cluster, w: World, after: World)
    requires WellFormed(c) && Leads(c, w, after) && Inv(c, w)
    ensures Inv(c, after)
  {
    var ws, es :| CalmPath(c, ws, es) && ws[0] == w && ws[|es|] == after;
    PathInv(c, ws, es, |es|);
  }
}
