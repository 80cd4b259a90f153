/** The polling watch: a difference engine that turns full lists of workflows into events. */
module Watch {
  import opened Prelude
  import opened Api

  /** Events carry the workflow as it was when the event was sent. */
  datatype WatchEvent = Added(workflow: Workflow) | Modified(workflow: Workflow) | Deleted(workflow: Workflow)

  /** Workflows by name; the namespace is not part of the key. */
  type View = map<string, Workflow>

  /** A list by name; the last entry of a name wins. */
  function ViewOf(list: seq<Workflow>): View {
    if list == [] then map[] else
      var last := list[|list| - 1];
      ViewOf(list[..|list| - 1])[last.name := last]
  }

  /** What a listener makes of one event, and of a sequence of events. */
  function Heard(view: View, e: WatchEvent): View {
    match e
    case Added(w) => view[w.name := w]
    case Modified(w) => view[w.name := w]
    case Deleted(w) => view - {w.name}
  }

  function Replay(view: View, events: seq<WatchEvent>): View {
    if events == [] then view else
      Heard(Replay(view, events[..|events| - 1]), events[|events| - 1])
  }

  lemma ReplaySnoc(view: View, events: seq<WatchEvent>, e: WatchEvent)
    ensures Replay(view, events + [e]) == Heard(Replay(view, events), e)
  {
    assert (events + [e])[..|events|] == events;
  }

  lemma {:induction false} ReplayConcat(view: View, a: seq<WatchEvent>, b: seq<WatchEvent>)
    ensures Replay(view, a + b) == Replay(Replay(view, a), b)
  {
    if b == [] {
      assert a + b == a;
    } else {
      ReplayConcat(view, a, b[..|b| - 1]);
      assert (a + b)[..|a + b| - 1] == a + b[..|b| - 1];
    }
  }

  /** The event sent for an entry of a list, given what is known by name. */
  function EntryEvents(now: View, w: Workflow): seq<WatchEvent> {
    if w.name !in now then [Added(w)] else if now[w.name] != w then [Modified(w)] else []
  }

  /** The events sent for all entries of a list, starting from what is known by name. */
  function Changes(known: View, list: seq<Workflow>): seq<WatchEvent> {
    if list == [] then [] else
      var front := list[..|list| - 1];
      Changes(known, front) + EntryEvents(known + ViewOf(front), list[|list| - 1])
  }

  lemma ChangesSnoc(known: View, list: seq<Workflow>, w: Workflow)
    ensures ViewOf(list + [w]) == ViewOf(list)[w.name := w]
    ensures known + ViewOf(list + [w]) == (known + ViewOf(list))[w.name := w]
    ensures Changes(known, list + [w]) == Changes(known, list) + EntryEvents(known + ViewOf(list), w)
  {
    assert (list + [w])[..|list|] == list;
  }

  lemma EntryHeard(view: View, events: seq<WatchEvent>, w: Workflow)
    ensures var now := Replay(view, events);
            Replay(view, events + EntryEvents(now, w)) == now[w.name := w]
  {
    var now := Replay(view, events);
    if w.name !in now {
      assert EntryEvents(now, w) == [Added(w)];
      ReplaySnoc(view, events, Added(w));
    } else if now[w.name] != w {
      assert EntryEvents(now, w) == [Modified(w)];
      ReplaySnoc(view, events, Modified(w));
    } else {
      assert EntryEvents(now, w) == [] && events + [] == events;
      assert now[w.name := w] == now;
    }
  }

  lemma {:induction false} ChangesReplay(known: View, list: seq<Workflow>)
    ensures Replay(known, Changes(known, list)) == known + ViewOf(list)
  {
    if list != [] {
      var front, w := list[..|list| - 1], list[|list| - 1];
      assert list == front + [w];
      ChangesReplay(known, front);
      EntryHeard(known, Changes(known, front), w);
      ChangesSnoc(known, front, w);
    } else {
      assert known + map[] == known;
    }
  }

  predicate DistinctNames(list: seq<Workflow>) {
    forall i, j :: 0 <= i < j < |list| ==> list[i].name != list[j].name
  }

  lemma {:induction false} ViewOfLists(list: seq<Workflow>)
    ensures forall n :: n in ViewOf(list) ==> ViewOf(list)[n].name == n && ViewOf(list)[n] in list
    ensures forall i :: 0 <= i < |list| ==> list[i].name in ViewOf(list)
    ensures DistinctNames(list) ==> forall i :: 0 <= i < |list| ==> ViewOf(list)[list[i].name] == list[i]
  {
    if list != [] {
      ViewOfLists(list[..|list| - 1]);
    }
  }

  /** The event that leads from one view to the next under a name, if any. */
  function Expected(before: View, after: View, n: string): seq<WatchEvent> {
    if n in after then
      if n !in before then [Added(after[n])] else if before[n] != after[n] then [Modified(after[n])] else []
    else if n in before then [Deleted(before[n])] else []
  }

  /** The events about a name, in order. */
  function About(events: seq<WatchEvent>, n: string): seq<WatchEvent> {
    if events == [] then [] else
      var e := events[|events| - 1];
      About(events[..|events| - 1], n) + if e.workflow.name == n then [e] else []
  }

  lemma {:induction false} AboutConcat(a: seq<WatchEvent>, b: seq<WatchEvent>, n: string)
    ensures About(a + b, n) == About(a, n) + About(b, n)
  {
    if b == [] {
      assert a + b == a;
    } else {
      AboutConcat(a, b[..|b| - 1], n);
      assert (a + b)[..|a + b| - 1] == a + b[..|b| - 1];
    }
  }

  lemma AboutEntry(now: View, w: Workflow, n: string)
    ensures About(EntryEvents(now, w), n) == if w.name == n then EntryEvents(now, w) else []
  {
    var events := EntryEvents(now, w);
    assert events == [] || events[..|events| - 1] == [];
  }

  /** With distinct names, an entry causes an event exactly if it is new or different. */
  lemma {:induction false} ChangesAbout(known: View, list: seq<Workflow>, n: string)
    requires DistinctNames(list)
    ensures About(Changes(known, list), n) == if n in ViewOf(list) then Expected(known, ViewOf(list), n) else []
  {
    if list != [] {
      var front, w := list[..|list| - 1], list[|list| - 1];
      ChangesAbout(known, front, n);
      NotListedBefore(list);
      AboutConcat(Changes(known, front), EntryEvents(known + ViewOf(front), w), n);
      AboutEntry(known + ViewOf(front), w, n);
      ExpectedOfEntry(known, ViewOf(front), w, n);
    }
  }

  lemma ExpectedOfEntry(known: View, front: View, w: Workflow, n: string)
    requires w.name !in front
    ensures EntryEvents(known + front, w) == EntryEvents(known, w)
    ensures n == w.name ==> Expected(known, front[w.name := w], n) == EntryEvents(known, w)
    ensures n != w.name && n in front ==> Expected(known, front[w.name := w], n) == Expected(known, front, n)
  {
  }

  lemma NotListedBefore(list: seq<Workflow>)
    requires DistinctNames(list) && list != []
    ensures list[|list| - 1].name !in ViewOf(list[..|list| - 1])
  {
    ViewOfLists(list[..|list| - 1]);
  }

  /** Each name is known under itself. */
  ghost predicate Named(view: View) {
    forall n :: n in view ==> view[n].name == n
  }

  ghost function Deletions(known: View, order: seq<string>): seq<WatchEvent>
    requires Elems(order) <= known.Keys
  {
    if order == [] then [] else
      var n := order[|order| - 1];
      assert n in Elems(order) && Elems(order[..|order| - 1]) <= Elems(order);
      Deletions(known, order[..|order| - 1]) + [Deleted(known[n])]
  }

  lemma {:induction false} DeletionsReplay(known: View, order: seq<string>)
    requires Named(known) && Elems(order) <= known.Keys
    ensures Replay(known, Deletions(known, order)) == known - Elems(order)
  {
    if order != [] {
      var front, n := order[..|order| - 1], order[|order| - 1];
      assert n in Elems(order) && Elems(order) == Elems(front) + {n};
      DeletionsReplay(known, front);
      ReplaySnoc(known, Deletions(known, front), Deleted(known[n]));
      assert known - Elems(front) - {n} == known - Elems(order);
    } else {
      assert known - Elems(order) == known;
    }
  }

  lemma {:induction false} DeletionsAbout(known: View, order: seq<string>, n: string)
    requires Named(known) && Elems(order) <= known.Keys && NoDup(order)
    ensures About(Deletions(known, order), n) == if n in order then [Deleted(known[n])] else []
  {
    if order != [] {
      var front, last := order[..|order| - 1], order[|order| - 1];
      assert last in Elems(order) && Elems(front) <= Elems(order);
      DeletionsAbout(known, front, n);
      assert n in order <==> n in front || n == last;
      var events := Deletions(known, order);
      assert events[..|events| - 1] == Deletions(known, front);
    }
  }

  /** With distinct names, a tick sends about each name the event that leads to the new view, and no other. */
  lemma AboutTick(known: View, list: seq<Workflow>, order: seq<string>, n: string)
    requires Named(known) && DistinctNames(list)
    requires Lists(order, (known + ViewOf(list)).Keys - ViewOf(list).Keys)
    ensures About(Changes(known, list) + Deletions(known + ViewOf(list), order), n) == Expected(known, ViewOf(list), n)
  {
    ViewOfLists(list);
    AboutConcat(Changes(known, list), Deletions(known + ViewOf(list), order), n);
    ChangesAbout(known, list, n);
    DeletionsAbout(known + ViewOf(list), order, n);
    assert n in order <==> n in Elems(order);
  }

  lemma {:induction false} AboutHolds(events: seq<WatchEvent>, n: string)
    ensures forall e :: e in About(events, n) <==> e in events && e.workflow.name == n
  {
    if events != [] {
      AboutHolds(events[..|events| - 1], n);
    }
  }

  /** With distinct names: whether a workflow is added, modified or deleted. */
  lemma KindOfEvent(known: View, list: seq<Workflow>, events: seq<WatchEvent>, w: Workflow)
    requires Named(known) && DistinctNames(list)
    requires About(events, w.name) == Expected(known, ViewOf(list), w.name)
    ensures Added(w) in events <==> w in list && w.name !in known
    ensures Modified(w) in events <==> w in list && w.name in known && known[w.name] != w
    ensures Deleted(w) in events <==>
            w.name in known && known[w.name] == w && forall v :: v in list ==> v.name != w.name
  {
    ViewOfLists(list);
    AboutHolds(events, w.name);
    assert Added(w) in events <==> Added(w) in Expected(known, ViewOf(list), w.name);
    assert Modified(w) in events <==> Modified(w) in Expected(known, ViewOf(list), w.name);
    assert Deleted(w) in events <==> Deleted(w) in Expected(known, ViewOf(list), w.name);
  }

  lemma ListedRemains(known: View, listed: View, gone: set<string>)
    requires gone == (known + listed).Keys - listed.Keys
    ensures known + listed - gone == listed
  {
  }

  /** Replaying a tick leads from what was known to the polled list. */
  lemma TickReplay(known: View, list: seq<Workflow>, order: seq<string>)
    requires Named(known) && Lists(order, (known + ViewOf(list)).Keys - ViewOf(list).Keys)
    ensures known + ViewOf(list) - Elems(order) == ViewOf(list) && Named(ViewOf(list))
    ensures Replay(known, Changes(known, list) + Deletions(known + ViewOf(list), order)) == ViewOf(list)
  {
    ViewOfLists(list);
    ListedRemains(known, ViewOf(list), Elems(order));
    ChangesReplay(known, list);
    DeletionsReplay(known + ViewOf(list), order);
    ReplayConcat(known, Changes(known, list), Deletions(known + ViewOf(list), order));
  }

  // ---- The store of a listener, which is keyed by namespace and name ----

  datatype StoreKey = StoreKey(namespace: string, name: string)

  type Store = map<StoreKey, Workflow>

  function KeyIn(w: Workflow): StoreKey {
    StoreKey(w.namespace, w.name)
  }

  function StoreOf(list: seq<Workflow>): Store {
    if list == [] then map[] else
      var last := list[|list| - 1];
      StoreOf(list[..|list| - 1])[KeyIn(last) := last]
  }

  function Stored(store: Store, e: WatchEvent): Store {
    match e
    case Added(w) => store[KeyIn(w) := w]
    case Modified(w) => store[KeyIn(w) := w]
    case Deleted(w) => store - {KeyIn(w)}
  }

  function StoreAfter(store: Store, events: seq<WatchEvent>): Store {
    if events == [] then store else
      Stored(StoreAfter(store, events[..|events| - 1]), events[|events| - 1])
  }

  lemma {:induction false} StoreConcat(store: Store, a: seq<WatchEvent>, b: seq<WatchEvent>)
    ensures StoreAfter(store, a + b) == StoreAfter(StoreAfter(store, a), b)
  {
    if b == [] {
      assert a + b == a;
    } else {
      StoreConcat(store, a, b[..|b| - 1]);
      assert (a + b)[..|a + b| - 1] == a + b[..|b| - 1];
    }
  }

  /** What is known by name is stored under its key. */
  ghost predicate Knows(store: Store, known: View) {
    Named(known) && forall n :: n in known ==> KeyIn(known[n]) in store && store[KeyIn(known[n])] == known[n]
  }

  lemma EntryStored(store: Store, now: View, w: Workflow)
    requires Knows(store, now)
    ensures StoreAfter(store, EntryEvents(now, w)) == store[KeyIn(w) := w]
    ensures Knows(store[KeyIn(w) := w], now[w.name := w])
  {
    var events := EntryEvents(now, w);
    if events == [] {
      assert store[KeyIn(w) := w] == store;
    } else {
      assert events[..|events| - 1] == [];
    }
  }

  lemma StoreOfSnoc(store: Store, list: seq<Workflow>, w: Workflow)
    ensures StoreOf(list + [w]) == StoreOf(list)[KeyIn(w) := w]
    ensures store + StoreOf(list + [w]) == (store + StoreOf(list))[KeyIn(w) := w]
  {
    assert (list + [w])[..|list|] == list;
  }

  /** Every listed workflow is stored, whether or not an event was sent for it. */
  lemma {:induction false} ChangesStored(store: Store, known: View, list: seq<Workflow>)
    requires Knows(store, known)
    ensures StoreAfter(store, Changes(known, list)) == store + StoreOf(list)
    ensures Knows(store + StoreOf(list), known + ViewOf(list))
  {
    if list == [] {
      assert store + map[] == store && known + map[] == known;
    } else {
      var front, w := list[..|list| - 1], list[|list| - 1];
      assert list == front + [w];
      ChangesStored(store, known, front);
      OneMoreStored(store, known, front, w);
    }
  }

  lemma OneMoreStored(store: Store, known: View, front: seq<Workflow>, w: Workflow)
    requires StoreAfter(store, Changes(known, front)) == store + StoreOf(front)
    requires Knows(store + StoreOf(front), known + ViewOf(front))
    ensures StoreAfter(store, Changes(known, front + [w])) == store + StoreOf(front + [w])
    ensures Knows(store + StoreOf(front + [w]), known + ViewOf(front + [w]))
  {
    ChangesSnoc(known, front, w);
    StoreOfSnoc(store, front, w);
    EntryStored(store + StoreOf(front), known + ViewOf(front), w);
    StoreConcat(store, Changes(known, front), EntryEvents(known + ViewOf(front), w));
  }

  /** The keys of the workflows that were known last under names that are not listed any more. */
  function GoneKeys(known: View, names: set<string>): set<StoreKey> {
    set n | n in known && n in names :: KeyIn(known[n])
  }

  lemma {:induction false} DeletionsStored(store: Store, known: View, order: seq<string>)
    requires Elems(order) <= known.Keys
    ensures StoreAfter(store, Deletions(known, order)) == store - GoneKeys(known, Elems(order))
  {
    if order == [] {
      assert GoneKeys(known, Elems(order)) == {};
    } else {
      var front, n := order[..|order| - 1], order[|order| - 1];
      assert n in Elems(order) && Elems(order) == Elems(front) + {n};
      DeletionsStored(store, known, front);
      StoreConcat(store, Deletions(known, front), [Deleted(known[n])]);
      assert [Deleted(known[n])][..0] == [];
      assert GoneKeys(known, Elems(order)) == GoneKeys(known, Elems(front)) + {KeyIn(known[n])};
    }
  }

  /** The store after a tick: the list, and what was stored without being deleted. */
  function StoreAfterTick(store: Store, known: View, list: seq<Workflow>): Store {
    store + StoreOf(list) - GoneKeys(known, known.Keys - ViewOf(list).Keys)
  }

  lemma GoneOfTick(known: View, listed: View, names: set<string>)
    requires names == (known + listed).Keys - listed.Keys
    ensures GoneKeys(known + listed, names) == GoneKeys(known, known.Keys - listed.Keys)
  {
  }

  lemma StillKnows(store: Store, known: View, listed: View)
    requires Knows(store, known + listed) && Named(known)
    ensures Knows(store - GoneKeys(known, known.Keys - listed.Keys), listed)
  {
    forall n | n in listed
      ensures listed[n].name == n && KeyIn(listed[n]) in store && store[KeyIn(listed[n])] == listed[n]
    {
      assert (known + listed)[n] == listed[n];
    }
  }

  lemma TickStored(store: Store, known: View, list: seq<Workflow>, order: seq<string>)
    requires Knows(store, known) && Lists(order, (known + ViewOf(list)).Keys - ViewOf(list).Keys)
    ensures StoreAfter(store, Changes(known, list) + Deletions(known + ViewOf(list), order)) ==
            StoreAfterTick(store, known, list)
    ensures Knows(StoreAfterTick(store, known, list), ViewOf(list))
  {
    var now := known + ViewOf(list);
    ChangesStored(store, known, list);
    DeletionsStored(store + StoreOf(list), now, order);
    StoreConcat(store, Changes(known, list), Deletions(now, order));
    GoneOfTick(known, ViewOf(list), Elems(order));
    StillKnows(store + StoreOf(list), known, ViewOf(list));
  }

  /** Every workflow that is not listed any more was the last of its name, and no other has taken its name. */
  ghost predicate LeavesNothing(before: seq<Workflow>, list: seq<Workflow>) {
    forall k :: k in StoreOf(before) && k !in StoreOf(list) ==>
                  k.name !in ViewOf(list) && k.name in ViewOf(before) && KeyIn(ViewOf(before)[k.name]) == k
  }

  lemma {:induction false} StoredNamesAreListed(list: seq<Workflow>)
    ensures forall k :: k in StoreOf(list) ==> k.name in ViewOf(list)
  {
    if list != [] {
      StoredNamesAreListed(list[..|list| - 1]);
    }
  }

  /** What a tick deletes from the store of the list before. */
  lemma GoneIff(before: seq<Workflow>, list: seq<Workflow>, k: StoreKey)
    ensures k in GoneKeys(ViewOf(before), ViewOf(before).Keys - ViewOf(list).Keys)
            <==> k.name in ViewOf(before) && k.name !in ViewOf(list) && KeyIn(ViewOf(before)[k.name]) == k
  {
    ViewOfLists(before);
  }

  /** A tick leads from the store of one list to that of the next exactly if it leaves nothing behind. */
  lemma StoreFollowsIff(before: seq<Workflow>, list: seq<Workflow>)
    ensures StoreAfterTick(StoreOf(before), ViewOf(before), list) == StoreOf(list) <==> LeavesNothing(before, list)
  {
    var gone := GoneKeys(ViewOf(before), ViewOf(before).Keys - ViewOf(list).Keys);
    StoredNamesAreListed(list);
    forall k: StoreKey
      ensures k in gone <==>
              k.name in ViewOf(before) && k.name !in ViewOf(list) && KeyIn(ViewOf(before)[k.name]) == k
    {
      GoneIff(before, list, k);
    }
    Remainder(StoreOf(before), StoreOf(list), gone);
  }

  lemma Remainder(store: Store, listed: Store, gone: set<StoreKey>)
    requires gone !! listed.Keys
    ensures store + listed - gone == listed <==> forall k :: k in store && k !in listed ==> k in gone
  {
    var after := store + listed - gone;
    assert forall k :: k in listed ==> k in after && after[k] == listed[k];
    assert after.Keys == listed.Keys + (store.Keys - listed.Keys - gone);
    if after.Keys == listed.Keys {
      assert after == listed;
    }
  }

  /** The store of a listener that has heard all events from nothing. */
  function StoreAfterPolls(polls: seq<seq<Workflow>>): Store {
    if polls == [] then map[] else
      var front := polls[..|polls| - 1];
      var known := if front == [] then map[] else ViewOf(front[|front| - 1]);
      StoreAfterTick(StoreAfterPolls(front), known, polls[|polls| - 1])
  }

  lemma FirstPollStored(list: seq<Workflow>)
    ensures StoreAfterPolls([list]) == StoreOf(list)
  {
    assert [list][..0] == [];
    var known: View := map[];
    assert GoneKeys(known, known.Keys - ViewOf(list).Keys) == {};
    assert map[] + StoreOf(list) - {} == StoreOf(list);
  }

  ghost predicate NothingLeft(polls: seq<seq<Workflow>>) {
    forall i, j :: 0 <= i && i + 1 == j < |polls| ==> LeavesNothing(polls[i], polls[j])
  }

  ghost predicate LastAt(polls: seq<seq<Workflow>>, i: nat)
    requires i < |polls|
  {
    StoreAfterPolls(polls[..i + 1]) == StoreOf(polls[i])
  }

  ghost predicate AlwaysLast(polls: seq<seq<Workflow>>) {
    forall i :: 0 <= i < |polls| ==> LastAt(polls, i)
  }

  lemma AlwaysLastSnoc(polls: seq<seq<Workflow>>, list: seq<Workflow>)
    ensures AlwaysLast(polls + [list]) <==> AlwaysLast(polls) && StoreAfterPolls(polls + [list]) == StoreOf(list)
  {
    var all := polls + [list];
    assert all[..|polls| + 1] == all;
    assert LastAt(all, |polls|) <==> StoreAfterPolls(all) == StoreOf(list);
    forall i | 0 <= i < |polls| ensures LastAt(all, i) <==> LastAt(polls, i) {
      assert all[..i + 1] == polls[..i + 1];
    }
  }

  /**
   * A store that hears the events of the watch holds the last list after every poll exactly if no poll
   * leaves anything behind: names alone decide what is deleted.
   */
  lemma {:induction false} StoreIsLastListIff(polls: seq<seq<Workflow>>)
    ensures AlwaysLast(polls) <==> NothingLeft(polls)
  {
    if |polls| == 1 {
      assert polls == [] + [polls[0]];
      AlwaysLastSnoc([], polls[0]);
      FirstPollStored(polls[0]);
    } else if polls != [] {
      var front, list := polls[..|polls| - 1], polls[|polls| - 1];
      assert polls == front + [list];
      StoreIsLastListIff(front);
      AlwaysLastSnoc(front, list);
      LastOfAll(front);
      StoreFollowsIff(front[|front| - 1], list);
      assert NothingLeft(polls) <==> NothingLeft(front) && LeavesNothing(front[|front| - 1], list);
    }
  }

  lemma LastOfAll(polls: seq<seq<Workflow>>)
    requires polls != []
    ensures AlwaysLast(polls) ==> StoreAfterPolls(polls) == StoreOf(polls[|polls| - 1])
  {
    assert polls[..|polls|] == polls;
    assert LastAt(polls, |polls| - 1) ==> StoreAfterPolls(polls) == StoreOf(polls[|polls| - 1]);
  }

  /** Of two workflows of one name in different namespaces, the one that is listed first is never deleted. */
  lemma NamesakeStaysStored(w: Workflow, other: Workflow)
    requires w.name == other.name && w.namespace != other.namespace
    ensures KeyIn(w) in StoreAfterPolls([[w, other], [other]]) && KeyIn(w) !in StoreOf([other])
  {
    var polls := [[w, other], [other]];
    assert polls[..1] == [[w, other]] && [w, other][..1] == [w] && [w][..0] == [] && [other][..0] == [];
    FirstPollStored([w, other]);
    assert ViewOf([]) == map[] && ViewOf([w]) == map[w.name := w];
    assert ViewOf([w, other]) == map[w.name := other] && ViewOf([other]) == map[w.name := other];
  }

  class Watcher {
    var nameMap: View

    constructor ()
      ensures nameMap == map[]
    {
      nameMap := map[];
    }

    /** The first loop over a polled list. */
    method SendChanges(list: seq<Workflow>) returns (events: seq<WatchEvent>, listMap: View)
      modifies this
      ensures events == Changes(old(nameMap), list)
      ensures nameMap == old(nameMap) + ViewOf(list) && listMap == ViewOf(list)
    {
      events, listMap := [], map[];
      for i := 0 to |list|
        invariant events == Changes(old(nameMap), list[..i])
        invariant nameMap == old(nameMap) + ViewOf(list[..i]) && listMap == ViewOf(list[..i])
      {
        var w := list[i];
        assert list[..i + 1] == list[..i] + [w];
        ChangesSnoc(old(nameMap), list[..i], w);
        listMap := listMap[w.name := w];
        if w.name !in nameMap {
          events := events + [Added(w)];
        } else if nameMap[w.name] != w {
          events := events + [Modified(w)];
        }
        nameMap := nameMap[w.name := w];
      }
      assert list[..|list|] == list;
    }

    /** The second loop: what is known but no longer listed is deleted, in any order. */
    method SendDeletions(listMap: View) returns (events: seq<WatchEvent>, ghost order: seq<string>)
      modifies this
      ensures Lists(order, old(nameMap).Keys - listMap.Keys)
      ensures events == Deletions(old(nameMap), order) && nameMap == old(nameMap) - Elems(order)
    {
      events, order := [], [];
      var rest := nameMap.Keys;
      while rest != {}
        invariant rest <= old(nameMap).Keys && Lists(order, old(nameMap).Keys - listMap.Keys - rest)
        invariant events == Deletions(old(nameMap), order) && nameMap == old(nameMap) - Elems(order)
      {
        var n :| n in rest;
        if n !in listMap {
          ListsSnoc(order, old(nameMap).Keys - listMap.Keys - rest, n);
          assert (order + [n])[..|order|] == order;
          assert old(nameMap) - Elems(order) - {n} == old(nameMap) - Elems(order + [n]);
          events := events + [Deleted(nameMap[n])];
          nameMap := nameMap - {n};
          order := order + [n];
        }
        rest := rest - {n};
        assert Elems(order) == old(nameMap).Keys - listMap.Keys - rest;
      }
    }

    /** One tick; `store` is what a listener has stored. */
    method Poll(list: seq<Workflow>, ghost store: Store) returns (events: seq<WatchEvent>)
      requires Knows(store, nameMap)
      modifies this
      ensures Named(nameMap) && nameMap == ViewOf(list)
      ensures Replay(old(nameMap), events) == nameMap
      ensures DistinctNames(list) ==> forall n :: About(events, n) == Expected(old(nameMap), nameMap, n)
      ensures StoreAfter(store, events) == StoreAfterTick(store, old(nameMap), list)
              && Knows(StoreAfter(store, events), nameMap)
      ensures DistinctNames(list) ==>
                forall w: Workflow ::
                  && (Added(w) in events <==> w in list && w.name !in old(nameMap))
                  && (Modified(w) in events <==> w in list && w.name in old(nameMap) && old(nameMap)[w.name] != w)
                  && (Deleted(w) in events <==>
                        w.name in old(nameMap) && old(nameMap)[w.name] == w
                        && forall v :: v in list ==> v.name != w.name)
    {
      ghost var known := nameMap;
      var changes, listMap := SendChanges(list);
      var deletions, order := SendDeletions(listMap);
      events := changes + deletions;
      TickReplay(known, list, order);
      TickStored(store, known, list, order);
      if DistinctNames(list) {
        forall n ensures About(events, n) == Expected(known, nameMap, n) {
          AboutTick(known, list, order, n);
        }
        forall w: Workflow
          ensures Added(w) in events <==> w in list && w.name !in known
          ensures Modified(w) in events <==> w in list && w.name in known && known[w.name] != w
          ensures Deleted(w) in events <==>
                  w.name in known && known[w.name] == w && forall v :: v in list ==> v.name != w.name
        {
          KindOfEvent(known, list, events, w);
        }
      }
    }

    /** A listener that replays every event from nothing ends with the last list, whatever was polled before. */
    method Watch(polls: seq<seq<Workflow>>) returns (events: seq<WatchEvent>)
      requires nameMap == map[]
      modifies this
      ensures Replay(map[], events) == nameMap
      ensures nameMap == if polls == [] then map[] else ViewOf(polls[|polls| - 1])
      ensures StoreAfter(map[], events) == StoreAfterPolls(polls)
    {
      events := [];
      for i := 0 to |polls|
        invariant Named(nameMap) && Replay(map[], events) == nameMap
        invariant nameMap == if i == 0 then map[] else ViewOf(polls[i - 1])
        invariant StoreAfter(map[], events) == StoreAfterPolls(polls[..i]) && Knows(StoreAfter(map[], events), nameMap)
      {
        ghost var stored := StoreAfter(map[], events);
        var more := Poll(polls[i], stored);
        StoreConcat(map[], events, more);
        assert polls[..i + 1][..i] == polls[..i];
        ReplayConcat(map[], events, more);
        events := events + more;
      }
      assert polls[..|polls|] == polls;
    }
  }

  // ---- Lists that repeat names ----

  ghost predicate Consistent(list: seq<Workflow>) {
    forall i, j :: 0 <= i < |list| && 0 <= j < |list| && list[i].name == list[j].name ==> list[i] == list[j]
  }

  /** Every entry of the list is known as it is. */
  ghost predicate Known(known: View, list: seq<Workflow>) {
    forall i :: 0 <= i < |list| ==> list[i].name in known && known[list[i].name] == list[i]
  }

  lemma KnownView(known: View, list: seq<Workflow>)
    requires Known(known, list)
    ensures known + ViewOf(list) == known
  {
    ViewOfLists(list);
  }

  lemma KnownFront(known: View, list: seq<Workflow>, w: Workflow)
    ensures Known(known, list + [w]) <==> Known(known, list) && w.name in known && known[w.name] == w
  {
    var next := list + [w];
    assert next[|list|] == w && forall i :: 0 <= i < |list| ==> next[i] == list[i];
  }

  lemma {:induction false} QuietChanges(known: View, list: seq<Workflow>)
    ensures Changes(known, list) == [] <==> Known(known, list)
  {
    if list != [] {
      var front, last := list[..|list| - 1], list[|list| - 1];
      assert list == front + [last];
      QuietChanges(known, front);
      KnownFront(known, front, last);
      if Known(known, front) {
        KnownView(known, front);
      }
    }
  }

  /**
   * Polling the same list again sends nothing exactly if no name in it stands for two different
   * workflows; otherwise every poll reports modifications.
   */
  lemma RepollSendsNothingIff(list: seq<Workflow>)
    ensures Changes(ViewOf(list), list) == [] <==> Consistent(list)
  {
    ViewOfLists(list);
    QuietChanges(ViewOf(list), list);
  }
}
