/**
 topoSort (internal/resource/plan.go:61-127): layered Kahn sort over mutable in-degree maps.

 Go map iteration order is an arbitrary choice here.  The method is proved to return exactly
 Layering.Layers, for every input: duplicated identifiers, repeated dependencies, self
 dependencies and cycles included.
 */
module Sorting {
  import opened Resources
  import opened Layering

  function Link(id: Identifier, dep: Identifier, reverse: bool): Edge {
    if reverse then Edge(id, dep) else Edge(dep, id)
  }

  /** One edge per dependency that is itself among the given identifiers. */
  ghost function EdgesFrom(events: set<Event>, ids: set<Identifier>, reverse: bool): set<Edge> {
    set e, d | e in events && d in e.resource.deps && d in ids :: Link(e.resource.id, d, reverse)
  }

  ghost function EdgesOf(events: set<Event>, reverse: bool): set<Edge> {
    EdgesFrom(events, Ids(events), reverse)
  }

  ghost function Members(events: seq<Event>): set<Event> {
    set e | e in events
  }

  ghost function PhaseIds(phases: seq<seq<Event>>): seq<set<Identifier>> {
    seq(|phases|, k requires 0 <= k < |phases| => Ids(Members(phases[k])))
  }

  ghost predicate DistinctIds(events: seq<Event>) {
    forall i, j :: 0 <= i < j < |events| ==> events[i].resource.id != events[j].resource.id
  }

  /** e is the event the identifier-keyed map keeps: the last one carrying its identifier. */
  ghost predicate IsLast(events: seq<Event>, e: Event) {
    exists i :: 0 <= i < |events| && events[i] == e
                && forall j :: i < j < |events| ==> events[j].resource.id != e.resource.id
  }

  // ---------------------------------------------------------------------------------------
  // Counting edges with multiplicity
  // ---------------------------------------------------------------------------------------

  /** Edges into x that start in `from`, repeated edges counted each time. */
  ghost function InCount(edges: seq<Edge>, from: set<Identifier>, x: Identifier): nat {
    if edges == [] then 0
    else
      var last := edges[|edges| - 1];
      InCount(edges[..|edges| - 1], from, x) + (if last.after == x && last.before in from then 1 else 0)
  }

  /** Targets of the edges out of a, in order, repeated edges repeated. */
  ghost function Outs(edges: seq<Edge>, a: Identifier): seq<Identifier> {
    if edges == [] then []
    else
      var last := edges[|edges| - 1];
      Outs(edges[..|edges| - 1], a) + (if last.before == a then [last.after] else [])
  }

  lemma {:induction false} InCountZero(edges: seq<Edge>, from: set<Identifier>, x: Identifier)
    ensures InCount(edges, from, x) == 0 <==> forall e | e in edges && e.after == x :: e.before !in from
  {
    if edges != [] {
      InCountZero(edges[..|edges| - 1], from, x);
      assert edges == edges[..|edges| - 1] + [edges[|edges| - 1]];
    }
  }

  /** Removing a source takes away exactly its own edges. */
  lemma {:induction false} InCountWithout(edges: seq<Edge>, from: set<Identifier>, a: Identifier, x: Identifier)
    requires a in from
    ensures InCount(edges, from - {a}, x) + multiset(Outs(edges, a))[x] == InCount(edges, from, x)
  {
    if edges != [] {
      InCountWithout(edges[..|edges| - 1], from, a, x);
    }
  }

  lemma {:induction false} OutsAreEdges(edges: seq<Edge>, a: Identifier, x: Identifier)
    ensures x in Outs(edges, a) <==> Edge(a, x) in edges
  {
    if edges != [] {
      OutsAreEdges(edges[..|edges| - 1], a, x);
      assert edges == edges[..|edges| - 1] + [edges[|edges| - 1]];
    }
  }

  lemma AddEdge(edges: seq<Edge>, e: Edge, from: set<Identifier>, x: Identifier)
    ensures InCount(edges + [e], from, x)
         == InCount(edges, from, x) + (if e.after == x && e.before in from then 1 else 0)
    ensures Outs(edges + [e], x) == Outs(edges, x) + (if e.before == x then [e.after] else [])
  {
    assert (edges + [e])[..|edges|] == edges;
  }

  // ---------------------------------------------------------------------------------------
  // Go map idioms
  // ---------------------------------------------------------------------------------------

  /** m[k] += delta, where a missing key reads as zero and is created. */
  function Bump(m: map<Identifier, int>, k: Identifier, delta: int): map<Identifier, int> {
    m[k := (if k in m then m[k] else 0) + delta]
  }

  function Lookup(m: map<Identifier, seq<Identifier>>, k: Identifier): seq<Identifier> {
    if k in m then m[k] else []
  }

  // ---------------------------------------------------------------------------------------
  // The sort
  // ---------------------------------------------------------------------------------------

  ghost predicate Counted(inDegree: map<Identifier, int>, edges: seq<Edge>) {
    forall x | x in inDegree :: inDegree[x] == InCount(edges, inDegree.Keys, x)
  }

  /** An edge out of a remaining vertex leads to a remaining vertex. */
  ghost predicate ClosedUnder(rest: set<Identifier>, edges: seq<Edge>) {
    forall e | e in edges && e.before in rest :: e.after in rest
  }

  ghost predicate ListsOuts(dependents: map<Identifier, seq<Identifier>>, edges: seq<Edge>) {
    forall a :: Lookup(dependents, a) == Outs(edges, a)
  }

  ghost predicate KeepsLast(events: seq<Event>, eventSet: map<Identifier, Event>) {
    && eventSet.Keys == Ids(Members(events))
    && forall x | x in eventSet :: eventSet[x].resource.id == x && IsLast(events, eventSet[x])
  }

  ghost predicate Picks(phase: seq<Event>, ids: set<Identifier>, eventSet: map<Identifier, Event>) {
    && Ids(Members(phase)) == ids && DistinctIds(phase)
    && forall e | e in phase :: e.resource.id in eventSet && e == eventSet[e.resource.id]
  }

  /** One event per identifier, taken from the index. */
  ghost predicate Chosen(phase: seq<Event>, eventSet: map<Identifier, Event>) {
    DistinctIds(phase) && forall e | e in phase :: e.resource.id in eventSet && e == eventSet[e.resource.id]
  }

  /** One event per identifier, each the last of its identifier in the input. */
  ghost predicate GoodPhase(events: seq<Event>, phase: seq<Event>) {
    DistinctIds(phase) && forall e | e in phase :: IsLast(events, e)
  }

  lemma ChosenAreGood(events: seq<Event>, eventSet: map<Identifier, Event>, phases: seq<seq<Event>>)
    requires KeepsLast(events, eventSet) && forall k | 0 <= k < |phases| :: Chosen(phases[k], eventSet)
    ensures forall k | 0 <= k < |phases| :: GoodPhase(events, phases[k])
  {
  }

  method TopoSort(events: seq<Event>, reverse: bool) returns (phases: seq<seq<Event>>)
    ensures PhaseIds(phases) == Layers(Ids(Members(events)), EdgesOf(Members(events), reverse))
    ensures forall k | 0 <= k < |phases| :: GoodPhase(events, phases[k])
  {
    var eventSet, zero := IndexEvents(events);
    var inDegree, dependents;
    ghost var edges;
    inDegree, dependents, edges := BuildEdges(events, eventSet, zero, reverse);
    phases := PeelAll(eventSet, inDegree, dependents, edges, EdgesOf(Members(events), reverse));
    ChosenAreGood(events, eventSet, phases);
  }

  /** The outer loop: one phase per round, the cycle fallback included. */
  method PeelAll(eventSet: map<Identifier, Event>, start: map<Identifier, int>,
                 dependents: map<Identifier, seq<Identifier>>, ghost edges: seq<Edge>, ghost edgeSet: set<Edge>)
    returns (phases: seq<seq<Event>>)
    requires start.Keys == eventSet.Keys && forall x | x in eventSet :: eventSet[x].resource.id == x
    requires Counted(start, edges) && ClosedUnder(start.Keys, edges) && ListsOuts(dependents, edges)
    requires edgeSet == set ed | ed in edges
    ensures PhaseIds(phases) == Layers(start.Keys, edgeSet)
    ensures forall k | 0 <= k < |phases| :: Chosen(phases[k], eventSet)
  {
    phases := [];
    var inDegree := start;
    while |inDegree| > 0
      invariant inDegree.Keys <= eventSet.Keys
      invariant Counted(inDegree, edges) && ClosedUnder(inDegree.Keys, edges)
      invariant PhaseIds(phases) + Layers(inDegree.Keys, edgeSet) == Layers(start.Keys, edgeSet)
      invariant forall k | 0 <= k < |phases| :: Chosen(phases[k], eventSet)
      decreases inDegree.Keys
    {
      ghost var rest := inDegree.Keys;
      var phase, stuck;
      phase, inDegree, stuck := PeelRound(eventSet, inDegree, dependents, edges, edgeSet);
      AppendRound(phases, phase, Layers(rest, edgeSet), if stuck then [] else Layers(inDegree.Keys, edgeSet));
      phases := phases + [phase];
      if stuck { break; }
    }
  }

  /** One round: the ready events, or, when there are none, everything that remains. */
  method PeelRound(eventSet: map<Identifier, Event>, before: map<Identifier, int>,
                   dependents: map<Identifier, seq<Identifier>>, ghost edges: seq<Edge>, ghost edgeSet: set<Edge>)
    returns (phase: seq<Event>, inDegree: map<Identifier, int>, stuck: bool)
    requires before.Keys <= eventSet.Keys && |before| > 0
    requires forall x | x in eventSet :: eventSet[x].resource.id == x
    requires Counted(before, edges) && ClosedUnder(before.Keys, edges) && ListsOuts(dependents, edges)
    requires edgeSet == set ed | ed in edges
    ensures Chosen(phase, eventSet)
    ensures stuck ==> Layers(before.Keys, edgeSet) == [Ids(Members(phase))]
    ensures !stuck ==>
              && Layers(before.Keys, edgeSet) == [Ids(Members(phase))] + Layers(inDegree.Keys, edgeSet)
              && inDegree.Keys < before.Keys && Counted(inDegree, edges) && ClosedUnder(inDegree.Keys, edges)
  {
    var ready := CollectReady(before);
    ReadyIffZero(edges, edgeSet, before, ready);
    stuck := |ready| == 0;
    if stuck {
      phase := EmitAll(before.Keys, eventSet);
      inDegree := before;
    } else {
      phase, inDegree := Peel(ready, eventSet, before, dependents, edges);
      LayersStep(before.Keys, edgeSet, ready[0]);
      assert ready[0] in before.Keys && ready[0] !in inDegree.Keys;
    }
  }

  lemma AppendRound(phases: seq<seq<Event>>, phase: seq<Event>, layers: seq<set<Identifier>>,
                    tail: seq<set<Identifier>>)
    requires layers == [Ids(Members(phase))] + tail
    ensures PhaseIds(phases + [phase]) + tail == PhaseIds(phases) + layers
  {
    PhaseIdsAppend(phases, phase);
  }

  /** First two loops: index the events by identifier, and start every in-degree at zero. */
  method IndexEvents(events: seq<Event>) returns (eventSet: map<Identifier, Event>, zero: map<Identifier, int>)
    ensures KeepsLast(events, eventSet)
    ensures zero.Keys == eventSet.Keys && forall x | x in zero :: zero[x] == 0
  {
    eventSet, zero := map[], map[];
    for i := 0 to |events|
      invariant KeepsLast(events[..i], eventSet)
    {
      IsLastExtends(events, i, eventSet);
      eventSet := eventSet[events[i].resource.id := events[i]];
    }
    for i := 0 to |events|
      invariant zero.Keys == Ids(Members(events[..i])) && forall x | x in zero :: zero[x] == 0
    {
      PrefixMembers(events, i);
      zero := zero[events[i].resource.id := 0];
    }
    assert events[..|events|] == events;
  }

  /** Third loop: one increment and one dependents entry per in-set dependency. */
  method BuildEdges(events: seq<Event>, eventSet: map<Identifier, Event>, zero: map<Identifier, int>, reverse: bool)
    returns (inDegree: map<Identifier, int>, dependents: map<Identifier, seq<Identifier>>, ghost edges: seq<Edge>)
    requires eventSet.Keys == zero.Keys == Ids(Members(events))
    requires forall x | x in zero :: zero[x] == 0
    ensures inDegree.Keys == zero.Keys
    ensures Counted(inDegree, edges) && ClosedUnder(inDegree.Keys, edges) && ListsOuts(dependents, edges)
    ensures (set ed | ed in edges) == EdgesOf(Members(events), reverse)
  {
    inDegree, dependents, edges := zero, map[], [];
    for i := 0 to |events|
      invariant inDegree.Keys == eventSet.Keys
      invariant Counted(inDegree, edges) && ClosedUnder(inDegree.Keys, edges) && ListsOuts(dependents, edges)
      invariant (set ed | ed in edges) == EdgesFrom(Members(events[..i]), eventSet.Keys, reverse)
    {
      MoreEdges(events, i, eventSet.Keys, reverse);
      inDegree, dependents, edges := LinkEvent(events[i], eventSet, inDegree, dependents, edges, reverse);
    }
    assert events[..|events|] == events;
  }

  /** The inner loop over one event's dependencies. */
  method LinkEvent(e: Event, eventSet: map<Identifier, Event>, inDegree0: map<Identifier, int>,
                   dependents0: map<Identifier, seq<Identifier>>, ghost edges0: seq<Edge>, reverse: bool)
    returns (inDegree: map<Identifier, int>, dependents: map<Identifier, seq<Identifier>>, ghost edges: seq<Edge>)
    requires e.resource.id in eventSet && inDegree0.Keys == eventSet.Keys
    requires Counted(inDegree0, edges0) && ClosedUnder(inDegree0.Keys, edges0) && ListsOuts(dependents0, edges0)
    ensures inDegree.Keys == inDegree0.Keys
    ensures Counted(inDegree, edges) && ClosedUnder(inDegree.Keys, edges) && ListsOuts(dependents, edges)
    ensures (set ed | ed in edges) == (set ed | ed in edges0) + EdgesFrom({e}, eventSet.Keys, reverse)
  {
    var id, deps := e.resource.id, e.resource.deps;
    inDegree, dependents, edges := inDegree0, dependents0, edges0;
    for j := 0 to |deps|
      invariant inDegree.Keys == eventSet.Keys
      invariant Counted(inDegree, edges) && ClosedUnder(inDegree.Keys, edges) && ListsOuts(dependents, edges)
      invariant (set ed | ed in edges)
             == (set ed | ed in edges0) + (set d | d in deps[..j] && d in eventSet :: Link(id, d, reverse))
    {
      var dep := deps[j];
      assert deps[..j + 1] == deps[..j] + [dep];
      if dep in eventSet {
        inDegree, dependents, edges := LinkOne(id, dep, inDegree, dependents, edges, reverse);
      }
    }
    assert deps[..|deps|] == deps;
  }

  /** One dependency that is in the set: the in-degree of the later event and the list of the earlier one grow. */
  method LinkOne(id: Identifier, dep: Identifier, inDegree0: map<Identifier, int>,
                 dependents0: map<Identifier, seq<Identifier>>, ghost edges0: seq<Edge>, reverse: bool)
    returns (inDegree: map<Identifier, int>, dependents: map<Identifier, seq<Identifier>>, ghost edges: seq<Edge>)
    requires Counted(inDegree0, edges0) && ClosedUnder(inDegree0.Keys, edges0) && ListsOuts(dependents0, edges0)
    requires id in inDegree0 && dep in inDegree0
    ensures inDegree.Keys == inDegree0.Keys
    ensures Counted(inDegree, edges) && ClosedUnder(inDegree.Keys, edges) && ListsOuts(dependents, edges)
    ensures (set ed | ed in edges) == (set ed | ed in edges0) + {Link(id, dep, reverse)}
  {
    CountStep(inDegree0, edges0, Link(id, dep, reverse));
    ListStep(dependents0, edges0, Link(id, dep, reverse));
    if reverse {
      inDegree := Bump(inDegree0, dep, 1);
      dependents := dependents0[id := Lookup(dependents0, id) + [dep]];
    } else {
      inDegree := Bump(inDegree0, id, 1);
      dependents := dependents0[dep := Lookup(dependents0, dep) + [id]];
    }
    edges := edges0 + [Link(id, dep, reverse)];
  }

  lemma CountStep(inDegree: map<Identifier, int>, edges: seq<Edge>, e: Edge)
    requires Counted(inDegree, edges) && ClosedUnder(inDegree.Keys, edges)
    requires e.before in inDegree && e.after in inDegree
    ensures Bump(inDegree, e.after, 1).Keys == inDegree.Keys
    ensures Counted(Bump(inDegree, e.after, 1), edges + [e])
    ensures ClosedUnder(inDegree.Keys, edges + [e])
  {
    var bumped := Bump(inDegree, e.after, 1);
    assert bumped.Keys == inDegree.Keys;
    forall x | x in bumped ensures bumped[x] == InCount(edges + [e], bumped.Keys, x) {
      AddEdge(edges, e, inDegree.Keys, x);
    }
  }

  lemma ListStep(dependents: map<Identifier, seq<Identifier>>, edges: seq<Edge>, e: Edge)
    requires ListsOuts(dependents, edges)
    ensures ListsOuts(dependents[e.before := Lookup(dependents, e.before) + [e.after]], edges + [e])
    ensures (set ed | ed in edges + [e]) == (set ed | ed in edges) + {e}
  {
    var listed := dependents[e.before := Lookup(dependents, e.before) + [e.after]];
    forall a ensures Lookup(listed, a) == Outs(edges + [e], a) {
      AddEdge(edges, e, {}, a);
      assert Lookup(dependents, a) == Outs(edges, a);
    }
  }

  /** Identifiers whose in-degree is zero, in map iteration order. */
  method CollectReady(inDegree: map<Identifier, int>) returns (ready: seq<Identifier>)
    ensures forall x :: x in ready <==> x in inDegree && inDegree[x] == 0
    ensures forall i, j :: 0 <= i < j < |ready| ==> ready[i] != ready[j]
  {
    ready := [];
    var todo := inDegree.Keys;
    while todo != {}
      invariant todo <= inDegree.Keys
      invariant forall x :: x in ready <==> x in inDegree && x !in todo && inDegree[x] == 0
      invariant forall i, j :: 0 <= i < j < |ready| ==> ready[i] != ready[j]
      decreases todo
    {
      var id :| id in todo;
      todo := todo - {id};
      if inDegree[id] == 0 { ready := ready + [id]; }
    }
  }

  /** The cycle fallback: everything that remains, in map iteration order. */
  method EmitAll(ids: set<Identifier>, eventSet: map<Identifier, Event>) returns (phase: seq<Event>)
    requires ids <= eventSet.Keys && forall x | x in eventSet :: eventSet[x].resource.id == x
    ensures Picks(phase, ids, eventSet)
  {
    phase := [];
    var todo := ids;
    while todo != {}
      invariant todo <= ids
      invariant Picks(phase, ids - todo, eventSet)
      decreases todo
    {
      var id :| id in todo;
      todo := todo - {id};
      AppendMember(phase, eventSet[id]);
      phase := phase + [eventSet[id]];
    }
  }

  /** One regular round: emit the ready events, delete their keys, decrement their dependents. */
  method Peel(ready: seq<Identifier>, eventSet: map<Identifier, Event>, before: map<Identifier, int>,
              dependents: map<Identifier, seq<Identifier>>, ghost edges: seq<Edge>)
    returns (phase: seq<Event>, inDegree: map<Identifier, int>)
    requires before.Keys <= eventSet.Keys && forall x | x in eventSet :: eventSet[x].resource.id == x
    requires Counted(before, edges) && ClosedUnder(before.Keys, edges) && ListsOuts(dependents, edges)
    requires forall i | 0 <= i < |ready| :: ready[i] in before && before[ready[i]] == 0
    requires forall i, j :: 0 <= i < j < |ready| ==> ready[i] != ready[j]
    ensures Picks(phase, Elements(ready), eventSet)
    ensures inDegree.Keys == before.Keys - Elements(ready)
    ensures Counted(inDegree, edges) && ClosedUnder(inDegree.Keys, edges)
  {
    phase, inDegree := [], before;
    for i := 0 to |ready|
      invariant Picks(phase, Elements(ready[..i]), eventSet)
      invariant inDegree.Keys == before.Keys - Elements(ready[..i])
      invariant Counted(inDegree, edges) && ClosedUnder(inDegree.Keys, edges)
      invariant forall k | i <= k < |ready| :: ready[k] in inDegree && inDegree[ready[k]] == 0
    {
      var id := ready[i];
      assert ready[..i + 1] == ready[..i] + [id];
      assert id !in ready[..i];
      AppendMember(phase, eventSet[id]);
      phase := phase + [eventSet[id]];
      StayReady(inDegree, edges, id);
      inDegree := DeleteKey(id, inDegree, Lookup(dependents, id), edges);
    }
    assert ready[..|ready|] == ready;
  }

  /** delete(inDegree, id), then one decrement per dependent; no decrement meets a missing key. */
  method DeleteKey(id: Identifier, before: map<Identifier, int>, outs: seq<Identifier>, ghost edges: seq<Edge>)
    returns (inDegree: map<Identifier, int>)
    requires Counted(before, edges) && ClosedUnder(before.Keys, edges)
    requires id in before && before[id] == 0 && outs == Outs(edges, id)
    ensures inDegree.Keys == before.Keys - {id}
    ensures Counted(inDegree, edges) && ClosedUnder(inDegree.Keys, edges)
  {
    OutsRemain(id, before, edges);
    inDegree := Decrement(before - {id}, outs);
    StillCounted(id, before, inDegree, edges);
  }

  /** A ready event's dependents are all still there, and it is not one of them. */
  lemma OutsRemain(id: Identifier, before: map<Identifier, int>, edges: seq<Edge>)
    requires Counted(before, edges) && ClosedUnder(before.Keys, edges) && id in before && before[id] == 0
    ensures forall x | x in Outs(edges, id) :: x in before - {id}
    ensures ClosedUnder(before.Keys - {id}, edges)
  {
    InCountZero(edges, before.Keys, id);
    forall x | x in Outs(edges, id) ensures x in before - {id} {
      OutsAreEdges(edges, id, x);
    }
  }

  method Decrement(before: map<Identifier, int>, outs: seq<Identifier>) returns (inDegree: map<Identifier, int>)
    requires forall x | x in outs :: x in before
    ensures inDegree.Keys == before.Keys
    ensures forall x | x in inDegree :: inDegree[x] == before[x] - multiset(outs)[x]
  {
    inDegree := before;
    for j := 0 to |outs|
      invariant inDegree.Keys == before.Keys
      invariant forall x | x in inDegree :: inDegree[x] == before[x] - multiset(outs[..j])[x]
    {
      assert outs[..j + 1] == outs[..j] + [outs[j]];
      inDegree := Bump(inDegree, outs[j], -1);
    }
    assert outs[..|outs|] == outs;
  }

  lemma StillCounted(id: Identifier, before: map<Identifier, int>, after: map<Identifier, int>, edges: seq<Edge>)
    requires Counted(before, edges) && id in before && after.Keys == before.Keys - {id}
    requires forall x | x in after :: after[x] == before[x] - multiset(Outs(edges, id))[x]
    ensures Counted(after, edges)
  {
    forall x | x in after ensures after[x] == InCount(edges, after.Keys, x) {
      InCountWithout(edges, before.Keys, id, x);
    }
  }

  /** A zero in-degree stays zero while other keys are deleted. */
  lemma StayReady(inDegree: map<Identifier, int>, edges: seq<Edge>, id: Identifier)
    requires Counted(inDegree, edges)
    ensures forall x | x in inDegree && inDegree[x] == 0 :: InCount(edges, inDegree.Keys - {id}, x) == 0
  {
    forall x | x in inDegree && inDegree[x] == 0
      ensures InCount(edges, inDegree.Keys - {id}, x) == 0
    {
      InCountZero(edges, inDegree.Keys, x);
      InCountZero(edges, inDegree.Keys - {id}, x);
    }
  }

  // ---------------------------------------------------------------------------------------
  // Small facts about prefixes
  // ---------------------------------------------------------------------------------------

  lemma PrefixMembers(events: seq<Event>, i: nat)
    requires i < |events|
    ensures Members(events[..i + 1]) == Members(events[..i]) + {events[i]}
    ensures Ids(Members(events[..i + 1])) == Ids(Members(events[..i])) + {events[i].resource.id}
  {
    assert events[..i + 1] == events[..i] + [events[i]];
    assert Members(events[..i + 1]) == Members(events[..i]) + {events[i]};
  }

  lemma AppendMember(phase: seq<Event>, e: Event)
    ensures Ids(Members(phase + [e])) == Ids(Members(phase)) + {e.resource.id}
  {
    assert Members(phase + [e]) == Members(phase) + {e};
  }

  lemma PhaseIdsAppend(phases: seq<seq<Event>>, phase: seq<Event>)
    ensures PhaseIds(phases + [phase]) == PhaseIds(phases) + [Ids(Members(phase))]
  {
  }

  lemma MoreEdges(events: seq<Event>, i: nat, ids: set<Identifier>, reverse: bool)
    requires i < |events|
    ensures EdgesFrom(Members(events[..i + 1]), ids, reverse)
         == EdgesFrom(Members(events[..i]), ids, reverse) + EdgesFrom({events[i]}, ids, reverse)
    ensures events[i].resource.id in Ids(Members(events))
  {
    PrefixMembers(events, i);
    assert events[i] in Members(events);
  }

  lemma IsLastExtends(events: seq<Event>, i: nat, kept: map<Identifier, Event>)
    requires i < |events| && KeepsLast(events[..i], kept)
    ensures KeepsLast(events[..i + 1], kept[events[i].resource.id := events[i]])
  {
    PrefixMembers(events, i);
    assert events[..i + 1][i] == events[i];
    assert IsLast(events[..i + 1], events[i]);
    forall x | x in kept && x != events[i].resource.id
      ensures IsLast(events[..i + 1], kept[x])
    {
      StillLast(events, i, kept[x]);
    }
  }

  lemma StillLast(events: seq<Event>, i: nat, e: Event)
    requires i < |events| && IsLast(events[..i], e) && e.resource.id != events[i].resource.id
    ensures IsLast(events[..i + 1], e)
  {
    var shorter, longer := events[..i], events[..i + 1];
    var j :| 0 <= j < i && shorter[j] == e && forall k :: j < k < i ==> shorter[k].resource.id != e.resource.id;
    assert longer[j] == e;
    forall k | j < k < i + 1 ensures longer[k].resource.id != e.resource.id {
      if k < i { assert longer[k] == shorter[k]; }
    }
  }

  /** Zero in-degree is having no predecessor among the remaining vertices. */
  lemma ReadyIffZero(edges: seq<Edge>, edgeSet: set<Edge>, inDegree: map<Identifier, int>, ready: seq<Identifier>)
    requires Counted(inDegree, edges) && edgeSet == set ed | ed in edges
    requires forall x :: x in ready <==> x in inDegree && inDegree[x] == 0
    ensures Ready(inDegree.Keys, edgeSet) == Elements(ready)
    ensures |ready| > 0 ==> ready[0] in Ready(inDegree.Keys, edgeSet)
    ensures |ready| == 0 ==> Ready(inDegree.Keys, edgeSet) == {}
  {
    forall x | x in inDegree
      ensures inDegree[x] == 0 <==> !Blocked(x, inDegree.Keys, edgeSet)
    {
      InCountZero(edges, inDegree.Keys, x);
      if inDegree[x] != 0 {
        var e :| e in edges && e.after == x && e.before in inDegree.Keys;
        assert Edge(e.before, x) in edgeSet;
      }
    }
  }
}
