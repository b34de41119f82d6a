/**
 Plan (internal/resource/plan.go:9-59): diff the actual against the desired resources and
 phase the resulting events.

 PlanOf is the value-level plan: phases as sets of tasks, computed from three identifier sets
 and the dependency map.  It does not depend on map iteration order; the method is proved to
 produce it.
 */
module Planning {
  import opened Resources
  import opened Layering
  import opened Sorting

  // ---------------------------------------------------------------------------------------
  // Which identifiers get which events
  // ---------------------------------------------------------------------------------------

  predicate Recreates(s: Status) {
    s.exists_ && s.needsRecreate
  }

  predicate Updates(s: Status) {
    s.exists_ && !s.needsRecreate && s.needsUpdate
  }

  ghost function Statuses(m: map<Identifier, Resource>): map<Identifier, Status>
    reads set k | k in m :: m[k]
  {
    map k | k in m :: m[k].status
  }

  ghost function Recreated(actual: set<Identifier>, st: map<Identifier, Status>): set<Identifier> {
    set k | k in st && k in actual && Recreates(st[k])
  }

  ghost function Deleted(actual: set<Identifier>, st: map<Identifier, Status>): set<Identifier> {
    (actual - st.Keys) + Recreated(actual, st)
  }

  ghost function Updated(actual: set<Identifier>, st: map<Identifier, Status>): set<Identifier> {
    set k | k in st && k in actual && Updates(st[k])
  }

  ghost function Created(actual: set<Identifier>, st: map<Identifier, Status>): set<Identifier> {
    (st.Keys - actual) + Recreated(actual, st)
  }

  // ---------------------------------------------------------------------------------------
  // The plan as a value
  // ---------------------------------------------------------------------------------------

  type Deps = map<Identifier, seq<Identifier>>

  ghost function LinksOn(ids: set<Identifier>, deps: Deps, reverse: bool): set<Edge> {
    set x, d | x in ids && x in deps && d in deps[x] && d in ids :: Link(x, d, reverse)
  }

  ghost function Tag(action: Action, layers: seq<set<Identifier>>): seq<set<Task>> {
    seq(|layers|, k requires 0 <= k < |layers| => set x | x in layers[k] :: Task(action, x))
  }

  ghost function SortedOn(action: Action, ids: set<Identifier>, deps: Deps): seq<set<Task>> {
    Tag(action, Layers(ids, LinksOn(ids, deps, action == Delete)))
  }

  ghost function PlanOf(deps: Deps, deletes: set<Identifier>, updates: set<Identifier>, creates: set<Identifier>)
    : seq<set<Task>>
  {
    SortedOn(Delete, deletes, deps) + SortedOn(Update, updates, deps) + SortedOn(Create, creates, deps)
  }

  /** t is planned for phase k. */
  ghost predicate Planned(plan: seq<set<Task>>, k: int, t: Task) {
    0 <= k < |plan| && t in plan[k]
  }

  /** No task is planned twice. */
  ghost predicate OncePerTask(plan: seq<set<Task>>) {
    forall t, j, k :: Planned(plan, j, t) && Planned(plan, k, t) ==> j == k
  }

  // ---------------------------------------------------------------------------------------
  // Plan
  // ---------------------------------------------------------------------------------------

  ghost function TaskPhases(phases: seq<seq<Event>>): seq<set<Task>> {
    seq(|phases|, k requires 0 <= k < |phases| => Tasks(Members(phases[k])))
  }

  ghost function DeleteEvents(actual: map<Identifier, Resource>, desired: map<Identifier, Resource>,
                              st: map<Identifier, Status>): set<Event>
    requires st.Keys == desired.Keys
  {
    (set k | k in actual && k !in desired :: Event(Delete, actual[k]))
    + (set k | k in Recreated(actual.Keys, st) :: Event(Delete, desired[k]))
  }

  ghost function UpdateEvents(actual: map<Identifier, Resource>, desired: map<Identifier, Resource>,
                              st: map<Identifier, Status>): set<Event>
    requires st.Keys == desired.Keys
  {
    set k | k in Updated(actual.Keys, st) :: Event(Update, desired[k])
  }

  ghost function CreateEvents(actual: map<Identifier, Resource>, desired: map<Identifier, Resource>,
                              st: map<Identifier, Status>): set<Event>
    requires st.Keys == desired.Keys
  {
    set k | k in Created(actual.Keys, st) :: Event(Create, desired[k])
  }

  ghost function Sorted(action: Action, events: set<Event>): seq<set<Task>> {
    Tag(action, Layers(Ids(events), EdgesOf(events, action == Delete)))
  }

  /** One event per identifier in every phase, so sets of tasks lose nothing. */
  ghost predicate NoDuplicates(phases: seq<seq<Event>>) {
    forall k | 0 <= k < |phases| :: DistinctIds(phases[k])
  }

  /** Planned events act on the objects they were collected for. */
  ghost predicate DrawnFrom(phases: seq<seq<Event>>, events: set<Event>) {
    forall k | 0 <= k < |phases| :: Members(phases[k]) <= events
  }

  /**
   The event sets are stated for any maps, also when a key is not the identifier of its
   object (orphan nodes); Specialize below gives the plan when keys and identifiers agree.
   */
  method Plan(actual: map<Identifier, Resource>, desired: map<Identifier, Resource>)
    returns (phases: seq<seq<Event>>)
    ensures var st := Statuses(desired);
            TaskPhases(phases) == Sorted(Delete, DeleteEvents(actual, desired, st))
                                  + Sorted(Update, UpdateEvents(actual, desired, st))
                                  + Sorted(Create, CreateEvents(actual, desired, st))
    ensures NoDuplicates(phases)
    ensures var st := Statuses(desired);
            DrawnFrom(phases, DeleteEvents(actual, desired, st) + UpdateEvents(actual, desired, st)
                              + CreateEvents(actual, desired, st))
  {
    ghost var st := Statuses(desired);
    var orphans := CollectOrphans(actual, desired);
    var recreated, updates, creates := CollectDesired(actual, desired, st);
    var deletes := orphans + recreated;
    JoinMembers(orphans, recreated);
    ghost var d, u := DeleteEvents(actual, desired, st), UpdateEvents(actual, desired, st);
    ghost var c := CreateEvents(actual, desired, st);
    phases := AppendAll(deletes, updates, creates, d, u, c);
  }

  /** The three guarded appends at the end of Plan. */
  method AppendAll(deletes: seq<Event>, updates: seq<Event>, creates: seq<Event>,
                   ghost d: set<Event>, ghost u: set<Event>, ghost c: set<Event>)
    returns (phases: seq<seq<Event>>)
    requires d == Members(deletes) && u == Members(updates) && c == Members(creates)
    requires && (forall e | e in d :: e.action == Delete)
             && (forall e | e in u :: e.action == Update)
             && (forall e | e in c :: e.action == Create)
    ensures TaskPhases(phases) == Sorted(Delete, d) + Sorted(Update, u) + Sorted(Create, c)
    ensures NoDuplicates(phases) && DrawnFrom(phases, d + u + c)
  {
    phases := AppendSorted([], Delete, deletes, {});
    phases := AppendSorted(phases, Update, updates, d);
    phases := AppendSorted(phases, Create, creates, d + u);
  }

  /** `if len(events) > 0 { phases = append(phases, topoSort(events, reverse)...) }` */
  method AppendSorted(before: seq<seq<Event>>, action: Action, events: seq<Event>, ghost drawn: set<Event>)
    returns (phases: seq<seq<Event>>)
    requires forall e | e in Members(events) :: e.action == action
    requires NoDuplicates(before) && DrawnFrom(before, drawn)
    ensures TaskPhases(phases) == TaskPhases(before) + Sorted(action, Members(events))
    ensures NoDuplicates(phases) && DrawnFrom(phases, drawn + Members(events))
  {
    phases := before;
    if |events| > 0 {
      var more := TopoSort(events, action == Delete);
      TagPhases(action, events, more);
      GoodIsDrawn(events, more);
      phases := before + more;
    } else {
      NothingToSort(action, events);
    }
  }

  lemma JoinMembers(a: seq<Event>, b: seq<Event>)
    ensures Members(a + b) == Members(a) + Members(b)
  {
  }

  method CollectOrphans(actual: map<Identifier, Resource>, desired: map<Identifier, Resource>)
    returns (deletes: seq<Event>)
    ensures Members(deletes) == set k | k in actual && k !in desired :: Event(Delete, actual[k])
  {
    deletes := [];
    var todo := actual.Keys;
    while todo != {}
      invariant todo <= actual.Keys
      invariant Members(deletes) == set k | k in actual && k !in todo && k !in desired :: Event(Delete, actual[k])
      decreases todo
    {
      var id :| id in todo;
      if id !in desired {
        assert Members(deletes + [Event(Delete, actual[id])]) == Members(deletes) + {Event(Delete, actual[id])};
        deletes := deletes + [Event(Delete, actual[id])];
      }
      todo := todo - {id};
    }
  }

  method CollectDesired(actual: map<Identifier, Resource>, desired: map<Identifier, Resource>,
                        ghost st: map<Identifier, Status>)
    returns (deletes: seq<Event>, updates: seq<Event>, creates: seq<Event>)
    requires st == Statuses(desired)
    ensures Members(deletes) == set k | k in Recreated(actual.Keys, st) :: Event(Delete, desired[k])
    ensures Members(updates) == UpdateEvents(actual, desired, st)
    ensures Members(creates) == CreateEvents(actual, desired, st)
  {
    deletes, updates, creates := [], [], [];
    var todo := desired.Keys;
    while todo != {}
      invariant todo <= desired.Keys
      invariant Members(deletes) == set k | k in Recreated(actual.Keys, st) - todo :: Event(Delete, desired[k])
      invariant Members(updates) == set k | k in Updated(actual.Keys, st) - todo :: Event(Update, desired[k])
      invariant Members(creates) == set k | k in Created(actual.Keys, st) - todo :: Event(Create, desired[k])
      decreases todo
    {
      var id :| id in todo;
      var r := desired[id];
      AddMember(deletes, Event(Delete, r));
      AddMember(updates, Event(Update, r));
      AddMember(creates, Event(Create, r));
      if id in actual {
        var s := r.status;
        if s.exists_ && s.needsRecreate {
          deletes := deletes + [Event(Delete, r)];
          creates := creates + [Event(Create, r)];
        } else if s.exists_ && s.needsUpdate {
          updates := updates + [Event(Update, r)];
        }
      } else {
        creates := creates + [Event(Create, r)];
      }
      todo := todo - {id};
    }
  }

  lemma TagPhases(action: Action, events: seq<Event>, phases: seq<seq<Event>>)
    requires forall e | e in Members(events) :: e.action == action
    requires forall k | 0 <= k < |phases| :: GoodPhase(events, phases[k])
    ensures TaskPhases(phases) == Tag(action, PhaseIds(phases))
  {
    forall k | 0 <= k < |phases|
      ensures Tasks(Members(phases[k])) == set x | x in Ids(Members(phases[k])) :: Task(action, x)
    {
      forall e | e in phases[k] ensures TaskOf(e) == Task(action, e.resource.id) {
        assert IsLast(events, e);
        assert e in Members(events);
      }
    }
  }

  lemma GoodIsDrawn(events: seq<Event>, phases: seq<seq<Event>>)
    requires forall k | 0 <= k < |phases| :: GoodPhase(events, phases[k])
    ensures DrawnFrom(phases, Members(events))
  {
    forall k | 0 <= k < |phases| ensures Members(phases[k]) <= Members(events) {
      forall e | e in phases[k] ensures e in Members(events) {
        assert IsLast(events, e);
      }
    }
  }

  lemma NothingToSort(action: Action, events: seq<Event>)
    requires events == []
    ensures Sorted(action, Members(events)) == []
  {
    assert Ids(Members(events)) == {};
  }

  lemma AddMember(events: seq<Event>, e: Event)
    ensures Members(events + [e]) == Members(events) + {e}
  {
  }

  // ---------------------------------------------------------------------------------------
  // From maps of objects to identifier sets
  // ---------------------------------------------------------------------------------------

  /** The objects' dependencies agree with the given map. */
  ghost predicate DepsAgree(m: map<Identifier, Resource>, deps: Deps) {
    forall k | k in m :: k in deps && m[k].deps == deps[k]
  }

  lemma SortedSpecialize(action: Action, events: set<Event>, ids: set<Identifier>, deps: Deps)
    requires Ids(events) == ids
    requires forall e | e in events :: e.resource.id in deps && e.resource.deps == deps[e.resource.id]
    ensures Sorted(action, events) == SortedOn(action, ids, deps)
  {
    var reverse := action == Delete;
    forall ed | ed in LinksOn(ids, deps, reverse)
      ensures ed in EdgesOf(events, reverse)
    {
      var x, d :| x in ids && x in deps && d in deps[x] && d in ids && ed == Link(x, d, reverse);
      var e :| e in events && e.resource.id == x;
      assert e.resource.deps == deps[x];
    }
    assert EdgesOf(events, reverse) == LinksOn(ids, deps, reverse);
  }

  /** When keys are identifiers, the event sets are the identifier sets. */
  lemma Specialize(actual: map<Identifier, Resource>, desired: map<Identifier, Resource>, st: map<Identifier, Status>,
                   deps: Deps)
    requires KeysAreIds(actual) && KeysAreIds(desired) && st.Keys == desired.Keys
    requires DepsAgree(actual, deps) && DepsAgree(desired, deps)
    ensures Sorted(Delete, DeleteEvents(actual, desired, st))
            + Sorted(Update, UpdateEvents(actual, desired, st))
            + Sorted(Create, CreateEvents(actual, desired, st))
         == PlanOf(deps, Deleted(actual.Keys, st), Updated(actual.Keys, st), Created(actual.Keys, st))
  {
    DeletesSpecialize(actual, desired, st, deps);
    StoredSpecialize(Update, desired, Updated(actual.Keys, st), deps);
    StoredSpecialize(Create, desired, Created(actual.Keys, st), deps);
  }

  lemma DeletesSpecialize(actual: map<Identifier, Resource>, desired: map<Identifier, Resource>,
                          st: map<Identifier, Status>, deps: Deps)
    requires KeysAreIds(actual) && KeysAreIds(desired) && st.Keys == desired.Keys
    requires DepsAgree(actual, deps) && DepsAgree(desired, deps)
    ensures Sorted(Delete, DeleteEvents(actual, desired, st)) == SortedOn(Delete, Deleted(actual.Keys, st), deps)
  {
    var events, ids := DeleteEvents(actual, desired, st), Deleted(actual.Keys, st);
    forall x | x in ids ensures x in Ids(events) {
      var e := Event(Delete, if x in desired then desired[x] else actual[x]);
      assert e in events && e.resource.id == x;
    }
    assert Ids(events) == ids;
    SortedSpecialize(Delete, events, ids, deps);
  }

  lemma StoredSpecialize(action: Action, m: map<Identifier, Resource>, ids: set<Identifier>, deps: Deps)
    requires KeysAreIds(m) && DepsAgree(m, deps) && ids <= m.Keys
    ensures Sorted(action, set k | k in ids :: Event(action, m[k])) == SortedOn(action, ids, deps)
  {
    var events := set k | k in ids :: Event(action, m[k]);
    forall x | x in ids ensures x in Ids(events) {
      assert Event(action, m[x]) in events && m[x].id == x;
    }
    assert Ids(events) == ids;
    SortedSpecialize(action, events, ids, deps);
  }

  // ---------------------------------------------------------------------------------------
  // The plan partitions the work and orders it
  // ---------------------------------------------------------------------------------------

  lemma TagPlanned(action: Action, layers: seq<set<Identifier>>, k: int, t: Task)
    ensures Planned(Tag(action, layers), k, t) <==> t.action == action && InLayer(t.id, k, layers)
  {
  }

  /** Where in the whole plan a task of a given action sits. */
  ghost function Offset(action: Action, deps: Deps, deletes: set<Identifier>, updates: set<Identifier>): nat {
    match action
    case Delete => 0
    case Update => |SortedOn(Delete, deletes, deps)|
    case Create => |SortedOn(Delete, deletes, deps)| + |SortedOn(Update, updates, deps)|
  }

  ghost function TargetsOf(action: Action, deletes: set<Identifier>, updates: set<Identifier>, creates: set<Identifier>)
    : set<Identifier>
  {
    match action case Delete => deletes case Update => updates case Create => creates
  }

  ghost function LayersFor(action: Action, deps: Deps, deletes: set<Identifier>, updates: set<Identifier>,
                           creates: set<Identifier>): seq<set<Identifier>>
  {
    var ids := TargetsOf(action, deletes, updates, creates);
    Layers(ids, LinksOn(ids, deps, action == Delete))
  }

  lemma PlannedWhere(deps: Deps, deletes: set<Identifier>, updates: set<Identifier>, creates: set<Identifier>,
                     k: int, t: Task)
    ensures Planned(PlanOf(deps, deletes, updates, creates), k, t) <==>
            InLayer(t.id, k - Offset(t.action, deps, deletes, updates),
                    LayersFor(t.action, deps, deletes, updates, creates))
  {
    var a, b, c := SortedOn(Delete, deletes, deps), SortedOn(Update, updates, deps), SortedOn(Create, creates, deps);
    TagPlanned(Delete, LayersFor(Delete, deps, deletes, updates, creates), k, t);
    TagPlanned(Update, LayersFor(Update, deps, deletes, updates, creates), k - |a|, t);
    TagPlanned(Create, LayersFor(Create, deps, deletes, updates, creates), k - |a| - |b|, t);
    assert 0 <= k < |a| ==> (a + b + c)[k] == a[k];
    assert |a| <= k < |a| + |b| ==> (a + b + c)[k] == b[k - |a|];
    assert |a| + |b| <= k < |a| + |b| + |c| ==> (a + b + c)[k] == c[k - |a| - |b|];
  }

  /**
   The plan is an exact partition: each identifier gets the delete, update and create its
   (desired, actual, status) case calls for, each in one phase only; deletes come before
   updates and updates before creates, so a recreated resource is deleted first.
   */
  lemma PlanPartition(deps: Deps, actual: set<Identifier>, st: map<Identifier, Status>, id: Identifier)
    ensures var plan := PlanOf(deps, Deleted(actual, st), Updated(actual, st), Created(actual, st));
            && OncePerTask(plan)
            && ((exists k :: Planned(plan, k, Task(Delete, id))) <==>
                id in actual && (id !in st || (st[id].exists_ && st[id].needsRecreate)))
            && ((exists k :: Planned(plan, k, Task(Update, id))) <==>
                id in actual && id in st && st[id].exists_ && st[id].needsUpdate && !st[id].needsRecreate)
            && ((exists k :: Planned(plan, k, Task(Create, id))) <==>
                id in st && (id !in actual || (st[id].exists_ && st[id].needsRecreate)))
            && (forall j, k, x, y :: Planned(plan, j, Task(Delete, x)) && Planned(plan, k, Task(Update, y)) ==> j < k)
            && (forall j, k, x, y :: Planned(plan, j, Task(Update, x)) && Planned(plan, k, Task(Create, y)) ==> j < k)
            && (forall j, k, x, y :: Planned(plan, j, Task(Delete, x)) && Planned(plan, k, Task(Create, y)) ==> j < k)
  {
    var d, u, c := Deleted(actual, st), Updated(actual, st), Created(actual, st);
    PlanIsPartition(deps, d, u, c);
    var plan := PlanOf(deps, d, u, c);
    PlannedIff(deps, d, u, c, Task(Delete, id));
    PlannedIff(deps, d, u, c, Task(Update, id));
    PlannedIff(deps, d, u, c, Task(Create, id));
    assert id in d <==> id in actual && (id !in st || Recreates(st[id]));
    assert id in c <==> id in st && (id !in actual || Recreates(st[id]));
  }

  lemma PlannedIff(deps: Deps, d: set<Identifier>, u: set<Identifier>, c: set<Identifier>, t: Task)
    ensures (exists k :: Planned(PlanOf(deps, d, u, c), k, t)) <==> t.id in TargetsOf(t.action, d, u, c)
  {
    PlanIsPartition(deps, d, u, c);
  }

  lemma PlanIsPartition(deps: Deps, d: set<Identifier>, u: set<Identifier>, c: set<Identifier>)
    ensures var plan := PlanOf(deps, d, u, c);
            && OncePerTask(plan)
            && (forall t :: (exists k :: Planned(plan, k, t)) <==> t.id in TargetsOf(t.action, d, u, c))
            && (forall j, k, x, y :: Planned(plan, j, Task(Delete, x)) && Planned(plan, k, Task(Update, y)) ==> j < k)
            && (forall j, k, x, y :: Planned(plan, j, Task(Update, x)) && Planned(plan, k, Task(Create, y)) ==> j < k)
            && (forall j, k, x, y :: Planned(plan, j, Task(Delete, x)) && Planned(plan, k, Task(Create, y)) ==> j < k)
  {
    var plan := PlanOf(deps, d, u, c);
    forall k, t ensures Planned(plan, k, t) <==>
                        InLayer(t.id, k - Offset(t.action, deps, d, u), LayersFor(t.action, deps, d, u, c)) {
      PlannedWhere(deps, d, u, c, k, t);
    }
    forall t ensures (exists k :: Planned(plan, k, t)) <==> t.id in TargetsOf(t.action, d, u, c) {
      var ids := TargetsOf(t.action, d, u, c);
      LayersPartition(ids, LinksOn(ids, deps, t.action == Delete));
      if t.id in ids {
        var k :| InLayer(t.id, k, LayersFor(t.action, deps, d, u, c));
        assert Planned(plan, k + Offset(t.action, deps, d, u), t);
      }
    }
    forall t, j, k | Planned(plan, j, t) && Planned(plan, k, t) ensures j == k {
      var ids := TargetsOf(t.action, d, u, c);
      LayersPartition(ids, LinksOn(ids, deps, t.action == Delete));
      assert InLayer(t.id, j - Offset(t.action, deps, d, u), LayersFor(t.action, deps, d, u, c));
    }
  }

  /** Off every cycle, a task comes after each in-set task it must wait for. */
  lemma PlanOrder(deps: Deps, d: set<Identifier>, u: set<Identifier>, c: set<Identifier>, action: Action,
                  first: Identifier, second: Identifier) returns (j: int, k: int)
    requires var ids := TargetsOf(action, d, u, c);
             && first in ids && second in ids
             && Edge(first, second) in LinksOn(ids, deps, action == Delete)
             && !AfterCycle(second, ids, LinksOn(ids, deps, action == Delete))
    ensures j < k
    ensures Planned(PlanOf(deps, d, u, c), j, Task(action, first))
    ensures Planned(PlanOf(deps, d, u, c), k, Task(action, second))
  {
    var ids := TargetsOf(action, d, u, c);
    j, k := EdgeOrder(ids, LinksOn(ids, deps, action == Delete), first, second);
    var o := Offset(action, deps, d, u);
    j, k := j + o, k + o;
    PlannedWhere(deps, d, u, c, j, Task(action, first));
    PlannedWhere(deps, d, u, c, k, Task(action, second));
  }
}
