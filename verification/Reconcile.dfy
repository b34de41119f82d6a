/**
 Execute (internal/resource/executor.go) and Reconcile (internal/resource/reconciler.go) over
 the catalogs of a cluster, with the Create, Update and Delete bodies that change a catalog.

 Within a phase the scheduler picks, at every step, an arbitrary task to begin or an arbitrary
 running task to finish.  The ghost run it leaves behind is a run of the transition system of
 module Convergence, so everything proved about all runs holds of this loop.
 */
module Reconcile {
  import opened Resources
  import opened Layering
  import opened Sorting
  import opened Planning
  import opened Executor
  import opened Desired
  import opened Refresh
  import opened Convergence

  // ---------------------------------------------------------------------------------------
  // The bodies
  // ---------------------------------------------------------------------------------------

  /** The effect of an event on the catalogs, on the database its object is connected to. */
  ghost predicate EventEffect(e: Event, c: Catalog, c': Catalog) {
    EffectAt(e.resource.conn, TaskOf(e), c, c')
  }

  /** What is there once the resource has been created on its own database. */
  ghost predicate Made(r: Resource, c: Catalog, c': Catalog) {
    match r.id
    case User(_) => r.conn in c'.users
    case Node(n) => r.conn == n ==> n in c'.nodes
    case Sub(a, b) => r.conn == b ==>
      r.id in c'.subs && c'.subs[r.id] && (r.id !in c.subs ==> Hosted(a, Slot(a, b)) in c'.slots)
    case SlotCreate(p, m) => Hosted(r.conn, Slot(p, m)) in c'.slots
    case DisabledSub(p, m) => r.conn == m ==>
      Sub(p, m) in c'.subs && c'.subs[Sub(p, m)] == (Sub(p, m) in c.subs && c.subs[Sub(p, m)])
    case _ => c' == c
  }

  class Cluster {
    var catalog: Catalog

    constructor (c: Catalog)
      ensures catalog == c
    {
      catalog := c;
    }

    /** One goroutine: the body of the event's action.  A body that fails rolls back. */
    method Apply(e: Event) returns (ok: bool)
      modifies this
      ensures ok ==> EventEffect(e, old(catalog), catalog)
      ensures ok && e.action == Action.Create ==> Made(e.resource, old(catalog), catalog)
      ensures !ok ==> catalog == old(catalog)
      ensures CatalogOk(old(catalog)) ==> CatalogOk(catalog)
    {
      var fails: bool := *;
      if fails { return false; }
      match e.action {
        case Create => Create(e.resource); ok := true;
        case Update => ok := Update(e.resource);
        case Delete => Delete(e.resource); ok := true;
      }
    }

    method Create(r: Resource)
      modifies this
      ensures EventEffect(Event(Action.Create, r), old(catalog), catalog)
      ensures Made(r, old(catalog), catalog)
      ensures CatalogOk(old(catalog)) ==> CatalogOk(catalog)
    {
      match r.id {
        case User(_) => catalog := catalog.(users := catalog.users + {r.conn});
        case Node(n) => if r.conn == n { catalog := catalog.(nodes := catalog.nodes + {n}); }
        case Sub(_, b) => if r.conn == b { CreateSubscription(r.id); }
        case SlotCreate(p, m) => catalog := catalog.(slots := catalog.slots + {Hosted(r.conn, Slot(p, m))});
        case DisabledSub(p, m) =>
          if r.conn == m && Sub(p, m) !in catalog.subs {
            catalog := catalog.(subs := catalog.subs[Sub(p, m) := false]);
          }
        case _ =>
      }
    }

    /** Subscription.Create: enable a disabled one; otherwise sub_create, with its slot, unless it exists. */
    method CreateSubscription(sub: Identifier)
      requires sub.Sub?
      modifies this
      ensures EffectAt(sub.dst, Task(Action.Create, sub), old(catalog), catalog)
      ensures sub in catalog.subs && catalog.subs[sub]
      ensures sub !in old(catalog).subs ==> ProviderSlot(sub) in catalog.slots
    {
      var existsDisabled := sub in catalog.subs && !catalog.subs[sub];
      if existsDisabled {
        catalog := catalog.(subs := catalog.subs[sub := true]);
        return;
      }
      if sub !in catalog.subs {
        catalog := catalog.(subs := catalog.subs[sub := true], slots := catalog.slots + {ProviderSlot(sub)});
      } else {
        assert catalog.subs[sub := true] == catalog.subs;
      }
    }

    /** sub_enable fails on a subscription that does not exist; other updates do nothing. */
    method Update(r: Resource) returns (ok: bool)
      modifies this
      ensures ok ==> EventEffect(Event(Action.Update, r), old(catalog), catalog)
      ensures CatalogOk(old(catalog)) ==> CatalogOk(catalog)
      ensures !ok ==> r.id.Sub? && r.id !in catalog.subs && catalog == old(catalog)
      ensures ok && r.id.Sub? && r.conn == r.id.dst ==> r.id in catalog.subs && catalog.subs[r.id]
    {
      if r.id.Sub? && r.conn == r.id.dst {
        if r.id !in catalog.subs { return false; }
        catalog := catalog.(subs := catalog.subs[r.id := true]);
      }
      ok := true;
    }

    /**
     sub_drop may take the provider's slot with it; slots and orphan nodes are dropped where the object is
     connected.
     */
    method Delete(r: Resource)
      modifies this
      ensures EventEffect(Event(Action.Delete, r), old(catalog), catalog)
      ensures r.id.Sub? && r.conn == r.id.dst ==> r.id !in catalog.subs
      ensures CatalogOk(old(catalog)) ==> CatalogOk(catalog)
    {
      match r.id {
        case Sub(_, b) =>
          if r.conn == b {
            var dropsSlot: bool := *;
            catalog := catalog.(subs := catalog.subs - {r.id});
            if dropsSlot { catalog := catalog.(slots := catalog.slots - {ProviderSlot(r.id)}); }
          }
        case Node(o) => catalog := catalog.(foreign := catalog.foreign - {Foreign(r.conn, o)});
        case Slot(_, _) => DropSlot(r);
        case RawSlot(_) => DropSlot(r);
        case _ =>
      }
    }

    /** ReplicationSlot.Delete: terminate the walsender, then drop the slot if it still exists. */
    method DropSlot(r: Resource)
      modifies this
      ensures catalog == old(catalog).(slots := old(catalog).slots - {Hosted(r.conn, r.id)})
    {
      var slotExists := Hosted(r.conn, r.id) in catalog.slots;
      if slotExists {
        catalog := catalog.(slots := catalog.slots - {Hosted(r.conn, r.id)});
      } else {
        assert catalog.slots - {Hosted(r.conn, r.id)} == catalog.slots;
      }
    }
  }

  // ---------------------------------------------------------------------------------------
  // Execute
  // ---------------------------------------------------------------------------------------

  /** The event's object is connected to the database `where` says. */
  ghost predicate ActsWhere(where: map<Identifier, Name>, e: Event) {
    e.resource.id in where && where[e.resource.id] == e.resource.conn
  }

  lemma EffectWhere(where: map<Identifier, Name>, e: Event, c: Catalog, c': Catalog)
    requires EventEffect(e, c, c') && ActsWhere(where, e)
    ensures CatalogEffect(where, TaskOf(e), c, c')
  {
  }

  ghost function Last(run: seq<Repairing>): Repairing
    requires |run| > 0
  {
    run[|run| - 1]
  }

  lemma Extend(plan: seq<set<Task>>, where: map<Identifier, Name>, start: Catalog, run: seq<Repairing>, z: Repairing,
               step: ExecStep)
    requires IsWork(plan, where, start, run) && WorkStep(plan, where, Last(run), z, step)
    ensures IsWork(plan, where, start, run + [z])
  {
    assert Works(plan, where, Last(run), z);
  }

  /** Where the goroutines of phase i stand. */
  ghost predicate PhaseState(plan: seq<set<Task>>, i: nat, before: Exec, s: Exec, events: set<Event>, todo: set<Event>,
                             running: set<Event>, failed: bool) {
    && s.phase == i < |plan| && !s.halted && s.st.Keys == before.st.Keys
    && todo + running <= events && todo !! running && Tasks(events) == plan[i]
    && (forall e, f | e in events && f in events && TaskOf(e) == TaskOf(f) :: e == f)
    && (forall e | e in events :: TaskOf(e) in s.st
          && (s.st[TaskOf(e)] == Waiting <==> e in todo) && (s.st[TaskOf(e)] == Running <==> e in running))
    && (failed <==> exists e | e in events :: s.st[TaskOf(e)] == Failed)
    && (forall t | t in s.st && t !in plan[i] :: s.st[t] == before.st[t])
  }

  lemma BeginsOne(plan: seq<set<Task>>, i: nat, before: Exec, s: Exec, events: set<Event>, todo: set<Event>,
                  running: set<Event>, failed: bool, e: Event)
    requires PhaseState(plan, i, before, s, events, todo, running, failed) && e in todo
    ensures var s' := s.(st := s.st[TaskOf(e) := Running]);
            && ExecNext(plan, s, s', Begin(TaskOf(e)))
            && PhaseState(plan, i, before, s', events, todo - {e}, running + {e}, failed)
  {
    var s' := s.(st := s.st[TaskOf(e) := Running]);
    assert TaskOf(e) in plan[i];
    assert forall f | f in events && f != e :: s'.st[TaskOf(f)] == s.st[TaskOf(f)];
  }

  lemma EndsOne(plan: seq<set<Task>>, i: nat, before: Exec, s: Exec, events: set<Event>, todo: set<Event>,
                running: set<Event>, failed: bool, e: Event, ok: bool)
    requires PhaseState(plan, i, before, s, events, todo, running, failed) && e in running
    ensures var s' := s.(st := s.st[TaskOf(e) := if ok then Ok else Failed]);
            && ExecNext(plan, s, s', if ok then Succeed(TaskOf(e)) else Fail(TaskOf(e)))
            && PhaseState(plan, i, before, s', events, todo, running - {e}, failed || !ok)
  {
    var s' := s.(st := s.st[TaskOf(e) := if ok then Ok else Failed]);
    assert TaskOf(e) in plan[i];
    assert forall f | f in events && f != e :: s'.st[TaskOf(f)] == s.st[TaskOf(f)];
  }

  /** g.Wait has returned: on to the next phase, or stop with the error. */
  lemma PhaseEnds(plan: seq<set<Task>>, i: nat, before: Exec, s: Exec, events: set<Event>, failed: bool)
    requires PhaseState(plan, i, before, s, events, {}, {}, failed)
    ensures if failed then ExecNext(plan, s, s.(halted := true), Abort)
            else ExecNext(plan, s, s.(phase := s.phase + 1), NextPhase)
  {
    forall t | t in plan[i] ensures t in s.st && s.st[t] in {Ok, Failed} && (!failed ==> s.st[t] == Ok) {
      var e :| e in events && TaskOf(e) == t;
    }
    if failed {
      var e :| e in events && s.st[TaskOf(e)] == Failed;
      assert TaskOf(e) in plan[i];
    }
  }

  /** The run so far ends in the cluster's catalog, in the middle of phase i. */
  ghost predicate InPhase(plan: seq<set<Task>>, where: map<Identifier, Name>, start: Catalog, i: nat, before: Exec,
                          run: seq<Repairing>, c: Catalog, events: set<Event>, todo: set<Event>, running: set<Event>,
                          failed: bool) {
    && IsWork(plan, where, start, run) && Last(run).catalog == c
    && PhaseState(plan, i, before, Last(run).exec, events, todo, running, failed)
  }

  lemma BeginStep(plan: seq<set<Task>>, where: map<Identifier, Name>, start: Catalog, i: nat, before: Exec,
                  run: seq<Repairing>, c: Catalog, events: set<Event>, todo: set<Event>, running: set<Event>,
                  failed: bool, e: Event) returns (longer: seq<Repairing>)
    requires InPhase(plan, where, start, i, before, run, c, events, todo, running, failed) && e in todo
    ensures InPhase(plan, where, start, i, before, longer, c, events, todo - {e}, running + {e}, failed)
  {
    var s := Last(run).exec;
    BeginsOne(plan, i, before, s, events, todo, running, failed, e);
    var z := Repairing(s.(st := s.st[TaskOf(e) := Running]), c);
    Extend(plan, where, start, run, z, Begin(TaskOf(e)));
    longer := run + [z];
  }

  lemma EndStep(plan: seq<set<Task>>, where: map<Identifier, Name>, start: Catalog, i: nat, before: Exec,
                run: seq<Repairing>, c: Catalog, c': Catalog, events: set<Event>, todo: set<Event>, running: set<Event>,
                failed: bool, e: Event, ok: bool) returns (longer: seq<Repairing>)
    requires InPhase(plan, where, start, i, before, run, c, events, todo, running, failed) && e in running
    requires if ok then EventEffect(e, c, c') && ActsWhere(where, e) else c' == c
    ensures InPhase(plan, where, start, i, before, longer, c', events, todo, running - {e}, failed || !ok)
  {
    var s := Last(run).exec;
    EndsOne(plan, i, before, s, events, todo, running, failed, e, ok);
    if ok { EffectWhere(where, e, c, c'); }
    var z := Repairing(s.(st := s.st[TaskOf(e) := if ok then Ok else Failed]), c');
    Extend(plan, where, start, run, z, if ok then Succeed(TaskOf(e)) else Fail(TaskOf(e)));
    longer := run + [z];
  }

  lemma LastStep(plan: seq<set<Task>>, where: map<Identifier, Name>, start: Catalog, i: nat, before: Exec,
                 run: seq<Repairing>, c: Catalog, events: set<Event>, failed: bool) returns (longer: seq<Repairing>)
    requires InPhase(plan, where, start, i, before, run, c, events, {}, {}, failed)
    ensures LeftPhase(plan, where, start, i, before, longer, c, !failed)
  {
    var s := Last(run).exec;
    PhaseEnds(plan, i, before, s, events, failed);
    var z := Repairing(if failed then s.(halted := true) else s.(phase := s.phase + 1), c);
    Extend(plan, where, start, run, z, if failed then Abort else NextPhase);
    longer := run + [z];
  }

  /** Phase i is over; the other phases are as they were. */
  ghost predicate LeftPhase(plan: seq<set<Task>>, where: map<Identifier, Name>, start: Catalog, i: nat, before: Exec,
                            run: seq<Repairing>, c: Catalog, ok: bool) {
    && i < |plan| && IsWork(plan, where, start, run) && Last(run).catalog == c
    && var s := Last(run).exec;
       && (if ok then s.phase == i + 1 && !s.halted else s.halted)
       && s.st.Keys == before.st.Keys
       && forall t | t in s.st && t !in plan[i] :: s.st[t] == before.st[t]
  }

  /** One phase: every event in its own goroutine. */
  method RunPhase(cluster: Cluster, phase: set<Event>, ghost plan: seq<set<Task>>, ghost where: map<Identifier, Name>,
                  ghost start: Catalog, ghost i: nat, ghost before: seq<Repairing>)
    returns (ok: bool, ghost run: seq<Repairing>)
    requires |before| > 0
    requires InPhase(plan, where, start, i, Last(before).exec, before, cluster.catalog, phase, phase, {}, false)
    requires forall e | e in phase :: ActsWhere(where, e)
    modifies cluster
    ensures LeftPhase(plan, where, start, i, Last(before).exec, run, cluster.catalog, ok)
    ensures CatalogOk(old(cluster.catalog)) ==> CatalogOk(cluster.catalog)
  {
    run := before;
    ghost var origin := Last(before).exec;
    var todo, running, failed := phase, {}, false;
    while todo + running != {}
      invariant running <= phase && (CatalogOk(old(cluster.catalog)) ==> CatalogOk(cluster.catalog))
      invariant InPhase(plan, where, start, i, origin, run, cluster.catalog, phase, todo, running, failed)
      decreases todo, running
    {
      var begin: bool := *;
      if running == {} || (begin && todo != {}) {
        var e :| e in todo;
        run := BeginStep(plan, where, start, i, origin, run, cluster.catalog, phase, todo, running, failed, e);
        todo, running := todo - {e}, running + {e};
      } else {
        var e :| e in running;
        ghost var c := cluster.catalog;
        var done := cluster.Apply(e);
        run := EndStep(plan, where, start, i, origin, run, c, cluster.catalog, phase, todo, running, failed, e, done);
        running, failed := running - {e}, failed || !done;
      }
    }
    assert todo == {} && running == {};
    run := LastStep(plan, where, start, i, origin, run, cluster.catalog, phase, failed);
    ok := !failed;
  }

  ghost function Fresh(plan: seq<set<Task>>): Exec {
    Exec(0, map t | t in AllTasks(plan) :: Waiting, false)
  }

  /** Phases i and later have not begun. */
  ghost predicate Ahead(plan: seq<set<Task>>, i: nat, s: Exec) {
    && s.phase == i <= |plan| && !s.halted && s.st.Keys == AllTasks(plan)
    && forall k, t :: Planned(plan, k, t) && k >= i ==> s.st[t] == Waiting
  }

  /**
   Execute: the phases in sequence, stopping at the first phase in which an event failed.
   */
  method Execute(cluster: Cluster, phases: seq<seq<Event>>, ghost where: map<Identifier, Name>)
    returns (ok: bool, ghost run: seq<Repairing>)
    requires NoDuplicates(phases) && OncePerTask(TaskPhases(phases))
    requires forall k, e | 0 <= k < |phases| && e in phases[k] :: ActsWhere(where, e)
    modifies cluster
    ensures IsWork(TaskPhases(phases), where, old(cluster.catalog), run) && Last(run).catalog == cluster.catalog
    ensures if ok then Last(run).exec.phase == |phases| else Last(run).exec.halted
    ensures CatalogOk(old(cluster.catalog)) ==> CatalogOk(cluster.catalog)
  {
    ghost var plan := TaskPhases(phases);
    ghost var start := cluster.catalog;
    run := [Repairing(Fresh(plan), start)];
    for i := 0 to |phases|
      invariant IsWork(plan, where, start, run) && Last(run).catalog == cluster.catalog
      invariant Ahead(plan, i, Last(run).exec)
      invariant CatalogOk(start) ==> CatalogOk(cluster.catalog)
    {
      var events := set e | e in phases[i];
      ghost var s := Last(run).exec;
      EntersPhase(phases, i, s, events);
      ok, run := RunPhase(cluster, events, plan, where, start, i, run);
      if !ok { return; }
      StillAhead(plan, i, s, Last(run).exec);
    }
    ok := true;
  }

  lemma EntersPhase(phases: seq<seq<Event>>, i: nat, s: Exec, events: set<Event>)
    requires NoDuplicates(phases) && i < |phases| && Ahead(TaskPhases(phases), i, s)
    requires events == set e | e in phases[i]
    ensures PhaseState(TaskPhases(phases), i, s, s, events, events, {}, false)
  {
    var plan := TaskPhases(phases);
    assert Members(phases[i]) == events && plan[i] == Tasks(events);
    forall e | e in events ensures TaskOf(e) in s.st && s.st[TaskOf(e)] == Waiting {
      assert Planned(plan, i, TaskOf(e));
    }
    assert DistinctIds(phases[i]);
  }

  lemma StillAhead(plan: seq<set<Task>>, i: nat, s: Exec, s': Exec)
    requires OncePerTask(plan) && i < |plan| && Ahead(plan, i, s)
    requires s'.phase == i + 1 && !s'.halted && s'.st.Keys == s.st.Keys
    requires forall t | t in s'.st && t !in plan[i] :: s'.st[t] == s.st[t]
    ensures Ahead(plan, i + 1, s')
  {
    forall k, t | Planned(plan, k, t) && k >= i + 1 ensures s'.st[t] == Waiting {
      if t in plan[i] { assert Planned(plan, i, t); }
    }
  }

  // ---------------------------------------------------------------------------------------
  // From the refreshed maps to the plan of module Convergence
  // ---------------------------------------------------------------------------------------

  /** What RefreshActual guarantees, with the statuses it left behind. */
  ghost predicate Observed(cfg: Config, c: Catalog, desired: map<Identifier, Resource>,
                           actual: map<Identifier, Resource>,
                           st: map<Identifier, Status>) {
    && KeysAreIds(desired) && IsDesiredGraph(cfg, DepsView(desired)) && AtHome(desired) && CatalogOk(c)
    && st.Keys == desired.Keys && (forall k | k in desired :: st[k] == Assess(c, k))
    && (forall k :: k in actual <==> InActual(cfg, c, k))
    && (forall k | k in actual && k in desired :: actual[k] == desired[k])
    && (forall k | k in actual && k !in desired :: OrphanEntry(NamesOf(cfg), c, k, actual[k]))
  }

  /** The identifier a key of the actual map is planned under. */
  function Collapsed(k: Identifier): Identifier {
    if k.NodeAt? then Node(k.orphan) else k
  }

  lemma OrphanKeys(names: set<Name>, c: Catalog, id: Identifier)
    requires CatalogOk(c)
    ensures id in Orphans(names, c) <==> exists k :: Orphan(names, c, k) && Collapsed(k) == id
  {
    if id in Orphans(names, c) {
      var k := KeyOf(names, c, id);
    }
    if k :| Orphan(names, c, k) && Collapsed(k) == id {
      KeyIsOrphan(names, c, k);
    }
  }

  lemma KeyOf(names: set<Name>, c: Catalog, id: Identifier) returns (k: Identifier)
    requires CatalogOk(c) && id in Orphans(names, c)
    ensures Orphan(names, c, k) && Collapsed(k) == id
  {
    if id.Node? {
      var f :| f in c.foreign && OrphanNode(names, c, f.orphan, f.survivor) && id == Node(f.orphan);
      k := NodeAt(f.orphan, f.survivor);
    } else {
      k := id;
      if !id.Sub? {
        var h :| h in c.slots && OrphanSlot(names, c, h.host, h.slot) && id == h.slot;
      }
    }
  }

  lemma KeyIsOrphan(names: set<Name>, c: Catalog, k: Identifier)
    requires Orphan(names, c, k)
    ensures Collapsed(k) in Orphans(names, c)
  {
    var x := WhereOrphan(names, c, k);
    if k.NodeAt? || k.Sub? {
      var f := Foreign(x, if k.NodeAt? then k.orphan else k.src);
      assert f in c.foreign && OrphanNode(names, c, f.orphan, f.survivor);
    } else {
      var h := Hosted(x, k);
      assert h in c.slots && OrphanSlot(names, c, h.host, h.slot);
    }
  }

  /** The plan's delete events, by identifier and by the survivor they act on. */
  lemma DeletesObserved(cfg: Config, c: Catalog, desired: map<Identifier, Resource>, actual: map<Identifier, Resource>,
                        st: map<Identifier, Status>, e: Event)
    requires Observed(cfg, c, desired, actual, st) && e in DeleteEvents(actual, desired, st)
    ensures var id := e.resource.id;
            if id in desired then e.resource == desired[id] && id in Recreated(actual.Keys, st)
            else id in Orphans(NamesOf(cfg), c) && e.resource.deps == OrphanDeps(id, e.resource.conn)
                 && (id.Sub? || SeenFrom(NamesOf(cfg), c, id, e.resource.conn))
  {
    if k :| k in actual && k !in desired && e == Event(Action.Delete, actual[k]) {
      assert !InDesired(cfg, k) by { assert k in DepsView(desired) <==> InDesired(cfg, k); }
      KeyIsOrphan(NamesOf(cfg), c, k);
      OrphanCases(NamesOf(cfg), c, Collapsed(k));
      assert e.resource.id == Collapsed(k);
      assert Collapsed(k) in DepsView(desired) <==> InDesired(cfg, Collapsed(k));
    }
  }

  /**
   For an orphan node, the survivor of the object that was kept; for a slot or subscription, of the
   object found first.
   */
  ghost function ConnOf(phases: seq<seq<Event>>, actual: map<Identifier, Resource>, id: Identifier): Name {
    if id in actual then actual[id].conn
    else if exists k, e :: 0 <= k < |phases| && e in phases[k] && TaskOf(e) == Task(Action.Delete, id) then
      var k, e :| 0 <= k < |phases| && e in phases[k] && TaskOf(e) == Task(Action.Delete, id);
      e.resource.conn
    else Named("")
  }

  ghost function WhereOf(cfg: Config, c: Catalog, phases: seq<seq<Event>>, desired: map<Identifier, Resource>,
                         actual: map<Identifier, Resource>): map<Identifier, Name>
  {
    map id | id in desired.Keys + Orphans(NamesOf(cfg), c) ::
      if id in desired then desired[id].conn else ConnOf(phases, actual, id)
  }

  /** Slots are deleted where they were found. */
  ghost predicate SlotsWhere(where: map<Identifier, Name>, events: set<Event>) {
    forall e | e in events && (e.resource.id.Slot? || e.resource.id.RawSlot?) ::
      e.resource.id in where && where[e.resource.id] == e.resource.conn
  }

  lemma AssessedAgree(r: Repair, desired: map<Identifier, Resource>, actual: map<Identifier, Resource>,
                      st: map<Identifier, Status>)
    requires Observed(r.cfg, r.start, desired, actual, st) && r.deps == DepsView(desired)
    ensures r.Assessed() == st
    ensures r.Updates() == Updated(actual.Keys, st) && r.Creates() == Created(actual.Keys, st)
    ensures r.Deletes() == Ids(DeleteEvents(actual, desired, st))
  {
    assert r.Assessed() == st;
    OrphansNotDesired(r.cfg, r.deps, r.start);
    forall id | id in desired ensures id in r.Actual() <==> id in actual {
      assert InDesired(r.cfg, id);
      if id in Orphans(r.Names(), r.start) { OrphanCases(r.Names(), r.start, id); }
    }
    assert r.Updates() == Updated(actual.Keys, st);
    assert r.Creates() == Created(actual.Keys, st);
    forall id ensures id in r.Deletes() <==> id in Ids(DeleteEvents(actual, desired, st)) {
      DeletedIds(r, desired, actual, st, id);
    }
  }

  lemma DeletedIds(r: Repair, desired: map<Identifier, Resource>, actual: map<Identifier, Resource>,
                   st: map<Identifier, Status>, id: Identifier)
    requires Observed(r.cfg, r.start, desired, actual, st) && r.deps == DepsView(desired) && r.Assessed() == st
    requires forall id | id in desired :: id in r.Actual() <==> id in actual
    ensures id in r.Deletes() <==> id in Ids(DeleteEvents(actual, desired, st))
  {
    var events := DeleteEvents(actual, desired, st);
    if id in r.Deletes() {
      if id in desired {
        assert Event(Action.Delete, desired[id]) in events;
      } else {
        var k := KeyOf(r.Names(), r.start, id);
        OrphansNotDesired(r.cfg, DepsView(desired), r.start);
        assert Event(Action.Delete, actual[k]) in events;
      }
    }
    if id in Ids(events) {
      var e :| e in events && e.resource.id == id;
      DeletesObserved(r.cfg, r.start, desired, actual, st, e);
    }
  }

  lemma PlansAgree(r: Repair, desired: map<Identifier, Resource>, actual: map<Identifier, Resource>,
                   st: map<Identifier, Status>)
    requires Observed(r.cfg, r.start, desired, actual, st) && r.deps == DepsView(desired)
    requires SlotsWhere(r.where, DeleteEvents(actual, desired, st))
    ensures Sorted(Action.Delete, DeleteEvents(actual, desired, st))
            + Sorted(Action.Update, UpdateEvents(actual, desired, st))
            + Sorted(Action.Create, CreateEvents(actual, desired, st)) == r.Plan()
  {
    AssessedAgree(r, desired, actual, st);
    var events := DeleteEvents(actual, desired, st);
    forall e | e in events
      ensures e.resource.id in r.AllDeps() && e.resource.deps == r.AllDeps()[e.resource.id]
    {
      DeletesObserved(r.cfg, r.start, desired, actual, st, e);
      if e.resource.id !in desired { OrphanCases(r.Names(), r.start, e.resource.id); }
    }
    SortedSpecialize(Action.Delete, events, r.Deletes(), r.AllDeps());
    StoredSpecialize(Action.Update, desired, r.Updates(), r.AllDeps());
    StoredSpecialize(Action.Create, desired, r.Creates(), r.AllDeps());
  }

  lemma EventOf(phases: seq<seq<Event>>, id: Identifier)
    requires exists k :: Planned(TaskPhases(phases), k, Task(Action.Delete, id))
    ensures exists k, e :: 0 <= k < |phases| && e in phases[k] && TaskOf(e) == Task(Action.Delete, id)
  {
    var k :| Planned(TaskPhases(phases), k, Task(Action.Delete, id));
    assert TaskPhases(phases)[k] == Tasks(Members(phases[k]));
    var e :| e in Members(phases[k]) && TaskOf(e) == Task(Action.Delete, id);
  }

  lemma SameEvent(phases: seq<seq<Event>>, j: nat, e: Event, k: nat, f: Event)
    requires NoDuplicates(phases) && OncePerTask(TaskPhases(phases))
    requires j < |phases| && e in phases[j] && k < |phases| && f in phases[k] && TaskOf(e) == TaskOf(f)
    ensures e == f
  {
    assert Planned(TaskPhases(phases), j, TaskOf(e)) by { assert e in Members(phases[j]); }
    assert Planned(TaskPhases(phases), k, TaskOf(f)) by { assert f in Members(phases[k]); }
    assert DistinctIds(phases[j]);
  }

  /** A slot is deleted where refresh found it. */
  lemma StoredIsSeen(r: Repair, desired: map<Identifier, Resource>, actual: map<Identifier, Resource>,
                     st: map<Identifier, Status>, id: Identifier)
    requires Observed(r.cfg, r.start, desired, actual, st) && r.deps == DepsView(desired)
    requires id in Orphans(r.Names(), r.start) && !id.Sub? && id in actual
    ensures SeenFrom(r.Names(), r.start, id, actual[id].conn)
  {
    OrphanNotMesh(r, id);
    assert OrphanEntry(r.Names(), r.start, id, actual[id]);
    assert InActual(r.cfg, r.start, id);
    assert InDesired(r.cfg, id) <==> id in r.deps;
  }

  lemma PlannedIsSeen(r: Repair, phases: seq<seq<Event>>, desired: map<Identifier, Resource>,
                      actual: map<Identifier, Resource>, st: map<Identifier, Status>, k: nat, e: Event)
    requires Observed(r.cfg, r.start, desired, actual, st) && r.deps == DepsView(desired)
    requires DrawnFrom(phases, DeleteEvents(actual, desired, st) + UpdateEvents(actual, desired, st)
                               + CreateEvents(actual, desired, st))
    requires k < |phases| && e in phases[k] && e.action == Action.Delete
    requires e.resource.id !in r.deps && !e.resource.id.Sub?
    ensures SeenFrom(r.Names(), r.start, e.resource.id, e.resource.conn)
  {
    assert e in Members(phases[k]);
    assert e in DeleteEvents(actual, desired, st);
    DeletesObserved(r.cfg, r.start, desired, actual, st, e);
  }

  lemma DeleteIsPlanned(r: Repair, phases: seq<seq<Event>>, id: Identifier)
    requires IsDesiredGraph(r.cfg, r.deps) && CatalogOk(r.start) && id in Orphans(r.Names(), r.start)
    requires TaskPhases(phases) == r.Plan()
    ensures id !in r.deps
    ensures exists k, e :: 0 <= k < |phases| && e in phases[k] && TaskOf(e) == Task(Action.Delete, id)
  {
    OrphanNotMesh(r, id);
    PlannedIff(r.AllDeps(), r.Deletes(), r.Updates(), r.Creates(), Task(Action.Delete, id));
    EventOf(phases, id);
  }

  /** That event, on the connection the effect is taken to act on. */
  lemma PlannedDelete(r: Repair, phases: seq<seq<Event>>, actual: map<Identifier, Resource>, id: Identifier)
    returns (k: nat, e: Event)
    requires IsDesiredGraph(r.cfg, r.deps) && CatalogOk(r.start) && id in Orphans(r.Names(), r.start) && id !in actual
    requires TaskPhases(phases) == r.Plan()
    ensures k < |phases| && e in phases[k] && TaskOf(e) == Task(Action.Delete, id)
    ensures e.resource.conn == ConnOf(phases, actual, id)
  {
    DeleteIsPlanned(r, phases, id);
    k, e :| 0 <= k < |phases| && e in phases[k] && TaskOf(e) == Task(Action.Delete, id)
            && e.resource.conn == ConnOf(phases, actual, id);
  }

  /** The delete event planned for an orphan acts on the survivor where says, and sees the orphan there. */
  lemma WhereIsSeen(r: Repair, phases: seq<seq<Event>>, desired: map<Identifier, Resource>,
                    actual: map<Identifier, Resource>, st: map<Identifier, Status>, id: Identifier)
    requires Observed(r.cfg, r.start, desired, actual, st) && r.deps == DepsView(desired)
    requires TaskPhases(phases) == r.Plan()
    requires DrawnFrom(phases, DeleteEvents(actual, desired, st) + UpdateEvents(actual, desired, st)
                               + CreateEvents(actual, desired, st))
    requires id in Orphans(r.Names(), r.start) && !id.Sub?
    ensures SeenFrom(r.Names(), r.start, id, ConnOf(phases, actual, id))
  {
    if id in actual {
      StoredIsSeen(r, desired, actual, st, id);
    } else {
      var k, e := PlannedDelete(r, phases, actual, id);
      OrphanNotMesh(r, id);
      assert e.resource.id == id && e.action == Action.Delete;
      PlannedIsSeen(r, phases, desired, actual, st, k, e);
    }
  }

  lemma OrphanNotMesh(r: Repair, id: Identifier)
    requires IsDesiredGraph(r.cfg, r.deps) && CatalogOk(r.start) && id in Orphans(r.Names(), r.start)
    ensures id !in r.deps
    ensures id in r.Deletes()
  {
    OrphanCases(r.Names(), r.start, id);
    assert id in r.deps <==> InDesired(r.cfg, id);
  }

  /** Everything planned has its object's database in where. */
  lemma WhereIsThere(r: Repair, phases: seq<seq<Event>>, desired: map<Identifier, Resource>,
                     actual: map<Identifier, Resource>, st: map<Identifier, Status>, id: Identifier)
    requires Observed(r.cfg, r.start, desired, actual, st) && r.deps == DepsView(desired)
    requires r.where == WhereOf(r.cfg, r.start, phases, desired, actual)
    ensures id in desired ==> id in r.where && r.where[id] == desired[id].conn == Home(id)
    ensures id in Orphans(r.Names(), r.start) ==>
              id in r.where && r.where[id] == ConnOf(phases, actual, id) && (id.Sub? ==> r.where[id] == id.dst)
  {
    if id in Orphans(r.Names(), r.start) {
      OrphanNotMesh(r, id);
      if id.Sub? {
        var k := KeyOf(r.Names(), r.start, id);
        assert k == id && InActual(r.cfg, r.start, id);
        assert OrphanEntry(r.Names(), r.start, id, actual[id]);
      }
    }
  }

  /** An orphan slot's delete event is about the object stored under the slot's name. */
  lemma SlotIsStored(r: Repair, desired: map<Identifier, Resource>, actual: map<Identifier, Resource>,
                     st: map<Identifier, Status>, e: Event)
    requires Observed(r.cfg, r.start, desired, actual, st) && r.deps == DepsView(desired)
    requires e in DeleteEvents(actual, desired, st) && (e.resource.id.Slot? || e.resource.id.RawSlot?)
    ensures e.resource.id in Orphans(r.Names(), r.start) && e.resource.id in actual
            && actual[e.resource.id] == e.resource
  {
    DeletesObserved(r.cfg, r.start, desired, actual, st, e);
    RecreatesOnlySubs(r, desired, actual, st, e.resource.id);
    StoredUnderId(r.Names(), r.start, desired, actual, st, e);
  }

  lemma StoredUnderId(names: set<Name>, c: Catalog, desired: map<Identifier, Resource>,
                      actual: map<Identifier, Resource>,
                      st: map<Identifier, Status>, e: Event)
    requires st.Keys == desired.Keys && KeysAreIds(desired)
    requires forall k | k in actual && k !in desired :: OrphanEntry(names, c, k, actual[k])
    requires e in DeleteEvents(actual, desired, st) && (e.resource.id.Slot? || e.resource.id.RawSlot?)
    requires e.resource.id !in desired
    ensures e.resource.id in actual && actual[e.resource.id] == e.resource
  {
    var k :| k in actual && k !in desired && e == Event(Action.Delete, actual[k]);
    assert OrphanEntry(names, c, k, actual[k]);
  }

  lemma RecreatesOnlySubs(r: Repair, desired: map<Identifier, Resource>, actual: map<Identifier, Resource>,
                          st: map<Identifier, Status>, id: Identifier)
    requires Observed(r.cfg, r.start, desired, actual, st) && r.deps == DepsView(desired)
    ensures id in Recreated(actual.Keys, st) ==> id.Sub?
  {
    if id in Recreated(actual.Keys, st) {
      assert st[id] == Assess(r.start, id);
    }
  }

  lemma WhereFits(r: Repair, phases: seq<seq<Event>>, desired: map<Identifier, Resource>,
                  actual: map<Identifier, Resource>, st: map<Identifier, Status>)
    requires Observed(r.cfg, r.start, desired, actual, st) && r.deps == DepsView(desired)
    requires r.where == WhereOf(r.cfg, r.start, phases, desired, actual)
    ensures SlotsWhere(r.where, DeleteEvents(actual, desired, st))
  {
    forall e | e in DeleteEvents(actual, desired, st) && (e.resource.id.Slot? || e.resource.id.RawSlot?)
      ensures e.resource.id in r.where && r.where[e.resource.id] == e.resource.conn
    {
      SlotIsStored(r, desired, actual, st, e);
      WhereIsThere(r, phases, desired, actual, st, e.resource.id);
    }
  }

  lemma ActsThere(r: Repair, phases: seq<seq<Event>>, desired: map<Identifier, Resource>,
                  actual: map<Identifier, Resource>, st: map<Identifier, Status>, k: nat, e: Event)
    requires Observed(r.cfg, r.start, desired, actual, st) && r.deps == DepsView(desired)
    requires r.where == WhereOf(r.cfg, r.start, phases, desired, actual)
    requires NoDuplicates(phases) && OncePerTask(TaskPhases(phases))
    requires DrawnFrom(phases, DeleteEvents(actual, desired, st) + UpdateEvents(actual, desired, st)
                               + CreateEvents(actual, desired, st))
    requires k < |phases| && e in phases[k]
    ensures ActsWhere(r.where, e)
  {
    var id := e.resource.id;
    assert e in Members(phases[k]);
    WhereIsThere(r, phases, desired, actual, st, id);
    if e in DeleteEvents(actual, desired, st) {
      DeletesObserved(r.cfg, r.start, desired, actual, st, e);
      if id !in desired { OrphanActsThere(r, phases, desired, actual, st, k, e); }
    } else {
      assert id in desired && e.resource == desired[id];
    }
  }

  lemma OrphanActsThere(r: Repair, phases: seq<seq<Event>>, desired: map<Identifier, Resource>,
                        actual: map<Identifier, Resource>, st: map<Identifier, Status>, k: nat, e: Event)
    requires Observed(r.cfg, r.start, desired, actual, st) && r.deps == DepsView(desired)
    requires r.where == WhereOf(r.cfg, r.start, phases, desired, actual)
    requires NoDuplicates(phases) && OncePerTask(TaskPhases(phases))
    requires k < |phases| && e in phases[k] && e in DeleteEvents(actual, desired, st) && e.resource.id !in desired
    ensures ActsWhere(r.where, e)
  {
    var id := e.resource.id;
    if id.Slot? || id.RawSlot? {
      WhereFits(r, phases, desired, actual, st);
    } else if id.Sub? {
      SubActsThere(r, phases, desired, actual, st, e);
    } else {
      NodeActsThere(r, phases, desired, actual, st, k, e);
    }
  }

  lemma SubActsThere(r: Repair, phases: seq<seq<Event>>, desired: map<Identifier, Resource>,
                     actual: map<Identifier, Resource>, st: map<Identifier, Status>, e: Event)
    requires Observed(r.cfg, r.start, desired, actual, st) && r.deps == DepsView(desired)
    requires r.where == WhereOf(r.cfg, r.start, phases, desired, actual)
    requires e in DeleteEvents(actual, desired, st) && e.resource.id.Sub? && e.resource.id !in desired
    ensures ActsWhere(r.where, e)
  {
    DeletesObserved(r.cfg, r.start, desired, actual, st, e);
    WhereIsThere(r, phases, desired, actual, st, e.resource.id);
    var k :| k in actual && k !in desired && e == Event(Action.Delete, actual[k]);
    assert OrphanEntry(r.Names(), r.start, k, actual[k]);
  }

  lemma NodeActsThere(r: Repair, phases: seq<seq<Event>>, desired: map<Identifier, Resource>,
                      actual: map<Identifier, Resource>, st: map<Identifier, Status>, k: nat, e: Event)
    requires Observed(r.cfg, r.start, desired, actual, st) && r.deps == DepsView(desired)
    requires r.where == WhereOf(r.cfg, r.start, phases, desired, actual)
    requires NoDuplicates(phases) && OncePerTask(TaskPhases(phases))
    requires k < |phases| && e in phases[k] && e in DeleteEvents(actual, desired, st)
    requires var id := e.resource.id; !id.Sub? && !id.Slot? && !id.RawSlot?
    ensures ActsWhere(r.where, e)
  {
    var id := e.resource.id;
    WhereIsThere(r, phases, desired, actual, st, id);
    DeletesObserved(r.cfg, r.start, desired, actual, st, e);
    RecreatesOnlySubs(r, desired, actual, st, id);
    OrphanCases(r.Names(), r.start, id);
    assert InActual(r.cfg, r.start, id) ==> InDesired(r.cfg, id);
    assert InDesired(r.cfg, id) <==> id in r.deps;
    var j, f :| 0 <= j < |phases| && f in phases[j] && TaskOf(f) == Task(Action.Delete, id)
                && f.resource.conn == ConnOf(phases, actual, id);
    SameEvent(phases, j, f, k, e);
  }

  /** Nothing is planned exactly when the catalog is settled. */
  lemma NothingPlannedIff(r: Repair, desired: map<Identifier, Resource>, actual: map<Identifier, Resource>,
                          st: map<Identifier, Status>)
    requires Observed(r.cfg, r.start, desired, actual, st) && r.deps == DepsView(desired)
    ensures (r.Deletes() == {} && r.Updates() == {} && r.Creates() == {}) <==> Settled(r.cfg, r.start)
  {
    AssessedAgree(r, desired, actual, st);
    assert forall id :: id in r.deps <==> InDesired(r.cfg, id);
    if Settled(r.cfg, r.start) {
      forall id ensures id !in r.Deletes() && id !in r.Updates() && id !in r.Creates() {
        if id in r.Deletes() && id !in r.deps {
          OrphanKeys(r.Names(), r.start, id);
        }
      }
    } else if id :| InDesired(r.cfg, id) && Assess(r.start, id) != HEALTHY {
      assert id in r.deps && r.Assessed()[id] == Assess(r.start, id);
      UnhealthyIsPlanned(r, id);
    } else {
      var k :| Orphan(r.Names(), r.start, k);
      KeyIsOrphan(r.Names(), r.start, k);
      OrphanNotMesh(r, Collapsed(k));
    }
  }

  lemma UnhealthyIsPlanned(r: Repair, id: Identifier)
    requires IsDesiredGraph(r.cfg, r.deps) && CatalogOk(r.start) && id in r.deps && Assess(r.start, id) != HEALTHY
    ensures id in r.Updates() || id in r.Creates()
  {
    assert InDesired(r.cfg, id);
    if id in Orphans(r.Names(), r.start) {
      OrphanCases(r.Names(), r.start, id);
    }
  }

  lemma NoTasksNoPhases(deps: Deps, d: set<Identifier>, u: set<Identifier>, n: set<Identifier>)
    ensures PlanOf(deps, d, u, n) == [] <==> d == {} && u == {} && n == {}
  {
    PlanIsPartition(deps, d, u, n);
    if id :| id in d {
      PlannedIff(deps, d, u, n, Task(Action.Delete, id));
    } else if id :| id in u {
      PlannedIff(deps, d, u, n, Task(Action.Update, id));
    } else if id :| id in n {
      PlannedIff(deps, d, u, n, Task(Action.Create, id));
    }
  }

  // ---------------------------------------------------------------------------------------
  // Reconcile
  // ---------------------------------------------------------------------------------------

  /** A plan for what a refresh of the cluster showed. */
  ghost predicate PlanFor(r: Repair, phases: seq<seq<Event>>) {
    && r.Refreshed() && TaskPhases(phases) == r.Plan()
    && NoDuplicates(phases) && OncePerTask(TaskPhases(phases))
    && forall k, e | 0 <= k < |phases| && e in phases[k] :: ActsWhere(r.where, e)
  }

  lemma RefreshedHere(r: Repair, phases: seq<seq<Event>>, desired: map<Identifier, Resource>,
                      actual: map<Identifier, Resource>, st: map<Identifier, Status>)
    requires Observed(r.cfg, r.start, desired, actual, st) && r.deps == DepsView(desired)
    requires r.where == WhereOf(r.cfg, r.start, phases, desired, actual) && TaskPhases(phases) == r.Plan()
    requires DrawnFrom(phases, DeleteEvents(actual, desired, st) + UpdateEvents(actual, desired, st)
                               + CreateEvents(actual, desired, st))
    ensures r.Refreshed()
  {
    forall id | id in r.deps ensures id in r.where && r.where[id] == Home(id) {
      WhereIsThere(r, phases, desired, actual, st, id);
    }
    forall id | id in Orphans(r.Names(), r.start)
      ensures id in r.where && if id.Sub? then r.where[id] == id.dst
                               else SeenFrom(r.Names(), r.start, id, r.where[id])
    {
      WhereIsThere(r, phases, desired, actual, st, id);
      if !id.Sub? { WhereIsSeen(r, phases, desired, actual, st, id); }
    }
  }

  lemma PlanFits(r: Repair, phases: seq<seq<Event>>, desired: map<Identifier, Resource>,
                 actual: map<Identifier, Resource>, st: map<Identifier, Status>)
    requires Observed(r.cfg, r.start, desired, actual, st) && r.deps == DepsView(desired)
    requires r.where == WhereOf(r.cfg, r.start, phases, desired, actual)
    requires TaskPhases(phases) == Sorted(Action.Delete, DeleteEvents(actual, desired, st))
                                   + Sorted(Action.Update, UpdateEvents(actual, desired, st))
                                   + Sorted(Action.Create, CreateEvents(actual, desired, st))
    requires NoDuplicates(phases)
    requires DrawnFrom(phases, DeleteEvents(actual, desired, st) + UpdateEvents(actual, desired, st)
                               + CreateEvents(actual, desired, st))
    ensures PlanFor(r, phases) && (phases == [] <==> Settled(r.cfg, r.start))
  {
    WhereFits(r, phases, desired, actual, st);
    PlansAgree(r, desired, actual, st);
    PlanIsPartition(r.AllDeps(), r.Deletes(), r.Updates(), r.Creates());
    forall k, e | 0 <= k < |phases| && e in phases[k] ensures ActsWhere(r.where, e) {
      ActsThere(r, phases, desired, actual, st, k, e);
    }
    RefreshedHere(r, phases, desired, actual, st);
    NoTasksNoPhases(r.AllDeps(), r.Deletes(), r.Updates(), r.Creates());
    NothingPlannedIff(r, desired, actual, st);
    assert |phases| == |r.Plan()|;
  }

  /** The first three steps of Reconcile: desired, actual, plan. */
  method PlanNext(cfg: Config, c: Catalog) returns (phases: Option<seq<seq<Event>>>, ghost r: Repair)
    requires CatalogOk(c)
    ensures phases.Some? ==> (phases.value == [] <==> Settled(cfg, c))
    ensures phases.Some? ==> r.cfg == cfg && r.start == c && PlanFor(r, phases.value)
  {
    var desired, _ := ComputeDesired(cfg);
    var actual := RefreshActual(cfg, c, desired);
    if actual.None? {
      r := Repair(cfg, DepsView(desired), c, map[]);
      return None, r;
    }
    ghost var st := Statuses(desired);
    var plan := Planning.Plan(actual.value, desired);
    r := Repair(cfg, DepsView(desired), c, WhereOf(cfg, c, plan, desired, actual.value));
    PlanFits(r, plan, desired, actual.value, st);
    phases := Some(plan);
  }

  /**
   Reconcile.  Whatever happens, the catalogs change by a run of the plan.  When it succeeds,
   the whole mesh is healthy, also after adding nodes, and the next plan is empty exactly if no
   node is being bootstrapped and no orphan name had been visible from two survivors.
   */
  method Reconcile(cfg: Config, cluster: Cluster) returns (ok: bool, ghost r: Repair, ghost run: seq<Repairing>)
    requires CatalogOk(cluster.catalog)
    modifies cluster
    ensures CatalogOk(cluster.catalog)
    ensures r.cfg == cfg && r.start == old(cluster.catalog)
    ensures ok ==> r.Refreshed() && IsRepair(r, run) && Finished(r, Last(run))
    ensures !ok ==> cluster.catalog == old(cluster.catalog)
                    || (r.Refreshed() && IsRepair(r, run) && Last(run).exec.halted)
    ensures |run| > 0 && Last(run).catalog == cluster.catalog
    ensures ok ==> forall id | InMesh(NamesOf(cfg), id) :: Assess(cluster.catalog, id) == HEALTHY
    ensures ok ==> MeshUp(NamesOf(cfg), cluster.catalog)
    ensures ok ==> (Settled(cfg, cluster.catalog)
            <==> NoNew(cfg) && OneSurvivorEach(NamesOf(cfg), old(cluster.catalog)))
  {
    var phases;
    phases, r := PlanNext(cfg, cluster.catalog);
    if phases.None? {
      r := Repair(cfg, map[], cluster.catalog, map[]);
      run := [Repairing(Fresh([]), cluster.catalog)];
      return false, r, run;
    }
    ok, run := Execute(cluster, phases.value, r.where);
    if ok { ConvergesIff(r, run); }
  }
}
