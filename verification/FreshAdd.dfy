/**
 When the guarantees of an add apply to what refresh finds, and what goes wrong otherwise: whether
 anything streams before the COPY, and whether anything is lost, decided by the subscriptions and
 slots in the catalogs and by whether an earlier attempt got as far as its COPY.
 */
module FreshAdd {
  import opened Resources
  import opened Layering
  import opened Planning
  import opened Executor
  import opened Desired
  import opened DesiredOrder
  import opened Refresh
  import opened Convergence
  import opened AddNode
  import opened AddNodeInvariant
  import opened AddNodeSafety
  import P = AddNodeProgress
  import opened AddNodeLoss
  import opened AddNodeRetry

  // ---------------------------------------------------------------------------------------
  // From the catalog to the plan
  // ---------------------------------------------------------------------------------------

  /** The nodes whose slot for y is there. */
  ghost function Hosts(r: Repair, y: Name): set<Name> {
    set x | x in r.Names() && Hosted(x, Slot(x, y)) in r.start.slots
  }

  ghost function AddOf(r: Repair, m: Name, s: Name, copied: bool): Adding {
    Adding(r.cfg, r.deps, r.AllDeps(), m, s, r.Deletes(), r.Updates(), r.Creates(), Hosts(r, m), Hosts(r, s), copied)
  }

  /** Neither working nor disabled: missing, or without its slot. */
  ghost predicate NoneLive(r: Repair, m: Name) {
    forall x | x in r.Names() - {m} :: Assess(r.start, Sub(x, m)) in {MISSING, BROKEN}
  }

  /** The COPY of an earlier attempt counts as long as its subscription works or can be enabled. */
  ghost predicate CopyCounts(r: Repair, m: Name, s: Name, copied: bool) {
    copied ==> Assess(r.start, Sub(s, m)) in {HEALTHY, DISABLED}
  }

  /** Every refresh of a configuration with one properly sourced new node plans an add, orphans or not. */
  lemma IsAnAdd(r: Repair, m: Name, s: Name, copied: bool)
    requires r.Refreshed() && ProperlyNew(r.cfg, m, s) && CopyCounts(r, m, s, copied)
    ensures AddOf(r, m, s, copied).Plan() == r.Plan() && AddOf(r, m, s, copied).Valid()
  {
    var a := AddOf(r, m, s, copied);
    NewIsConfigured(r.cfg, m);
    forall id | Populates(r.cfg, m, id) ensures id in a.creates {
      assert id.Ephemeral() && InDesired(r.cfg, id);
      DiffOfDesired(r, id);
    }
    forall x, y | x in NamesOf(r.cfg) && y in NamesOf(r.cfg)
      ensures Sub(x, y) in a.deletes ==> Sub(x, y) in a.creates
      ensures Sub(x, y) in a.updates ==> Sub(x, y) !in a.creates
    {
      SubDiff(r, x, y);
    }
    forall x | x in a.Providers() ensures a.Fits(a.slots, x, m) { SlotFits(r, x, m); }
    forall x | x in a.Peers() ensures a.Fits(a.feeds, x, s) { SlotFits(r, x, s); }
    SlotFits(r, s, m);
    assert r.Creates() <= r.deps.Keys && r.Updates() <= r.deps.Keys;
  }

  lemma SubDiff(r: Repair, x: Name, y: Name)
    requires r.Refreshed() && x in r.Names() && y in r.Names()
    ensures Sub(x, y) in r.Deletes() ==> Sub(x, y) in r.Creates()
    ensures Sub(x, y) in r.Updates() ==> Sub(x, y) !in r.Creates()
  {
    if Sub(x, y) in r.deps {
      DiffOfDesired(r, Sub(x, y));
    } else {
      DiffOfOther(r, Sub(x, y));
      if Sub(x, y) in r.Deletes() { OrphanCases(r.Names(), r.start, Sub(x, y)); }
    }
  }

  /** A subscription of the mesh is created iff it is missing or broken, and broken only without its slot. */
  lemma SlotFits(r: Repair, x: Name, y: Name)
    requires r.Refreshed() && x in r.Names() && y in r.Names() && x != y
    ensures Sub(x, y) in r.Creates() <==> Assess(r.start, Sub(x, y)) in {MISSING, BROKEN}
    ensures Sub(x, y) !in r.Creates() ==> x in Hosts(r, y)
    ensures Sub(x, y) in r.Deletes() ==> x !in Hosts(r, y)
  {
    assert InDesired(r.cfg, Sub(x, y));
    DiffOfDesired(r, Sub(x, y));
  }

  /** It is a fresh one exactly when no subscription into the new node is live. */
  lemma FreshIffNoneLive(r: Repair, m: Name, s: Name, copied: bool)
    requires r.Refreshed() && ProperlyNew(r.cfg, m, s) && CopyCounts(r, m, s, copied)
    ensures AddOf(r, m, s, copied).Fresh() <==> NoneLive(r, m)
  {
    IsAnAdd(r, m, s, copied);
    NewIsConfigured(r.cfg, m);
    forall x | x in r.Names() - {m}
      ensures Sub(x, m) in r.Creates() <==> Assess(r.start, Sub(x, m)) in {MISSING, BROKEN}
    {
      SlotFits(r, x, m);
    }
    assert AddOf(r, m, s, copied).Providers() == r.Names() - {m};
  }

  // ---------------------------------------------------------------------------------------
  // A run that streams before the COPY
  // ---------------------------------------------------------------------------------------

  /** Something has been streamed into m, and nothing has been copied. */
  predicate Early(v: Provider) {
    v.streamed != {} && v.copy == None
  }

  ghost predicate SomeEarly(w: World) {
    exists x | x in w :: Early(w[x])
  }

  ghost predicate StreamsEarly(a: Adding, run: seq<Sys>) {
    IsHistory(a, run) && SomeEarly(run[|run| - 1].world)
  }

  /** Before anything is copied: x→m is disabled or, once updated, enabled, and its slot is there. */
  ghost predicate EarlyWorld(a: Adding, s: Exec, w: World, x: Name) {
    && x in w && w[x].slot.Some? && w[x].Position() <= w[x].wal && !w[x].active
    && (Done(s, Task(Update, Sub(x, a.m))) || Sub(x, a.m) !in a.updates ==> w[x].sub.Enabled?)
    && forall y | y in w :: w[y].copy == None
  }

  /** What a delete or an update does. */
  lemma EarlyEffect(a: Adding, s: Exec, t: Task, w: World, w': World, x: Name)
    requires t.action != Create && EarlyWorld(a, s, w, x) && t != Task(Delete, Sub(x, a.m)) && Effect(a, t, w, w')
    requires a.m != a.s
    ensures EarlyWorld(a, AfterTask(s, t), w', x)
  {
  }

  ghost predicate OnTheWay(a: Adding, run: seq<Sys>, x: Name) {
    P.Promising(a, run) && EarlyWorld(a, run[|run| - 1].exec, run[|run| - 1].world, x)
  }

  /** As long as the update is not done, only deletes and updates run. */
  lemma UpdateStillAhead(a: Adding, s: Exec, x: Name)
    requires a.Valid() && ExecInv(a.Plan(), s) && Sub(x, a.m) in a.updates && !Done(s, Task(Update, Sub(x, a.m)))
    ensures s.phase < |a.Plan()|
    ensures forall t | t in s.st && s.st[t] == Running :: t.action != Create
  {
    PlannedIff(a.deps, a.deletes, a.updates, a.creates, Task(Update, Sub(x, a.m)));
    var k :| Planned(a.Plan(), k, Task(Update, Sub(x, a.m)));
    forall t | t in s.st && s.st[t] == Running ensures t.action != Create {
      if t.action == Create { CreatesComeLast(a, s, t, Sub(x, a.m)); }
    }
  }

  lemma OneStepOn(a: Adding, run: seq<Sys>, x: Name) returns (longer: seq<Sys>)
    requires a.Valid() && OnTheWay(a, run, x) && x in a.Providers()
    requires Sub(x, a.m) in a.updates && !Done(run[|run| - 1].exec, Task(Update, Sub(x, a.m)))
    ensures OnTheWay(a, longer, x) && P.Left(a, longer) < P.Left(a, run)
  {
    var h := |run| - 1;
    ExecHistory(a, run, h);
    var z := run[h];
    UpdateStillAhead(a, z.exec, x);
    var z' := NextEarly(a, z, x);
    Extended(a, run, z');
    longer := run + [z'];
  }

  lemma NextEarly(a: Adding, z: Sys, x: Name) returns (z': Sys)
    requires a.Valid() && ExecInv(a.Plan(), z.exec) && NoFailure(z.exec) && z.exec.phase < |a.Plan()|
    requires EarlyWorld(a, z.exec, z.world, x) && x in a.Providers() && Sub(x, a.m) in a.updates
    requires forall t | t in z.exec.st && z.exec.st[t] == Running :: t.action != Create
    ensures SysNext(a, z, z') && NoFailure(z'.exec) && z'.exec.phase <= |a.Plan()|
    ensures EarlyWorld(a, z'.exec, z'.world, x) && StepsLeft(a.Plan(), z'.exec) < StepsLeft(a.Plan(), z.exec)
  {
    var step, s' := GoesOn(a.Plan(), z.exec);
    StepCosts(a.Plan(), z.exec, s', step);
    var w' := z.world;
    if step.Succeed? {
      UpdatedNotDropped(a, z.exec, step.t, x);
      w' := P.EffectPossible(a, step.t, z.world);
      EarlyEffect(a, z.exec, step.t, z.world, w', x);
      assert s' == AfterTask(z.exec, step.t);
    }
    z' := Sys(s', w');
    assert ExecPart(a, z, z', step);
  }

  lemma UpdatedNotDropped(a: Adding, s: Exec, t: Task, x: Name)
    requires a.Valid() && ExecInv(a.Plan(), s) && t in s.st && x in a.Providers() && Sub(x, a.m) in a.updates
    ensures t != Task(Delete, Sub(x, a.m))
  {
    NewIsConfigured(a.cfg, a.m);
    PlannedTask(a, s, t);
  }

  lemma {:induction false} UntilUpdated(a: Adding, run: seq<Sys>, x: Name) returns (longer: seq<Sys>)
    requires a.Valid() && OnTheWay(a, run, x) && x in a.Providers() && Sub(x, a.m) in a.updates
    ensures OnTheWay(a, longer, x) && Done(longer[|longer| - 1].exec, Task(Update, Sub(x, a.m)))
    decreases P.Left(a, run)
  {
    longer := run;
    if !Done(run[|run| - 1].exec, Task(Update, Sub(x, a.m))) {
      longer := OneStepOn(a, run, x);
      longer := UntilUpdated(a, longer, x);
    }
  }

  /** A transaction commits, a worker of x→m comes up, and m applies it. */
  lemma OneTransaction(a: Adding, run: seq<Sys>, x: Name) returns (longer: seq<Sys>)
    requires IsHistory(a, run) && x in run[|run| - 1].world
    requires var v := run[|run| - 1].world[x]; v.Streaming() && v.copy == None && v.Position() <= v.wal && !v.active
    ensures StreamsEarly(a, longer)
  {
    var z := run[|run| - 1];
    var v := z.world[x];
    var v1 := v.(wal := v.wal + 1, commits := v.commits + {v.wal + 1});
    var v2 := v1.(active := true, origin := v1.Position());
    var k := v2.origin + 1;
    var v3 := v2.(origin := k, streamed := v2.streamed + {k}, again := v2.again + if k in v2.streamed then {k} else {});
    var z1, z2, z3 := Sys(z.exec, z.world[x := v1]), Sys(z.exec, z.world[x := v2]), Sys(z.exec, z.world[x := v3]);
    assert EnvPart(z, z1, x, Commit) && EnvPart(z1, z2, x, Connect) && EnvPart(z2, z3, x, Deliver);
    Extended(a, run, z1);
    Extended(a, run + [z1], z2);
    Extended(a, run + [z1] + [z2], z3);
    longer := run + [z1] + [z2] + [z3];
    assert k in v3.streamed && Early(longer[|longer| - 1].world[x]);
  }

  /** The run that goes wrong: x→m works already, or the update phase enables it; then it streams. */
  lemma BadRun(a: Adding, x: Name) returns (run: seq<Sys>)
    requires a.Valid() && !a.copied && x in a.Providers() && Sub(x, a.m) !in a.creates
    ensures StreamsEarly(a, run)
  {
    var start := EnabledEarly(a, x);
    var s, w := start[|start| - 1].exec, start[|start| - 1].world;
    EarlyStreams(a, s, w, x);
    run := OneTransaction(a, start, x);
  }

  lemma EnabledEarly(a: Adding, x: Name) returns (run: seq<Sys>)
    requires a.Valid() && !a.copied && x in a.Providers() && Sub(x, a.m) !in a.creates
    ensures OnTheWay(a, run, x)
    ensures Sub(x, a.m) in a.updates ==> Done(run[|run| - 1].exec, Task(Update, Sub(x, a.m)))
  {
    run := StartEarly(a, x);
    if Sub(x, a.m) in a.updates { run := UntilUpdated(a, run, x); }
  }

  lemma StartEarly(a: Adding, x: Name) returns (run: seq<Sys>)
    requires a.Valid() && !a.copied && x in a.Providers() && Sub(x, a.m) !in a.creates
    ensures OnTheWay(a, run, x)
  {
    var z := P.InitialSys(a, 0);
    run := [z];
    assert a.Fits(a.slots, x, a.m);
    InitialIsEarly(a, x);
    assert forall t :: !Done(z.exec, t);
  }

  lemma InitialIsEarly(a: Adding, x: Name)
    requires !a.copied && Sub(x, a.m) !in a.creates && x in a.slots
    ensures forall y :: P.Initial(a, y, 0).copy == None
    ensures var v := P.Initial(a, x, 0);
            v.slot.Some? && v.Position() <= v.wal && !v.active && (Sub(x, a.m) !in a.updates ==> v.sub.Enabled?)
  {
  }

  lemma EarlyStreams(a: Adding, s: Exec, w: World, x: Name)
    requires EarlyWorld(a, s, w, x) && (Sub(x, a.m) in a.updates ==> Done(s, Task(Update, Sub(x, a.m))))
    ensures x in w && w[x].Streaming() && w[x].copy == None && w[x].Position() <= w[x].wal && !w[x].active
  {
  }

  lemma NeverEarly(a: Adding, run: seq<Sys>)
    requires (a.Fresh() || a.Resumed()) && IsHistory(a, run)
    ensures !StreamsEarly(a, run)
  {
    var i := |run| - 1;
    ExecHistory(a, run, i);
    ExecHistory(a, run, 0);
    forall x | x in run[i].world ensures !Early(run[i].world[x]) {
      if a.Fresh() {
        NoStreamBeforeCopy(a, run, i, x);
      } else {
        CopyHistory(a, run, 0, i, x);
        assert ProviderInit(a, x, run[0].world[x]);
      }
    }
  }

  /** Something streams before a COPY in some history exactly if a subscription is live and nothing was copied. */
  lemma EarlyIffNotFresh(a: Adding)
    requires a.Valid()
    ensures (exists run :: StreamsEarly(a, run)) <==> !a.Fresh() && !a.copied
  {
    if a.Fresh() || a.copied {
      forall run | IsHistory(a, run) ensures !StreamsEarly(a, run) { NeverEarly(a, run); }
    } else {
      var x :| x in a.Providers() && Sub(x, a.m) !in a.creates;
      var run := BadRun(a, x);
    }
  }

  /**
   When it is safe to add, or to add again, without cleaning up, as far as order goes: no history of
   the add streams into the new node before a COPY exactly if an earlier attempt made the COPY
   that counts, or every subscription into the new node is missing or has lost its slot.  Orphans
   make no difference.
   */
  lemma SafeToAddIff(r: Repair, m: Name, s: Name, copied: bool)
    requires r.Refreshed() && ProperlyNew(r.cfg, m, s) && CopyCounts(r, m, s, copied)
    ensures (forall run :: !StreamsEarly(AddOf(r, m, s, copied), run)) <==> copied || NoneLive(r, m)
  {
    IsAnAdd(r, m, s, copied);
    FreshIffNoneLive(r, m, s, copied);
    EarlyIffNotFresh(AddOf(r, m, s, copied));
  }

  /**
   The retry trap, in the plan: a disabled subscription left behind by a failed add, its slot
   still there, is enabled before the first create of the run begins, so before the COPY.
   */
  lemma LeftoverEnabledFirst(r: Repair, run: seq<Exec>, i: nat, m: Name, p: Name, t: Task)
    requires r.Refreshed() && p in r.Names() && m in r.Names() && p != m
    requires Assess(r.start, Sub(p, m)) == DISABLED
    requires IsRun(r.Plan(), run) && i < |run| && t.action == Create && Started(run[i], t)
    ensures Done(run[i], Task(Update, Sub(p, m)))
    ensures Task(Create, Sub(p, m)) !in run[i].st
  {
    assert InDesired(r.cfg, Sub(p, m));
    DiffOfDesired(r, Sub(p, m));
    RunDeletesFirst(r.AllDeps(), r.Deletes(), r.Updates(), r.Creates(), run, i, Task(Update, Sub(p, m)), t);
    PlanIsPartition(r.AllDeps(), r.Deletes(), r.Updates(), r.Creates());
    RunInv(r.Plan(), run, i);
    if Task(Create, Sub(p, m)) in run[i].st {
      var k := PhaseOf(r.Plan(), Task(Create, Sub(p, m)));
      PlannedIff(r.AllDeps(), r.Deletes(), r.Updates(), r.Creates(), Task(Create, Sub(p, m)));
    }
  }

  // ---------------------------------------------------------------------------------------
  // What can be lost, on what refresh sees
  // ---------------------------------------------------------------------------------------

  /** Before the COPY no subscription into the new node has been enabled. */
  lemma NoneEnabledYet(a: Adding, s: Exec, x: Name)
    requires a.Fresh() && ExecInv(a.Plan(), s) && !Done(s, Task(Create, Sub(a.s, a.m))) && x in a.Providers()
    ensures !Done(s, Task(Create, Sub(x, a.m))) && !Done(s, Task(Update, Sub(x, a.m)))
  {
    if x != a.s && Done(s, Task(Create, Sub(x, a.m))) { BeforePeerSub(a, s, x); }
    if Done(s, Task(Update, Sub(x, a.m))) {
      PlannedTask(a, s, Task(Update, Sub(x, a.m)));
      NewIsConfigured(a.cfg, a.m);
    }
  }

  /**
   The retry trap, end to end: an add onto a clean node stops, anywhere, before its COPY is done.
   Running it again is safe exactly if no peer's subscription had been registered by then.
   */
  lemma RetrySafeIff(r: Repair, run: seq<Repairing>, i: nat, m: Name, s: Name, next: Repair)
    requires r.Refreshed() && ProperlyNew(r.cfg, m, s) && NoneLive(r, m)
    requires IsRepair(r, run) && i < |run| && !Done(run[i].exec, Task(Create, Sub(s, m)))
    requires next.Refreshed() && next.cfg == r.cfg && next.start == run[i].catalog
    ensures (forall h :: !StreamsEarly(AddOf(next, m, s, false), h))
            <==> forall p | p in r.Names() - {m, s} :: !Done(run[i].exec, Task(Create, DisabledSub(p, m)))
  {
    SafeToAddIff(next, m, s, false);
    if p :| p in r.Names() - {m, s} && Done(run[i].exec, Task(Create, DisabledSub(p, m))) {
      Registered(r, run, i, m, s, p, next);
    } else {
      forall x | x in r.Names() - {m} ensures Assess(run[i].catalog, Sub(x, m)) in {MISSING, BROKEN} {
        NotRegistered(r, run, i, m, s, x);
      }
    }
  }

  /** The plan's own state at that point, as the ordering lemmas of the add want it. */
  lemma FreshAt(r: Repair, run: seq<Repairing>, i: nat, m: Name, s: Name) returns (a: Adding)
    requires r.Refreshed() && ProperlyNew(r.cfg, m, s) && NoneLive(r, m) && IsRepair(r, run) && i < |run|
    ensures a.Fresh() && a.m == m && a.s == s && a.cfg == r.cfg && ExecInv(a.Plan(), run[i].exec)
  {
    a := AddOf(r, m, s, false);
    IsAnAdd(r, m, s, false);
    FreshIffNoneLive(r, m, s, false);
    RepairRunInv(r, run, i);
  }

  lemma Registered(r: Repair, run: seq<Repairing>, i: nat, m: Name, s: Name, p: Name, next: Repair)
    requires r.Refreshed() && ProperlyNew(r.cfg, m, s) && NoneLive(r, m) && p in r.Names() - {m, s}
    requires IsRepair(r, run) && i < |run| && !Done(run[i].exec, Task(Create, Sub(s, m)))
    requires Done(run[i].exec, Task(Create, DisabledSub(p, m)))
    requires next.Refreshed() && next.cfg == r.cfg && next.start == run[i].catalog
    ensures Assess(next.start, Sub(p, m)) == DISABLED
  {
    var a := FreshAt(r, run, i, m, s);
    NewIsConfigured(r.cfg, m);
    NoneEnabledYet(a, run[i].exec, p);
    SlotFits(r, p, m);
    NextRunEnables(r, run, i, p, m, next);
  }

  lemma NotRegistered(r: Repair, run: seq<Repairing>, i: nat, m: Name, s: Name, x: Name)
    requires r.Refreshed() && ProperlyNew(r.cfg, m, s) && NoneLive(r, m) && x in r.Names() && x != m
    requires IsRepair(r, run) && i < |run| && !Done(run[i].exec, Task(Create, Sub(s, m)))
    requires x != s ==> !Done(run[i].exec, Task(Create, DisabledSub(x, m)))
    ensures Assess(run[i].catalog, Sub(x, m)) in {MISSING, BROKEN}
  {
    var a := FreshAt(r, run, i, m, s);
    NoneEnabledYet(a, run[i].exec, x);
    if Done(run[i].exec, Task(Create, DisabledSub(s, m))) {
      PlannedTask(a, run[i].exec, Task(Create, DisabledSub(s, m)));
    }
    StillAbsent(r, run, i, m, x);
  }

  /** Neither registered nor created, a subscription that was missing or broken still is. */
  lemma StillAbsent(r: Repair, run: seq<Repairing>, i: nat, m: Name, x: Name)
    requires r.Refreshed() && IsRepair(r, run) && i < |run| && InMesh(r.Names(), Sub(x, m))
    requires Assess(r.start, Sub(x, m)) in {MISSING, BROKEN}
    requires !Done(run[i].exec, Task(Create, Sub(x, m))) && !Done(run[i].exec, Task(Create, DisabledSub(x, m)))
    ensures Assess(run[i].catalog, Sub(x, m)) in {MISSING, BROKEN}
  {
    SubscriptionsExact(r, run, i, x, m);
    if Sub(x, m) in run[i].catalog.subs {
      assert InDesired(r.cfg, Sub(x, m));
      DiffOfDesired(r, Sub(x, m));
      StillBroken(r, run, i, x, m);
    }
  }

  /** Whatever refresh finds, as long as no subscription into the new node is live, the planned add can be completed. */
  lemma SafeAddCompletes(r: Repair, m: Name, s: Name) returns (run: seq<Sys>)
    requires r.Refreshed() && ProperlyNew(r.cfg, m, s) && NoneLive(r, m)
    ensures P.Completed(AddOf(r, m, s, false), run)
  {
    var a := AddOf(r, m, s, false);
    IsAnAdd(r, m, s, false);
    FreshIffNoneLive(r, m, s, false);
    run := P.AddCompletes(a, [P.InitialSys(a, 0)]);
  }

  /**
   A first add, or one after cleaning up, can lose a transaction iff some peer's slot for the source
   is gone when refresh looks.
   */
  lemma AddLosesIff(r: Repair, m: Name, s: Name)
    requires r.Refreshed() && ProperlyNew(r.cfg, m, s) && NoneLive(r, m)
    ensures (exists run, x, k :: Loses(AddOf(r, m, s, false), run, x, k))
            <==> exists p :: p in r.Names() - {m, s} && Hosted(p, Slot(p, s)) !in r.start.slots
  {
    var a := AddOf(r, m, s, false);
    IsAnAdd(r, m, s, false);
    FreshIffNoneLive(r, m, s, false);
    LossIff(a);
    assert a.Peers() == r.Names() - {m, s};
    forall p | p in a.Peers() ensures p in a.feeds <==> Hosted(p, Slot(p, s)) in r.start.slots {}
  }

  /** A retry after the COPY can leave out a transaction iff some node's slot for the new one is gone. */
  lemma RetryAddLosesIff(r: Repair, m: Name, s: Name)
    requires r.Refreshed() && ProperlyNew(r.cfg, m, s) && CopyCounts(r, m, s, true)
    ensures (exists run, x, k :: LeavesOut(AddOf(r, m, s, true), run, x, k))
            <==> exists p :: p in r.Names() - {m} && Hosted(p, Slot(p, m)) !in r.start.slots
  {
    var a := AddOf(r, m, s, true);
    IsAnAdd(r, m, s, true);
    RetryLosesIff(a);
    forall p | p in a.Providers() ensures p in a.slots <==> Hosted(p, Slot(p, m)) in r.start.slots {}
  }

  /** With every subscription into the new node healthy, a run is a re-run in AddNodeRetry's sense. */
  lemma HealthyIsRerun(r: Repair, m: Name, s: Name)
    requires r.Refreshed() && ProperlyNew(r.cfg, m, s)
    requires forall x | x in r.Names() - {m} :: Assess(r.start, Sub(x, m)) == HEALTHY
    ensures Rerun(AddOf(r, m, s, true))
  {
    var a := AddOf(r, m, s, true);
    IsAnAdd(r, m, s, true);
    NewIsConfigured(r.cfg, m);
    forall x | x in a.Providers()
      ensures Sub(x, m) !in a.creates && Sub(x, m) !in a.updates && Sub(x, m) !in a.deletes
    {
      assert InDesired(r.cfg, Sub(x, m));
      DiffOfDesired(r, Sub(x, m));
    }
  }

  /**
   Adding two nodes at once to whatever mesh there is: as long as no subscription of either is live,
   the creates of the run fall back unless the two are the whole configuration.
   */
  lemma TwoAddsFallBack(r: Repair, m: Name, a: Name, n: Name, b: Name)
    requires r.Refreshed() && TwoNew(r.cfg, m, a, n, b)
    requires forall x, y | x in r.Names() && y in r.Names() && x != y && (x in {m, n} || y in {m, n}) ::
               Assess(r.start, Sub(x, y)) in {MISSING, BROKEN}
    ensures var links := LinksOn(r.Creates(), r.deps, false);
            FellBack(Layers(r.Creates(), links), links) <==> r.Names() != {m, n}
  {
    forall id | id in r.deps && (id.Ephemeral() || (id.Sub? && (id.src in {m, n} || id.dst in {m, n})))
      ensures id in r.Creates()
    {
      DesiredIsOurs(r, id);
      DiffOfDesired(r, id);
    }
    TwoNewIff(r.cfg, r.deps, r.Creates(), m, a, n, b);
  }
}
