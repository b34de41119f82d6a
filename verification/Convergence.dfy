/**
 What a whole reconcile does to the catalogs: refresh, plan and execute, for any configuration
 and from any catalog state.

 Slots are never created by their own Create, which does nothing; they appear because the
 subscription of the same pair is created.  Orphans are deleted through one object per
 identifier, so a name that two survivors report is removed on only one of them.
 */
module Convergence {
  import opened Resources
  import opened Layering
  import opened Planning
  import opened Executor
  import opened Desired
  import opened DesiredOrder
  import opened Refresh

  // ---------------------------------------------------------------------------------------
  // One reconcile
  // ---------------------------------------------------------------------------------------

  /** The identifiers under which orphans are deleted; node keys lose their survivor. */
  ghost function Orphans(names: set<Name>, c: Catalog): set<Identifier> {
    (set f | f in c.foreign && OrphanNode(names, c, f.orphan, f.survivor) :: Node(f.orphan))
    + (set f | f in c.foreign && OrphanNode(names, c, f.orphan, f.survivor) :: Sub(f.orphan, f.survivor))
    + (set h | h in c.slots && OrphanSlot(names, c, h.host, h.slot) :: h.slot)
  }

  /** The orphan id is visible from survivor x, which is where its Delete would act. */
  ghost predicate SeenFrom(names: set<Name>, c: Catalog, id: Identifier, x: Name) {
    match id
    case Node(o) => OrphanNode(names, c, o, x)
    case Slot(_, _) => OrphanSlot(names, c, x, id)
    case RawSlot(_) => OrphanSlot(names, c, x, id)
    case _ => false
  }

  function OrphanDeps(id: Identifier, host: Name): seq<Identifier> {
    match id
    case Node(o) => [User(o)]
    case Sub(o, x) => [Node(o), Node(x), Slot(o, x)]
    case _ => [Node(host)]
  }

  ghost predicate ProperlyNew(cfg: Config, m: Name, s: Name) {
    OnlyNew(cfg, m, s) && s in NamesOf(cfg) && s != m
  }

  /**
   Desired dependencies, the catalog refresh saw, and for everything planned the database its object
   works on: for an orphan node or slot, the survivor whose object is the one that is kept.
   */
  datatype Repair = Repair(cfg: Config, deps: Deps, start: Catalog, where: map<Identifier, Name>) {
    ghost function Names(): set<Name> {
      NamesOf(cfg)
    }

    ghost function Assessed(): map<Identifier, Status> {
      map id | id in deps :: Assess(start, id)
    }

    ghost function Actual(): set<Identifier> {
      (set id | id in deps && Inspect(start, id).exists_) + Orphans(Names(), start)
    }

    ghost function Deletes(): set<Identifier> {
      Deleted(Actual(), Assessed())
    }

    ghost function Updates(): set<Identifier> {
      Updated(Actual(), Assessed())
    }

    ghost function Creates(): set<Identifier> {
      Created(Actual(), Assessed())
    }

    ghost function AllDeps(): Deps {
      map id | id in deps.Keys + Orphans(Names(), start) ::
        if id in deps then deps[id] else OrphanDeps(id, if id in where then where[id] else Named(""))
    }

    ghost function Plan(): seq<set<Task>> {
      PlanOf(AllDeps(), Deletes(), Updates(), Creates())
    }

    /** deps and where are what one refresh of this configuration and catalog can come up with. */
    ghost predicate Refreshed() {
      && IsDesiredGraph(cfg, deps) && CatalogOk(start)
      && (forall id | id in deps :: id in where && where[id] == Home(id))
      && forall id | id in Orphans(Names(), start) ::
           id in where && if id.Sub? then where[id] == id.dst else SeenFrom(Names(), start, id, where[id])
    }

    /** No node is being bootstrapped, or a single one from another configured node: topoSort has no cycle to break. */
    ghost predicate Ordered() {
      Refreshed() && (NoNew(cfg) || exists m, s :: ProperlyNew(cfg, m, s))
    }
  }

  // ---------------------------------------------------------------------------------------
  // Effects on the catalogs
  // ---------------------------------------------------------------------------------------

  /** The slot sub_create makes, and sub_drop may take away, on the provider. */
  function ProviderSlot(sub: Identifier): Hosted
    requires sub.Sub?
  {
    Hosted(sub.src, Slot(sub.src, sub.dst))
  }

  /**
   The catalog after a task that returned success on database x.  Subscriptions and local nodes made
   on any other database than their own are not among those the catalog lists.
   */
  ghost predicate EffectAt(x: Name, t: Task, c: Catalog, c': Catalog) {
    match t
    case Task(Create, User(_)) => c' == c.(users := c.users + {x})
    case Task(Create, Node(n)) => c' == if x == n then c.(nodes := c.nodes + {n}) else c
    case Task(Create, SlotCreate(p, m)) => c' == c.(slots := c.slots + {Hosted(x, Slot(p, m))})
    case Task(Create, DisabledSub(p, m)) =>
      c' == if x != m || Sub(p, m) in c.subs then c else c.(subs := c.subs[Sub(p, m) := false])
    case Task(Create, Sub(_, b)) =>
      if x != b then c' == c
      else if t.id in c.subs then c' == c.(subs := c.subs[t.id := true])
      else c' == c.(subs := c.subs[t.id := true], slots := c.slots + {ProviderSlot(t.id)})
    case Task(Update, Sub(_, b)) => if x != b then c' == c else t.id in c.subs && c' == c.(subs := c.subs[t.id := true])
    case Task(Delete, Sub(_, b)) =>
      if x != b then c' == c
      else || c' == c.(subs := c.subs - {t.id})
           || c' == c.(subs := c.subs - {t.id}, slots := c.slots - {ProviderSlot(t.id)})
    case Task(Delete, Node(o)) => c' == c.(foreign := c.foreign - {Foreign(x, o)})
    case Task(Delete, Slot(_, _)) => c' == c.(slots := c.slots - {Hosted(x, t.id)})
    case Task(Delete, RawSlot(_)) => c' == c.(slots := c.slots - {Hosted(x, t.id)})
    case _ => c' == c
  }

  ghost predicate CatalogEffect(where: map<Identifier, Name>, t: Task, c: Catalog, c': Catalog) {
    t.id in where && EffectAt(where[t.id], t, c, c')
  }

  datatype Repairing = Repairing(exec: Exec, catalog: Catalog)

  /** A step of Execute over the plan, with its effect on the catalogs. */
  ghost predicate WorkStep(plan: seq<set<Task>>, where: map<Identifier, Name>, z: Repairing, z': Repairing,
                           step: ExecStep) {
    && ExecNext(plan, z.exec, z'.exec, step)
    && if step.Succeed? then CatalogEffect(where, step.t, z.catalog, z'.catalog) else z'.catalog == z.catalog
  }

  ghost predicate Works(plan: seq<set<Task>>, where: map<Identifier, Name>, z: Repairing, z': Repairing) {
    exists step :: WorkStep(plan, where, z, z', step)
  }

  ghost predicate IsWork(plan: seq<set<Task>>, where: map<Identifier, Name>, start: Catalog, run: seq<Repairing>) {
    && |run| > 0 && ExecInit(plan, run[0].exec) && run[0].catalog == start
    && forall i | 0 < i < |run| :: Works(plan, where, run[i - 1], run[i])
  }

  ghost predicate IsRepair(r: Repair, run: seq<Repairing>) {
    IsWork(r.Plan(), r.where, r.start, run)
  }

  /** Every phase has been left: Execute returned nil. */
  ghost predicate Finished(r: Repair, z: Repairing) {
    z.exec.phase == |r.Plan()|
  }

  /** The next refresh finds every desired resource healthy, and no orphan. */
  ghost predicate Settled(cfg: Config, c: Catalog) {
    && (forall id | InDesired(cfg, id) :: Assess(c, id) == HEALTHY)
    && (forall k :: !Orphan(NamesOf(cfg), c, k))
  }

  /** Roles, nodes, slots and enabled subscriptions of a full mesh, where they belong. */
  ghost predicate MeshUp(names: set<Name>, c: Catalog) {
    && (forall n | n in names :: n in c.users && n in c.nodes)
    && forall a, b | a in names && b in names && a != b ::
         Sub(a, b) in c.subs && c.subs[Sub(a, b)] && Hosted(a, Slot(a, b)) in c.slots
  }

  lemma HealthyIffMeshUp(names: set<Name>, c: Catalog)
    ensures (forall id | InMesh(names, id) :: Assess(c, id) == HEALTHY) <==> MeshUp(names, c)
  {
    if forall id | InMesh(names, id) :: Assess(c, id) == HEALTHY {
      forall n | n in names ensures n in c.users && n in c.nodes {
        assert InMesh(names, User(n)) && InMesh(names, Node(n));
      }
      forall a, b | a in names && b in names && a != b
        ensures Sub(a, b) in c.subs && c.subs[Sub(a, b)] && Hosted(a, Slot(a, b)) in c.slots
      {
        assert InMesh(names, Sub(a, b));
      }
    }
  }

  /** Every spk_ slot of a configured node is the slot of a pair of the mesh, and every listed node is configured. */
  ghost predicate NoStrangers(names: set<Name>, c: Catalog) {
    && (forall h | h in c.slots && h.host in names :: InMesh(names, h.slot))
    && (forall f | f in c.foreign && f.survivor in names :: f.orphan in names)
  }

  /** What a settled catalog looks like. */
  lemma SettledIff(cfg: Config, c: Catalog)
    requires CatalogOk(c)
    ensures Settled(cfg, c) <==> NoNew(cfg) && MeshUp(NamesOf(cfg), c) && NoStrangers(NamesOf(cfg), c)
  {
    var names := NamesOf(cfg);
    HealthyIffMeshUp(names, c);
    if !NoNew(cfg) { BootstrapNeverSettles(cfg, c); }
    if Settled(cfg, c) {
      assert forall id | InMesh(names, id) :: InDesired(cfg, id);
      forall h | h in c.slots && h.host in names ensures InMesh(names, h.slot) {
        if !InMesh(names, h.slot) { assert OrphanSlot(names, c, h.host, h.slot) && Orphan(names, c, h.slot); }
      }
      forall f | f in c.foreign && f.survivor in names ensures f.orphan in names {
        if f.orphan !in names { assert Orphan(names, c, NodeAt(f.orphan, f.survivor)); }
      }
    }
    if NoNew(cfg) && MeshUp(names, c) && NoStrangers(names, c) {
      assert forall m :: SourceOf(cfg, m) == None;
      assert forall id :: InDesired(cfg, id) ==> InMesh(names, id);
      forall k ensures !Orphan(names, c, k) {
        if Orphan(names, c, k) { var x := WhereOrphan(names, c, k); }
      }
    }
  }

  /** No orphan node or slot name is visible from two survivors. */
  ghost predicate OneSurvivorEach(names: set<Name>, c: Catalog) {
    forall id, x, y :: SeenFrom(names, c, id, x) && SeenFrom(names, c, id, y) ==> x == y
  }

  // ---------------------------------------------------------------------------------------
  // Invariant
  // ---------------------------------------------------------------------------------------

  ghost function DoneTasks(s: Exec): set<Task> {
    set t | t in s.st && s.st[t] == Ok
  }

  /** The object deleted under id acted on survivor x. */
  ghost predicate Gone(where: map<Identifier, Name>, done: set<Task>, id: Identifier, x: Name) {
    Task(Delete, id) in done && id in where && where[id] == x
  }

  predicate HealthySub(c: Catalog, sub: Identifier) {
    sub.Sub? && sub in c.subs && c.subs[sub] && ProviderSlot(sub) in c.slots
  }

  predicate HasSlot(c: Catalog, sub: Identifier)
    requires sub.Sub?
  {
    ProviderSlot(sub) in c.slots
  }

  /** The slot is there, or a populate chain still to run creates it. */
  predicate SlotComes(n: set<Identifier>, c: Catalog, sub: Identifier)
    requires sub.Sub?
  {
    HasSlot(c, sub) || SlotCreate(sub.src, sub.dst) in n
  }

  /**
   Created: enabled, and its slot there or coming.  To be created: still there if its delete is
   pending, otherwise absent or registered, disabled, by a populate chain.  To be enabled: has
   its slot.  Enabled again or never broken: healthy.
   */
  ghost predicate SubInv(d: set<Identifier>, u: set<Identifier>, n: set<Identifier>, done: set<Task>, c: Catalog,
                         sub: Identifier)
    requires sub.Sub?
  {
    if Task(Create, sub) in done then sub in c.subs && c.subs[sub] && SlotComes(n, c, sub)
    else if sub in n then
      if sub in d && Task(Delete, sub) !in done then sub in c.subs
      else sub in c.subs ==>
             !c.subs[sub] && SlotCreate(sub.src, sub.dst) in n && Task(Create, DisabledSub(sub.src, sub.dst)) in done
    else if Task(Update, sub) in done || sub !in u then HealthySub(c, sub)
    else sub in c.subs && HasSlot(c, sub)
  }

  /** Exactly which subscriptions there are, and which are enabled, orphans included. */
  ghost predicate SubsExact(start: Catalog, done: set<Task>, c: Catalog) {
    forall a, b :: SubExact(start, done, c, a, b)
  }

  ghost predicate SubExact(start: Catalog, done: set<Task>, c: Catalog, a: Name, b: Name) {
    var sub := Sub(a, b);
    var kept := sub in start.subs && Task(Delete, sub) !in done;
    && (sub in c.subs <==> kept || Task(Create, DisabledSub(a, b)) in done || Task(Create, sub) in done)
    && (Task(Update, sub) in done ==> sub in c.subs)
    && (sub in c.subs ==>
          (c.subs[sub] <==>
            (kept && start.subs[sub]) || Task(Update, sub) in done || Task(Create, sub) in done))
  }

  /** A slot is there only if it was, or was made on its provider; one that was there goes only with a delete. */
  ghost predicate SlotsFrom(start: Catalog, done: set<Task>, c: Catalog) {
    forall x, a, b :: SlotFrom(start, done, c, x, a, b)
  }

  ghost predicate SlotFrom(start: Catalog, done: set<Task>, c: Catalog, x: Name, a: Name, b: Name) {
    var h := Hosted(x, Slot(a, b));
    && (h in c.slots ==>
          h in start.slots
          || (x == a && (Task(Create, SlotCreate(a, b)) in done || Task(Create, Sub(a, b)) in done)))
    && (h in start.slots && Task(Delete, Sub(a, b)) !in done && Task(Delete, Slot(a, b)) !in done ==> h in c.slots)
  }

  ghost predicate SubsInv(names: set<Name>, d: set<Identifier>, u: set<Identifier>, n: set<Identifier>,
                          done: set<Task>, c: Catalog) {
    && (forall a, b | a in names && b in names && a != b :: SubInv(d, u, n, done, c, Sub(a, b)))
    && (forall a, b | a in names && b in names && a != b && Task(Create, SlotCreate(a, b)) in done ::
          HasSlot(c, Sub(a, b)))
  }

  ghost predicate MembersInv(start: Catalog, done: set<Task>, c: Catalog) {
    && (forall x :: x in c.users <==> x in start.users || Task(Create, User(x)) in done)
    && (forall x :: x in c.nodes <==> x in start.nodes || Task(Create, Node(x)) in done)
  }

  ghost predicate OrphansInv(names: set<Name>, where: map<Identifier, Name>, start: Catalog, done: set<Task>,
                             c: Catalog) {
    forall id, x :: SeenFrom(names, c, id, x) <==> SeenFrom(names, start, id, x) && !Gone(where, done, id, x)
  }

  /**
   What can be planned: deletes of orphans and of mesh subscriptions, updates of mesh
   subscriptions, mesh creates, and populate resources between configured nodes.
   */
  ghost predicate Plannable(names: set<Name>, d: set<Identifier>, u: set<Identifier>, n: set<Identifier>, t: Task) {
    match t
    case Task(Delete, Sub(a, b)) => InMesh(names, t.id) || a !in names
    case Task(Delete, Node(o)) => o !in names
    case Task(Delete, id) => (id.Slot? || id.RawSlot?) && !InMesh(names, id)
    case Task(Update, id) => id.Sub? && InMesh(names, id) && id !in n
    case Task(Create, SlotCreate(a, b)) => InMesh(names, Slot(a, b))
    case Task(Create, DisabledSub(a, b)) => InMesh(names, Slot(a, b)) && SlotCreate(a, b) in n
    case Task(Create, id) => id.Ephemeral() || (InMesh(names, id) && id !in u)
  }

  /** Desired resources work at home, orphan subscriptions on their survivor. */
  ghost predicate SitedAt(names: set<Name>, t: Task, x: Name) {
    && (InMesh(names, t.id) || t.id.Ephemeral() ==> x == Home(t.id))
    && (t.id.Sub? ==> x == t.id.dst)
  }

  /** What the phase order gives a task that is about to succeed. */
  ghost predicate InOrder(names: set<Name>, d: set<Identifier>, u: set<Identifier>, n: set<Identifier>,
                          done: set<Task>, t: Task) {
    && t.id in TargetsOf(t.action, d, u, n)
    && (t.action == Delete ==> (forall id :: Task(Create, id) !in done && Task(Update, id) !in done)
                               && (InMesh(names, t.id) ==> t.id in n))
    && (t.action == Create ==> forall id | id in d :: Task(Delete, id) in done)
    && (t.action == Create ==> forall id | id in u :: Task(Update, id) in done)
  }

  lemma SubsStep(names: set<Name>, d: set<Identifier>, u: set<Identifier>, n: set<Identifier>,
                 x: Name, done: set<Task>, t: Task, c: Catalog, c': Catalog)
    requires SubsInv(names, d, u, n, done, c) && EffectAt(x, t, c, c') && Plannable(names, d, u, n, t)
    requires InOrder(names, d, u, n, done, t) && SitedAt(names, t, x)
    ensures SubsInv(names, d, u, n, done + {t}, c')
  {
    forall a, b | a in names && b in names && a != b
      ensures SubInv(d, u, n, done + {t}, c', Sub(a, b))
      ensures Task(Create, SlotCreate(a, b)) in done + {t} ==> HasSlot(c', Sub(a, b))
    {
      assert SubInv(d, u, n, done, c, Sub(a, b));
      assert InMesh(names, Slot(a, b));
    }
  }

  lemma ExactStep(names: set<Name>, d: set<Identifier>, u: set<Identifier>, n: set<Identifier>,
                  x: Name, start: Catalog, done: set<Task>, t: Task, c: Catalog, c': Catalog)
    requires SubsExact(start, done, c) && EffectAt(x, t, c, c') && InOrder(names, d, u, n, done, t)
    requires SitedAt(names, t, x)
    ensures SubsExact(start, done + {t}, c')
  {
    forall a, b ensures SubExact(start, done + {t}, c', a, b) {
      assert SubExact(start, done, c, a, b);
    }
  }

  lemma SlotsStep(names: set<Name>, x: Name, start: Catalog, done: set<Task>, t: Task, c: Catalog, c': Catalog)
    requires SlotsFrom(start, done, c) && EffectAt(x, t, c, c') && SitedAt(names, t, x)
    ensures SlotsFrom(start, done + {t}, c')
  {
    forall y, a, b ensures SlotFrom(start, done + {t}, c', y, a, b) {
      assert SlotFrom(start, done, c, y, a, b);
    }
  }

  lemma MembersStep(names: set<Name>, d: set<Identifier>, u: set<Identifier>, n: set<Identifier>,
                    x: Name, start: Catalog, done: set<Task>, t: Task, c: Catalog, c': Catalog)
    requires MembersInv(start, done, c) && EffectAt(x, t, c, c') && Plannable(names, d, u, n, t)
    requires SitedAt(names, t, x)
    ensures MembersInv(start, done + {t}, c')
  {
  }

  lemma OrphansStep(names: set<Name>, d: set<Identifier>, u: set<Identifier>, n: set<Identifier>,
                    where: map<Identifier, Name>, start: Catalog, done: set<Task>, t: Task, c: Catalog, c': Catalog)
    requires OrphansInv(names, where, start, done, c) && CatalogEffect(where, t, c, c') && Plannable(names, d, u, n, t)
    requires SitedAt(names, t, where[t.id])
    ensures OrphansInv(names, where, start, done + {t}, c')
  {
    forall id, x
      ensures SeenFrom(names, c', id, x) <==> SeenFrom(names, start, id, x) && !Gone(where, done + {t}, id, x) {
      assert SeenFrom(names, c, id, x) <==> SeenFrom(names, start, id, x) && !Gone(where, done, id, x);
    }
  }

  ghost predicate CatalogInv(names: set<Name>, d: set<Identifier>, u: set<Identifier>, n: set<Identifier>,
                             where: map<Identifier, Name>, start: Catalog, done: set<Task>, c: Catalog) {
    && SubsInv(names, d, u, n, done, c) && SubsExact(start, done, c) && SlotsFrom(start, done, c)
    && MembersInv(start, done, c)
    && OrphansInv(names, where, start, done, c)
  }

  lemma CatalogStep(names: set<Name>, d: set<Identifier>, u: set<Identifier>, n: set<Identifier>,
                    where: map<Identifier, Name>, start: Catalog, done: set<Task>, t: Task, c: Catalog, c': Catalog)
    requires CatalogInv(names, d, u, n, where, start, done, c)
    requires CatalogEffect(where, t, c, c') && Plannable(names, d, u, n, t)
    requires InOrder(names, d, u, n, done, t) && SitedAt(names, t, where[t.id])
    ensures CatalogInv(names, d, u, n, where, start, done + {t}, c')
  {
    var x := where[t.id];
    SubsStep(names, d, u, n, x, done, t, c, c');
    ExactStep(names, d, u, n, x, start, done, t, c, c');
    SlotsStep(names, x, start, done, t, c, c');
    MembersStep(names, d, u, n, x, start, done, t, c, c');
    OrphansStep(names, d, u, n, where, start, done, t, c, c');
  }

  // ---------------------------------------------------------------------------------------
  // What is planned
  // ---------------------------------------------------------------------------------------

  lemma OrphanCases(names: set<Name>, c: Catalog, id: Identifier)
    requires CatalogOk(c) && id in Orphans(names, c)
    ensures !InMesh(names, id) && !id.Ephemeral()
    ensures id.Node? || (id.Sub? && id.src !in names) || ((id.Slot? || id.RawSlot?) && !InMesh(names, id))
    ensures !id.Sub? ==> exists x :: SeenFrom(names, c, id, x)
  {
    if h :| h in c.slots && OrphanSlot(names, c, h.host, h.slot) && id == h.slot {
      assert SeenFrom(names, c, id, h.host);
    } else if f :| f in c.foreign && OrphanNode(names, c, f.orphan, f.survivor) && id == Node(f.orphan) {
      assert SeenFrom(names, c, id, f.survivor);
    }
  }

  lemma SeenIsOrphan(names: set<Name>, c: Catalog, id: Identifier, x: Name)
    requires SeenFrom(names, c, id, x)
    ensures id in Orphans(names, c)
  {
    if id.Node? {
      assert Foreign(x, id.node) in c.foreign;
    } else {
      assert Hosted(x, id) in c.slots;
    }
  }

  /** Desired resources are never orphans; populate resources stand between configured nodes. */
  lemma DesiredIsOurs(r: Repair, id: Identifier)
    requires r.Refreshed() && id in r.deps
    ensures InMesh(r.Names(), id) || id.Ephemeral()
    ensures id !in Orphans(r.Names(), r.start)
    ensures id.SlotCreate? ==> InMesh(r.Names(), Slot(id.provider, id.subscriber))
    ensures id.DisabledSub? ==> InMesh(r.Names(), Slot(id.src, id.dst)) && SlotCreate(id.src, id.dst) in r.deps
  {
    assert InDesired(r.cfg, id);
    if id.Ephemeral() {
      var m :| Populates(r.cfg, m, id);
      NewIsConfigured(r.cfg, m);
      if id.DisabledSub? {
        assert Populates(r.cfg, m, SlotCreate(id.src, id.dst));
        assert InDesired(r.cfg, SlotCreate(id.src, id.dst));
      }
    }
    if id in Orphans(r.Names(), r.start) {
      OrphanCases(r.Names(), r.start, id);
    }
  }

  /** The diff of a desired resource depends on its assessment alone. */
  lemma DiffOfDesired(r: Repair, id: Identifier)
    requires r.Refreshed() && id in r.deps
    ensures id in r.Deletes() <==> Assess(r.start, id) == BROKEN
    ensures id in r.Updates() <==> Assess(r.start, id) == DISABLED
    ensures id in r.Creates() <==> Assess(r.start, id) in {BROKEN, MISSING}
    ensures Assess(r.start, id) in {BROKEN, DISABLED} ==> id.Sub?
    ensures id.Ephemeral() ==> Assess(r.start, id) == MISSING
  {
    DesiredIsOurs(r, id);
  }

  lemma DiffOfOther(r: Repair, id: Identifier)
    requires r.Refreshed() && id !in r.deps
    ensures id in r.Deletes() <==> id in Orphans(r.Names(), r.start)
    ensures id !in r.Updates() && id !in r.Creates()
  {
  }

  lemma PlannedIsPlannable(r: Repair, t: Task)
    requires r.Refreshed() && t.id in TargetsOf(t.action, r.Deletes(), r.Updates(), r.Creates())
    ensures Plannable(r.Names(), r.Deletes(), r.Updates(), r.Creates(), t)
    ensures t.id in r.where && SitedAt(r.Names(), t, r.where[t.id])
    ensures t.action == Delete && InMesh(r.Names(), t.id) ==> t.id in r.Creates()
  {
    if t.id in r.deps {
      DesiredIsOurs(r, t.id);
      DiffOfDesired(r, t.id);
      if t.id.DisabledSub? { DiffOfDesired(r, SlotCreate(t.id.src, t.id.dst)); }
    } else {
      DiffOfOther(r, t.id);
      OrphanCases(r.Names(), r.start, t.id);
    }
  }

  // ---------------------------------------------------------------------------------------
  // The invariant over whole runs
  // ---------------------------------------------------------------------------------------

  ghost predicate RepairInv(r: Repair, z: Repairing) {
    && ExecInv(r.Plan(), z.exec)
    && CatalogInv(r.Names(), r.Deletes(), r.Updates(), r.Creates(), r.where, r.start, DoneTasks(z.exec), z.catalog)
  }

  lemma InitSubs(r: Repair, done: set<Task>)
    requires r.Refreshed() && done == {}
    ensures SubsInv(r.Names(), r.Deletes(), r.Updates(), r.Creates(), done, r.start)
  {
    forall a, b | a in r.Names() && b in r.Names() && a != b
      ensures SubInv(r.Deletes(), r.Updates(), r.Creates(), done, r.start, Sub(a, b))
    {
      assert InDesired(r.cfg, Sub(a, b));
      DiffOfDesired(r, Sub(a, b));
    }
  }

  lemma InitCatalog(names: set<Name>, where: map<Identifier, Name>, c: Catalog)
    ensures SubsExact(c, {}, c) && SlotsFrom(c, {}, c) && MembersInv(c, {}, c) && OrphansInv(names, where, c, {}, c)
  {
  }

  lemma InitRepair(r: Repair, z: Repairing)
    requires r.Refreshed() && ExecInit(r.Plan(), z.exec) && z.catalog == r.start
    ensures RepairInv(r, z)
  {
    InitInv(r.Plan(), z.exec);
    assert DoneTasks(z.exec) == {};
    InitSubs(r, {});
    InitCatalog(r.Names(), r.where, r.start);
  }

  /** The phase order, for a task that is about to return success. */
  lemma SucceedsInOrder(r: Repair, s: Exec, t: Task)
    requires r.Refreshed() && ExecInv(r.Plan(), s) && t in s.st && s.st[t] == Running
    ensures InOrder(r.Names(), r.Deletes(), r.Updates(), r.Creates(), DoneTasks(s), t)
  {
    StartedIsTarget(r, s, t);
    PlannedIsPlannable(r, t);
    OrderOfSuccess(r.AllDeps(), r.Deletes(), r.Updates(), r.Creates(), s, t);
  }

  lemma OrderOfSuccess(deps: Deps, d: set<Identifier>, u: set<Identifier>, n: set<Identifier>, s: Exec, t: Task)
    requires ExecInv(PlanOf(deps, d, u, n), s) && t in s.st && s.st[t] == Running
             && t.id in TargetsOf(t.action, d, u, n)
    ensures t.action == Delete ==> forall id :: Task(Create, id) !in DoneTasks(s) && Task(Update, id) !in DoneTasks(s)
    ensures t.action == Create ==> forall id | id in d :: Task(Delete, id) in DoneTasks(s)
    ensures t.action == Create ==> forall id | id in u :: Task(Update, id) in DoneTasks(s)
  {
    if t.action == Delete {
      forall id ensures Task(Create, id) !in DoneTasks(s) && Task(Update, id) !in DoneTasks(s) {
        if Task(Create, id) in DoneTasks(s) { InvDeletesFirst(deps, d, u, n, s, t, Task(Create, id)); }
        if Task(Update, id) in DoneTasks(s) { InvDeletesFirst(deps, d, u, n, s, t, Task(Update, id)); }
      }
    }
    if t.action == Create {
      forall id | id in d ensures Task(Delete, id) in DoneTasks(s) {
        InvDeletesFirst(deps, d, u, n, s, Task(Delete, id), t);
      }
      forall id | id in u ensures Task(Update, id) in DoneTasks(s) {
        InvDeletesFirst(deps, d, u, n, s, Task(Update, id), t);
      }
    }
  }

  lemma StartedIsTarget(r: Repair, s: Exec, t: Task)
    requires ExecInv(r.Plan(), s) && Started(s, t)
    ensures t.id in TargetsOf(t.action, r.Deletes(), r.Updates(), r.Creates())
  {
    var k := PhaseOf(r.Plan(), t);
    PlannedIff(r.AllDeps(), r.Deletes(), r.Updates(), r.Creates(), t);
  }

  /** Only a task that returns success adds to the done tasks. */
  lemma DoneGrows(plan: seq<set<Task>>, s: Exec, s': Exec, step: ExecStep)
    requires ExecNext(plan, s, s', step)
    ensures DoneTasks(s') == DoneTasks(s) + if step.Succeed? then {step.t} else {}
  {
  }

  lemma SuccessKeeps(r: Repair, s: Exec, t: Task, c: Catalog, c': Catalog)
    requires r.Refreshed() && ExecInv(r.Plan(), s) && t in s.st && s.st[t] == Running
    requires CatalogInv(r.Names(), r.Deletes(), r.Updates(), r.Creates(), r.where, r.start, DoneTasks(s), c)
    requires CatalogEffect(r.where, t, c, c')
    ensures CatalogInv(r.Names(), r.Deletes(), r.Updates(), r.Creates(), r.where, r.start, DoneTasks(s) + {t}, c')
  {
    SucceedsInOrder(r, s, t);
    StartedIsTarget(r, s, t);
    PlannedIsPlannable(r, t);
    CatalogStep(r.Names(), r.Deletes(), r.Updates(), r.Creates(), r.where, r.start, DoneTasks(s), t, c, c');
  }

  lemma StepCatalog(r: Repair, z: Repairing, z': Repairing, step: ExecStep, done: set<Task>, done': set<Task>)
    requires r.Refreshed() && ExecInv(r.Plan(), z.exec) && WorkStep(r.Plan(), r.where, z, z', step)
    requires done == DoneTasks(z.exec) && done' == done + if step.Succeed? then {step.t} else {}
    requires CatalogInv(r.Names(), r.Deletes(), r.Updates(), r.Creates(), r.where, r.start, done, z.catalog)
    ensures CatalogInv(r.Names(), r.Deletes(), r.Updates(), r.Creates(), r.where, r.start, done', z'.catalog)
  {
    if step.Succeed? {
      SuccessKeeps(r, z.exec, step.t, z.catalog, z'.catalog);
    } else {
      assert done' == done;
    }
  }

  lemma StepRepair(r: Repair, z: Repairing, z': Repairing, step: ExecStep)
    requires r.Refreshed() && RepairInv(r, z) && WorkStep(r.Plan(), r.where, z, z', step)
    ensures RepairInv(r, z')
  {
    StepExec(r, z, z', step);
    DoneGrows(r.Plan(), z.exec, z'.exec, step);
    StepCatalog(r, z, z', step, DoneTasks(z.exec), DoneTasks(z'.exec));
  }

  lemma RepairsKeeps(r: Repair, z: Repairing, z': Repairing)
    requires r.Refreshed() && RepairInv(r, z) && Works(r.Plan(), r.where, z, z')
    ensures RepairInv(r, z')
  {
    var step :| WorkStep(r.Plan(), r.where, z, z', step);
    StepRepair(r, z, z', step);
  }

  lemma StepExec(r: Repair, z: Repairing, z': Repairing, step: ExecStep)
    requires ExecInv(r.Plan(), z.exec) && WorkStep(r.Plan(), r.where, z, z', step)
    ensures ExecInv(r.Plan(), z'.exec)
  {
    PlanIsPartition(r.AllDeps(), r.Deletes(), r.Updates(), r.Creates());
    NextInv(r.Plan(), z.exec, z'.exec, step);
  }

  lemma {:induction false} RepairRunInv(r: Repair, run: seq<Repairing>, i: nat)
    requires r.Refreshed() && IsRepair(r, run) && i < |run|
    ensures RepairInv(r, run[i])
  {
    if i == 0 {
      InitRepair(r, run[0]);
    } else {
      RepairRunInv(r, run, i - 1);
      RepairsKeeps(r, run[i - 1], run[i]);
    }
  }

  // ---------------------------------------------------------------------------------------
  // Safety in every reachable state
  // ---------------------------------------------------------------------------------------

  /** A rank over desired resources and orphans; m and s do not matter when no node is new. */
  function RepairRank(m: Name, s: Name, id: Identifier, ours: bool): nat {
    if ours then Rank(m, s, id) else 13 + MeshRank(id)
  }

  lemma AllEdgesDescend(r: Repair, m: Name, s: Name, x: Identifier, y: Identifier)
    requires r.Refreshed() && (NoNew(r.cfg) || ProperlyNew(r.cfg, m, s))
    requires x in r.AllDeps() && y in r.AllDeps()[x]
    ensures x in r.deps ==> y in r.deps
    ensures RepairRank(m, s, y, y in r.deps) < RepairRank(m, s, x, x in r.deps) <= 16
  {
    if x in r.deps {
      if NoNew(r.cfg) { MeshEdgeDescends(r.cfg, r.deps, x, y); MeshRankIsRank(r, m, s, x); MeshRankIsRank(r, m, s, y); }
      else { EdgeDescends(r.cfg, r.deps, m, s, x, y); }
    } else {
      OrphanCases(r.Names(), r.start, x);
    }
  }

  lemma MeshRankIsRank(r: Repair, m: Name, s: Name, x: Identifier)
    requires r.Refreshed() && NoNew(r.cfg) && x in r.deps
    ensures InMesh(r.Names(), x)
    ensures if x.Sub? then MeshRank(x) == 3 <= Rank(m, s, x) else MeshRank(x) == Rank(m, s, x) <= 2
  {
    assert InDesired(r.cfg, x);
    assert forall k :: SourceOf(r.cfg, k) == None;
  }

  lemma AllIsAcyclic(r: Repair, ids: set<Identifier>, reverse: bool)
    requires r.Ordered() && ids <= r.AllDeps().Keys
    ensures Acyclic(ids, LinksOn(ids, r.AllDeps(), reverse))
  {
    var m, s := Named(""), Named("");
    if !NoNew(r.cfg) { m, s :| ProperlyNew(r.cfg, m, s); }
    var deps := r.AllDeps();
    var rank := map x | x in ids :: RepairRank(m, s, x, x in r.deps);
    forall x, y | x in ids && y in ids && y in deps[x] ensures rank[y] < rank[x] <= 20 {
      AllEdgesDescend(r, m, s, x, y);
    }
    RankedIsAcyclic(deps, ids, rank, reverse);
  }

  lemma OursIsClosed(r: Repair, x: Identifier, y: Identifier)
    requires r.Ordered() && x in r.deps && y in r.deps[x]
    ensures y in r.deps
  {
    var m, s := Named(""), Named("");
    if !NoNew(r.cfg) { m, s :| ProperlyNew(r.cfg, m, s); }
    assert r.AllDeps()[x] == r.deps[x];
    AllEdgesDescend(r, m, s, x, y);
  }

  /**
   A create that has begun found what it depends on, in every interleaving and whatever failed:
   populate resources have completed, and roles, nodes and subscriptions are there and healthy.
   The slot of a subscription is the exception: it comes into being through the subscription's
   own create.
   */
  lemma CreateFindsDependencies(r: Repair, run: seq<Repairing>, i: nat, y: Identifier, x: Identifier)
    requires r.Ordered() && IsRepair(r, run) && i < |run|
    requires y in r.deps && x in r.deps[y] && !x.Slot?
    requires Started(run[i].exec, Task(Create, y))
    ensures x in r.deps
    ensures if x.Ephemeral() then Done(run[i].exec, Task(Create, x)) else Inspect(run[i].catalog, x) == HEALTHY
  {
    OursIsClosed(r, y, x);
    RepairRunInv(r, run, i);
    var s := run[i].exec;
    DiffOfDesired(r, x);
    StartedIsTarget(r, s, Task(Create, y));
    if x in r.Creates() {
      AllIsAcyclic(r, r.Creates(), false);
      InvRespectsDependencies(r.AllDeps(), r.Deletes(), r.Updates(), r.Creates(), s, Create, x, y);
      assert Task(Create, x) in DoneTasks(s);
    }
    if x in r.Updates() {
      InvDeletesFirst(r.AllDeps(), r.Deletes(), r.Updates(), r.Creates(), s, Task(Update, x), Task(Create, y));
      assert Task(Update, x) in DoneTasks(s);
    }
    if !x.Ephemeral() {
      MemberHealthy(r, run[i], x);
    }
  }

  /** A mesh resource whose repair is done, or was not needed, is healthy as inspected. */
  lemma MemberHealthy(r: Repair, z: Repairing, x: Identifier)
    requires r.Refreshed() && RepairInv(r, z) && x in r.deps && !x.Ephemeral() && !x.Slot?
    requires x in r.Creates() ==> Task(Create, x) in DoneTasks(z.exec)
    requires x in r.Updates() ==> Task(Update, x) in DoneTasks(z.exec)
    ensures Inspect(z.catalog, x) == HEALTHY
  {
    DesiredIsOurs(r, x);
    DiffOfDesired(r, x);
    if x.Sub? {
      assert SubInv(r.Deletes(), r.Updates(), r.Creates(), DoneTasks(z.exec), z.catalog, Sub(x.src, x.dst));
    }
  }

  /**
   A delete that has begun removes nothing that is still depended on: every dependent that can
   exist is planned for deletion too and has been deleted.  (Populate resources never exist.)
   */
  lemma DeleteLeavesNoDependents(r: Repair, run: seq<Repairing>, i: nat, y: Identifier, x: Identifier)
    requires r.Ordered() && IsRepair(r, run) && i < |run|
    requires x in r.AllDeps() && y in r.AllDeps()[x]
    requires Started(run[i].exec, Task(Delete, y))
    ensures x.Ephemeral() || Done(run[i].exec, Task(Delete, x))
  {
    RepairRunInv(r, run, i);
    StartedIsTarget(r, run[i].exec, Task(Delete, y));
    if !x.Ephemeral() {
      DependentIsDeleted(r, y, x);
      AllIsAcyclic(r, r.Deletes(), true);
      InvRespectsDependencies(r.AllDeps(), r.Deletes(), r.Updates(), r.Creates(), run[i].exec, Delete, x, y);
    }
  }

  /**
   An orphan node, or an orphan slot of its subscription, is dropped only after that subscription, on
   every survivor that lists the node.
   */
  lemma OrphanSubsFirst(r: Repair, run: seq<Repairing>, i: nat, o: Name, x: Name, y: Identifier)
    requires r.Ordered() && IsRepair(r, run) && i < |run| && OrphanNode(r.Names(), r.start, o, x)
    requires y == Node(o) || y == Slot(o, x)
    requires Started(run[i].exec, Task(Delete, y))
    ensures Done(run[i].exec, Task(Delete, Sub(o, x))) && Sub(o, x) !in run[i].catalog.subs
  {
    OrphanSubPlanned(r, o, x);
    DeleteLeavesNoDependents(r, run, i, y, Sub(o, x));
    OrphanSubNotMade(r, run, i, o, x);
    SubscriptionsExact(r, run, i, o, x);
  }

  lemma OrphanSubPlanned(r: Repair, o: Name, x: Name)
    requires r.Refreshed() && OrphanNode(r.Names(), r.start, o, x)
    ensures Sub(o, x) !in r.deps && Sub(o, x) in r.Deletes()
    ensures r.AllDeps()[Sub(o, x)] == [Node(o), Node(x), Slot(o, x)]
  {
    var f := Foreign(x, o);
    assert f in r.start.foreign && OrphanNode(r.Names(), r.start, f.orphan, f.survivor);
    assert Sub(f.orphan, f.survivor) in Orphans(r.Names(), r.start);
    if Sub(o, x) in r.deps { DesiredIsOurs(r, Sub(o, x)); }
    DiffOfOther(r, Sub(o, x));
  }

  lemma OrphanSubNotMade(r: Repair, run: seq<Repairing>, i: nat, o: Name, x: Name)
    requires r.Refreshed() && IsRepair(r, run) && i < |run| && OrphanNode(r.Names(), r.start, o, x)
    ensures !Done(run[i].exec, Task(Create, DisabledSub(o, x))) && !Done(run[i].exec, Task(Create, Sub(o, x)))
    ensures !Done(run[i].exec, Task(Update, Sub(o, x)))
  {
    RepairRunInv(r, run, i);
    OrphanSubPlanned(r, o, x);
    DiffOfOther(r, Sub(o, x));
    if Done(run[i].exec, Task(Create, DisabledSub(o, x))) {
      StartedIsTarget(r, run[i].exec, Task(Create, DisabledSub(o, x)));
      if DisabledSub(o, x) !in r.deps { DiffOfOther(r, DisabledSub(o, x)); }
      DesiredIsOurs(r, DisabledSub(o, x));
    }
    if Done(run[i].exec, Task(Create, Sub(o, x))) {
      StartedIsTarget(r, run[i].exec, Task(Create, Sub(o, x)));
    }
    if Done(run[i].exec, Task(Update, Sub(o, x))) {
      StartedIsTarget(r, run[i].exec, Task(Update, Sub(o, x)));
    }
  }

  lemma DependentIsDeleted(r: Repair, y: Identifier, x: Identifier)
    requires r.Ordered() && x in r.AllDeps() && y in r.AllDeps()[x] && y in r.Deletes() && !x.Ephemeral()
    ensures x in r.Deletes()
  {
    if x in r.deps {
      OursIsClosed(r, x, y);
      DiffOfDesired(r, y);
      NoSubNeedsASub(r, x, y);
    } else {
      DiffOfOther(r, x);
    }
  }

  lemma NoSubNeedsASub(r: Repair, x: Identifier, y: Identifier)
    requires r.Refreshed() && x in r.deps && y in r.deps[x] && !x.Ephemeral()
    ensures !y.Sub?
  {
    assert InDesired(r.cfg, x) && DepsAllowed(r.cfg, x, r.deps[x]);
    if x.Sub? && SourceOf(r.cfg, x.dst) == Some(x.src) {
      GatesExact(r.cfg, x.dst, x.src, y);
    }
  }

  // ---------------------------------------------------------------------------------------
  // Subscriptions in every reachable state, and what a failed run leaves to the next
  // ---------------------------------------------------------------------------------------

  /**
   In every reachable state, whatever failed: a subscription is there iff it was and has not been
   dropped, or its registration or its create has returned success, and it is enabled iff it was,
   or its update or its create has returned success.
   */
  lemma SubscriptionsExact(r: Repair, run: seq<Repairing>, i: nat, a: Name, b: Name)
    requires r.Refreshed() && IsRepair(r, run) && i < |run|
    ensures var s, subs, was, sub := run[i].exec, run[i].catalog.subs, r.start.subs, Sub(a, b);
            var kept := sub in was && !Done(s, Task(Delete, sub));
            var on := Done(s, Task(Update, sub)) || Done(s, Task(Create, sub));
            && (sub in subs <==> kept || Done(s, Task(Create, DisabledSub(a, b))) || Done(s, Task(Create, sub)))
            && (sub in subs ==> (subs[sub] <==> (kept && was[sub]) || on))
  {
    RepairRunInv(r, run, i);
    assert SubExact(r.start, DoneTasks(run[i].exec), run[i].catalog, a, b);
  }

  /** Whatever is still to be deleted, nothing has been created, so a broken subscription still has no slot. */
  lemma StillBroken(r: Repair, run: seq<Repairing>, i: nat, a: Name, b: Name)
    requires r.Refreshed() && IsRepair(r, run) && i < |run| && Assess(r.start, Sub(a, b)) == BROKEN
    requires Sub(a, b) in r.Deletes() && !Done(run[i].exec, Task(Delete, Sub(a, b)))
    ensures Assess(run[i].catalog, Sub(a, b)) == BROKEN
  {
    var s := run[i].exec;
    RepairRunInv(r, run, i);
    SubscriptionsExact(r, run, i, a, b);
    forall id ensures !Done(s, Task(Create, id)) {
      if Done(s, Task(Create, id)) {
        InvDeletesFirst(r.AllDeps(), r.Deletes(), r.Updates(), r.Creates(), s, Task(Delete, Sub(a, b)),
                        Task(Create, id));
      }
    }
    assert SlotFrom(r.start, DoneTasks(s), run[i].catalog, a, a, b);
  }

  /** Registering a subscription leaves it there, disabled until its own create or update. */
  lemma DisabledIsRegistered(r: Repair, run: seq<Repairing>, i: nat, p: Name, m: Name)
    requires r.Refreshed() && IsRepair(r, run) && i < |run|
    requires Done(run[i].exec, Task(Create, DisabledSub(p, m)))
    ensures Sub(p, m) in run[i].catalog.subs
    ensures Sub(p, m) in r.Creates() + r.Updates() ==>
              (run[i].catalog.subs[Sub(p, m)]
               <==> Done(run[i].exec, Task(Create, Sub(p, m))) || Done(run[i].exec, Task(Update, Sub(p, m))))
  {
    var s, sub := run[i].exec, Sub(p, m);
    SubscriptionsExact(r, run, i, p, m);
    if sub in r.Creates() + r.Updates() {
      if sub !in r.deps { DiffOfOther(r, sub); }
      DiffOfDesired(r, sub);
      if sub in r.Deletes() {
        RepairRunInv(r, run, i);
        StartedIsTarget(r, s, Task(Create, DisabledSub(p, m)));
        InvDeletesFirst(r.AllDeps(), r.Deletes(), r.Updates(), r.Creates(), s, Task(Delete, sub),
                        Task(Create, DisabledSub(p, m)));
      }
    }
  }

  /**
   The retry trap, across runs: if a run stops after registering the subscription and before enabling
   it, the next refresh plans to enable it, which happens before anything is created.
   */
  lemma NextRunEnables(r: Repair, run: seq<Repairing>, i: nat, p: Name, m: Name, next: Repair)
    requires r.Ordered() && IsRepair(r, run) && i < |run|
    requires Done(run[i].exec, Task(Create, DisabledSub(p, m))) && Sub(p, m) in r.Creates() + r.Updates()
    requires !Done(run[i].exec, Task(Create, Sub(p, m))) && !Done(run[i].exec, Task(Update, Sub(p, m)))
    requires next.Refreshed() && next.cfg == r.cfg && next.start == run[i].catalog
    ensures Assess(next.start, Sub(p, m)) == DISABLED
    ensures Sub(p, m) in next.Updates() && Sub(p, m) !in next.Creates()
  {
    var s := run[i].exec;
    DisabledIsRegistered(r, run, i, p, m);
    RepairRunInv(r, run, i);
    StartedIsTarget(r, s, Task(Create, DisabledSub(p, m)));
    if DisabledSub(p, m) !in r.deps { DiffOfOther(r, DisabledSub(p, m)); }
    DesiredIsOurs(r, DisabledSub(p, m));
    assert DepsAllowed(r.cfg, DisabledSub(p, m), r.deps[DisabledSub(p, m)]);
    CreateFindsDependencies(r, run, i, DisabledSub(p, m), SlotCreate(p, m));
    assert Task(Create, SlotCreate(p, m)) in DoneTasks(s);
    assert HasSlot(run[i].catalog, Sub(p, m));
    assert InDesired(next.cfg, Sub(p, m));
    DiffOfDesired(next, Sub(p, m));
  }

  // ---------------------------------------------------------------------------------------
  // Convergence
  // ---------------------------------------------------------------------------------------

  lemma FinishedIsDone(r: Repair, z: Repairing, t: Task)
    requires ExecInv(r.Plan(), z.exec) && Finished(r, z)
    requires t.id in TargetsOf(t.action, r.Deletes(), r.Updates(), r.Creates())
    ensures t in DoneTasks(z.exec)
  {
    PlannedIff(r.AllDeps(), r.Deletes(), r.Updates(), r.Creates(), t);
    var k :| Planned(r.Plan(), k, t);
  }

  /** Every mesh resource ends healthy, whatever is being bootstrapped and however the plan was ordered. */
  lemma FinishedIsHealthy(r: Repair, z: Repairing, id: Identifier)
    requires r.Refreshed() && RepairInv(r, z) && Finished(r, z) && InMesh(r.Names(), id)
    ensures Assess(z.catalog, id) == HEALTHY
  {
    assert InDesired(r.cfg, id);
    if id.User? || id.Node? {
      FinishedRepair(r, z, id);
      MemberHealthy(r, z, id);
    } else {
      FinishedSub(r, z, if id.Sub? then id else Sub(id.provider, id.subscriber));
    }
  }

  lemma FinishedRepair(r: Repair, z: Repairing, id: Identifier)
    requires ExecInv(r.Plan(), z.exec) && Finished(r, z)
    ensures id in r.Creates() ==> Task(Create, id) in DoneTasks(z.exec)
    ensures id in r.Updates() ==> Task(Update, id) in DoneTasks(z.exec)
  {
    if id in r.Creates() { FinishedIsDone(r, z, Task(Create, id)); }
    if id in r.Updates() { FinishedIsDone(r, z, Task(Update, id)); }
  }

  lemma FinishedSub(r: Repair, z: Repairing, sub: Identifier)
    requires r.Refreshed() && RepairInv(r, z) && Finished(r, z) && InMesh(r.Names(), sub) && sub.Sub?
    ensures HealthySub(z.catalog, sub)
  {
    FinishedRepair(r, z, sub);
    FinishedRepair(r, z, SlotCreate(sub.src, sub.dst));
    assert SubInv(r.Deletes(), r.Updates(), r.Creates(), DoneTasks(z.exec), z.catalog, Sub(sub.src, sub.dst));
  }

  /** What was visible from the survivor acted on is gone; what others saw is still there. */
  lemma FinishedOrphans(r: Repair, z: Repairing, id: Identifier, x: Name)
    requires r.Refreshed() && RepairInv(r, z) && Finished(r, z) && SeenFrom(r.Names(), r.start, id, x)
    ensures id in r.where
    ensures SeenFrom(r.Names(), z.catalog, id, x) <==> x != r.where[id]
  {
    SeenIsOrphan(r.Names(), r.start, id, x);
    if id in r.deps { DesiredIsOurs(r, id); }
    DiffOfOther(r, id);
    FinishedIsDone(r, z, Task(Delete, id));
  }

  /** The subscriptions of orphan nodes are gone, on every survivor. */
  lemma FinishedOrphanSubs(r: Repair, run: seq<Repairing>, o: Name, x: Name)
    requires r.Refreshed() && IsRepair(r, run) && Finished(r, run[|run| - 1])
    requires OrphanNode(r.Names(), r.start, o, x)
    ensures Sub(o, x) !in run[|run| - 1].catalog.subs
  {
    var i := |run| - 1;
    RepairRunInv(r, run, i);
    OrphanSubPlanned(r, o, x);
    FinishedIsDone(r, run[i], Task(Delete, Sub(o, x)));
    OrphanSubNotMade(r, run, i, o, x);
    SubscriptionsExact(r, run, i, o, x);
  }

  lemma OrphanIffSeen(names: set<Name>, c: Catalog)
    ensures (exists k :: Orphan(names, c, k)) <==> (exists id, x :: SeenFrom(names, c, id, x))
  {
    if k :| Orphan(names, c, k) {
      var x := WhereOrphan(names, c, k);
      var id := match k case NodeAt(o, _) => Node(o) case Sub(o, _) => Node(o) case _ => k;
      assert SeenFrom(names, c, id, x);
    }
    if id, x :| SeenFrom(names, c, id, x) {
      assert Orphan(names, c, if id.Node? then NodeAt(id.node, x) else id);
    }
  }

  lemma FinishedOrphansIff(r: Repair, z: Repairing)
    requires r.Refreshed() && RepairInv(r, z) && Finished(r, z)
    ensures (exists k :: Orphan(r.Names(), z.catalog, k)) <==> !OneSurvivorEach(r.Names(), r.start)
  {
    OrphanIffSeen(r.Names(), z.catalog);
    if OneSurvivorEach(r.Names(), r.start) {
      forall id, x ensures !SeenFrom(r.Names(), z.catalog, id, x) {
        if SeenFrom(r.Names(), r.start, id, x) {
          FinishedOrphans(r, z, id, x);
          SeenIsOrphan(r.Names(), r.start, id, x);
          assert SeenFrom(r.Names(), r.start, id, r.where[id]);
        }
      }
    } else {
      var id, x, y :| SeenFrom(r.Names(), r.start, id, x) && SeenFrom(r.Names(), r.start, id, y) && x != y;
      FinishedOrphans(r, z, id, x);
      FinishedOrphans(r, z, id, y);
      assert SeenFrom(r.Names(), z.catalog, id, if x == r.where[id] then y else x);
    }
  }

  /**
   From any catalog - roles, nodes, subscriptions or slots missing, subscriptions disabled or
   broken, orphans left over, a failed or completed add - and for any configuration, one
   successful reconcile makes every user, node, slot and subscription of the mesh healthy.  The
   next plan is empty exactly if no node is being bootstrapped and no orphan name had been
   visible from two survivors.
   */
  lemma ConvergesIff(r: Repair, run: seq<Repairing>)
    requires r.Refreshed() && IsRepair(r, run) && Finished(r, run[|run| - 1])
    ensures forall id | InMesh(r.Names(), id) :: Assess(run[|run| - 1].catalog, id) == HEALTHY
    ensures MeshUp(r.Names(), run[|run| - 1].catalog)
    ensures Settled(r.cfg, run[|run| - 1].catalog) <==> NoNew(r.cfg) && OneSurvivorEach(r.Names(), r.start)
  {
    var z := run[|run| - 1];
    RepairRunInv(r, run, |run| - 1);
    forall id | InMesh(r.Names(), id) ensures Assess(z.catalog, id) == HEALTHY {
      FinishedIsHealthy(r, z, id);
    }
    HealthyIffMeshUp(r.Names(), z.catalog);
    FinishedOrphansIff(r, z);
    if NoNew(r.cfg) {
      assert forall m :: SourceOf(r.cfg, m) == None;
      assert forall id :: InDesired(r.cfg, id) ==> InMesh(r.Names(), id);
    } else {
      BootstrapNeverSettles(r.cfg, z.catalog);
    }
  }

  /** A configuration that bootstraps a node is never settled: its populate chain is always planned again. */
  lemma BootstrapNeverSettles(cfg: Config, c: Catalog)
    requires !NoNew(cfg)
    ensures !Settled(cfg, c)
  {
    var m :| SourceOf(cfg, m) != None;
    var id := SyncEvent(SourceOf(cfg, m).value, m);
    assert Populates(cfg, m, id);
    assert InDesired(cfg, id) && Assess(c, id) == MISSING;
  }

  // ---------------------------------------------------------------------------------------
  // Several reconciles
  // ---------------------------------------------------------------------------------------

  ghost function Survivors(names: set<Name>, c: Catalog, id: Identifier): set<Name> {
    set x | x in names && SeenFrom(names, c, id, x)
  }

  ghost predicate AtMost(names: set<Name>, c: Catalog, k: nat) {
    forall id :: |Survivors(names, c, id)| <= k
  }

  ghost predicate ReconciledTo(cfg: Config, c: Catalog, c': Catalog) {
    exists r, run :: Ran(cfg, c, c', r, run)
  }

  ghost predicate Ran(cfg: Config, c: Catalog, c': Catalog, r: Repair, run: seq<Repairing>) {
    && r.cfg == cfg && r.start == c && r.Refreshed() && IsRepair(r, run) && Finished(r, run[|run| - 1])
    && run[|run| - 1].catalog == c'
  }

  lemma SurvivorsAfter(r: Repair, z: Repairing, id: Identifier, x: Name)
    requires r.Refreshed() && RepairInv(r, z) && Finished(r, z)
    ensures SeenFrom(r.Names(), z.catalog, id, x) ==> SeenFrom(r.Names(), r.start, id, x)
    ensures SeenFrom(r.Names(), r.start, id, x) ==>
              && id in r.where && SeenFrom(r.Names(), r.start, id, r.where[id])
              && (SeenFrom(r.Names(), z.catalog, id, x) <==> x != r.where[id])
  {
    if SeenFrom(r.Names(), r.start, id, x) {
      SeenIsOrphan(r.Names(), r.start, id, x);
      FinishedOrphans(r, z, id, x);
    }
  }

  lemma OneTaken(before: set<Name>, after: set<Name>, w: Name)
    requires forall x :: x in after <==> x in before && x != w
    requires before != {} ==> w in before
    ensures |after| == if |before| == 0 then 0 else |before| - 1
  {
    assert after == before - {w};
  }

  /** One reconcile takes one survivor away from every orphan name. */
  lemma OneFewer(r: Repair, z: Repairing, id: Identifier)
    requires r.Refreshed() && RepairInv(r, z) && Finished(r, z)
    ensures var before := |Survivors(r.Names(), r.start, id)|;
            |Survivors(r.Names(), z.catalog, id)| == if before == 0 then 0 else before - 1
  {
    var before, after := Survivors(r.Names(), r.start, id), Survivors(r.Names(), z.catalog, id);
    var w := if id in r.where then r.where[id] else Named("");
    forall x ensures x in after <==> x in before && x != w {
      SurvivorsAfter(r, z, id, x);
    }
    if x :| x in before { SurvivorsAfter(r, z, id, x); OrphanHosts(r.Names(), r.start, id, w); }
    OneTaken(before, after, w);
  }

  lemma OrphanHosts(names: set<Name>, c: Catalog, id: Identifier, x: Name)
    requires SeenFrom(names, c, id, x)
    ensures x in Survivors(names, c, id)
  {
  }

  lemma FewerEach(cfg: Config, c: Catalog, c': Catalog, k: nat)
    requires ReconciledTo(cfg, c, c') && AtMost(NamesOf(cfg), c, k)
    ensures AtMost(NamesOf(cfg), c', if k == 0 then 0 else k - 1)
  {
    var r, run :| Ran(cfg, c, c', r, run);
    RepairRunInv(r, run, |run| - 1);
    forall id ensures |Survivors(NamesOf(cfg), c', id)| <= if k == 0 then 0 else k - 1 {
      OneFewer(r, run[|run| - 1], id);
    }
  }

  lemma AtMostOne(names: set<Name>, c: Catalog)
    requires AtMost(names, c, 1)
    ensures OneSurvivorEach(names, c)
  {
    forall id, x, y | SeenFrom(names, c, id, x) && SeenFrom(names, c, id, y) ensures x == y {
      var seers := Survivors(names, c, id);
      assert |seers - {x}| == 0;
      assert y !in seers - {x};
    }
  }

  /** With at most k survivors per orphan name, k successful reconciles settle the catalog. */
  lemma {:induction false} KReconcilesSettle(cfg: Config, cats: seq<Catalog>, k: nat)
    requires |cats| >= 2 && k <= |cats| - 1 && NoNew(cfg) && AtMost(NamesOf(cfg), cats[0], k)
    requires forall i | 0 < i < |cats| :: ReconciledTo(cfg, cats[i - 1], cats[i])
    ensures Settled(cfg, cats[|cats| - 1])
    decreases |cats|
  {
    assert ReconciledTo(cfg, cats[1 - 1], cats[1]);
    if |cats| == 2 {
      var r, run :| Ran(cfg, cats[0], cats[1], r, run);
      AtMostOne(NamesOf(cfg), cats[0]);
      ConvergesIff(r, run);
    } else {
      FewerEach(cfg, cats[0], cats[1], k);
      forall i | 0 < i < |cats[1..]| ensures ReconciledTo(cfg, cats[1..][i - 1], cats[1..][i]) {
        assert ReconciledTo(cfg, cats[(i + 1) - 1], cats[i + 1]);
      }
      KReconcilesSettle(cfg, cats[1..], if k == 0 then 0 else k - 1);
    }
  }

  // ---------------------------------------------------------------------------------------
  // Successful runs exist, and what one of them leaves
  // ---------------------------------------------------------------------------------------

  /** In a reachable state no body has to fail. */
  lemma CanSucceed(r: Repair, z: Repairing, t: Task) returns (c': Catalog)
    requires r.Refreshed() && RepairInv(r, z) && t in z.exec.st && z.exec.st[t] == Running
    ensures CatalogEffect(r.where, t, z.catalog, c')
  {
    var c := z.catalog;
    StartedIsTarget(r, z.exec, t);
    PlannedIsPlannable(r, t);
    if t.action == Update {
      DiffOfDesired(r, t.id);
      OnceUpdated(r, z.exec, t);
      assert SubInv(r.Deletes(), r.Updates(), r.Creates(), DoneTasks(z.exec), c, Sub(t.id.src, t.id.dst));
    }
    c' := EffectOf(r.where, t, c);
  }

  lemma OnceUpdated(r: Repair, s: Exec, t: Task)
    requires r.Refreshed() && ExecInv(r.Plan(), s) && t in s.st && s.st[t] == Running && t.action == Update
    ensures t.id in r.deps && t !in DoneTasks(s) && Task(Create, t.id) !in DoneTasks(s)
  {
    StartedIsTarget(r, s, t);
    if Task(Create, t.id) in DoneTasks(s) {
      StartedIsTarget(r, s, Task(Create, t.id));
      DiffOfDesired(r, t.id);
    }
  }

  lemma EffectOf(where: map<Identifier, Name>, t: Task, c: Catalog) returns (c': Catalog)
    requires t.action == Update && t.id.Sub? ==> t.id in c.subs
    requires t.id in where && (t.id.Sub? ==> where[t.id] == t.id.dst)
    ensures CatalogEffect(where, t, c, c')
  {
    var x := where[t.id];
    match t
    case Task(Create, User(n)) => c' := c.(users := c.users + {x});
    case Task(Create, Node(n)) => c' := if x == n then c.(nodes := c.nodes + {n}) else c;
    case Task(Create, SlotCreate(p, m)) => c' := c.(slots := c.slots + {Hosted(x, Slot(p, m))});
    case Task(Create, DisabledSub(p, m)) =>
      c' := if x != m || Sub(p, m) in c.subs then c else c.(subs := c.subs[Sub(p, m) := false]);
    case Task(Create, Sub(_, _)) =>
      c' := if t.id in c.subs then c.(subs := c.subs[t.id := true])
            else c.(subs := c.subs[t.id := true], slots := c.slots + {ProviderSlot(t.id)});
    case Task(Update, Sub(_, _)) => c' := c.(subs := c.subs[t.id := true]);
    case Task(Delete, Sub(_, _)) => c' := c.(subs := c.subs - {t.id});
    case Task(Delete, Node(o)) => c' := c.(foreign := c.foreign - {Foreign(x, o)});
    case Task(Delete, Slot(_, _)) => c' := c.(slots := c.slots - {Hosted(x, t.id)});
    case Task(Delete, RawSlot(_)) => c' := c.(slots := c.slots - {Hosted(x, t.id)});
    case _ => c' := c;
  }

  lemma ExtendRepair(r: Repair, run: seq<Repairing>, z: Repairing)
    requires IsRepair(r, run) && Works(r.Plan(), r.where, run[|run| - 1], z)
    ensures IsRepair(r, run + [z])
  {
  }

  lemma OneMore(r: Repair, z: Repairing) returns (z': Repairing)
    requires r.Refreshed() && RepairInv(r, z) && NoFailure(z.exec) && z.exec.phase < |r.Plan()|
    ensures Works(r.Plan(), r.where, z, z') && NoFailure(z'.exec) && z'.exec.phase <= |r.Plan()|
    ensures StepsLeft(r.Plan(), z'.exec) < StepsLeft(r.Plan(), z.exec)
  {
    var step, s' := GoesOn(r.Plan(), z.exec);
    StepCosts(r.Plan(), z.exec, s', step);
    var c' := z.catalog;
    if step.Succeed? { c' := CanSucceed(r, z, step.t); }
    z' := Repairing(s', c');
    assert WorkStep(r.Plan(), r.where, z, z', step);
  }

  /** The run ends in a state from which it can be completed. */
  ghost predicate Promising(r: Repair, run: seq<Repairing>) {
    IsRepair(r, run) && NoFailure(run[|run| - 1].exec) && run[|run| - 1].exec.phase <= |r.Plan()|
  }

  ghost function Left(r: Repair, run: seq<Repairing>): nat
    requires Promising(r, run)
  {
    StepsLeft(r.Plan(), run[|run| - 1].exec)
  }

  lemma StepOn(r: Repair, run: seq<Repairing>) returns (longer: seq<Repairing>)
    requires r.Refreshed() && Promising(r, run) && !Finished(r, run[|run| - 1])
    ensures Promising(r, longer) && Left(r, longer) < Left(r, run)
  {
    RepairRunInv(r, run, |run| - 1);
    var z := OneMore(r, run[|run| - 1]);
    ExtendRepair(r, run, z);
    longer := run + [z];
  }

  lemma {:induction false} Finish(r: Repair, run: seq<Repairing>) returns (longer: seq<Repairing>)
    requires r.Refreshed() && Promising(r, run)
    ensures Promising(r, longer) && Finished(r, longer[|longer| - 1])
    decreases Left(r, run)
  {
    longer := run;
    if !Finished(r, run[|run| - 1]) {
      longer := StepOn(r, run);
      longer := Finish(r, longer);
    }
  }

  /** From every refreshed catalog, Execute can run to a successful end. */
  lemma SuccessfulRunExists(r: Repair) returns (run: seq<Repairing>)
    requires r.Refreshed()
    ensures IsRepair(r, run) && Finished(r, run[|run| - 1])
  {
    var first := Repairing(Exec(0, map t | t in AllTasks(r.Plan()) :: Waiting, false), r.start);
    assert IsRepair(r, [first]);
    run := Finish(r, [first]);
  }

  /** A healthy two-node mesh in which both nodes still list a removed third node. */
  function TwoNodes(a: Name, b: Name): Config {
    [NodeCfg(a, "", Named("")), NodeCfg(b, "", Named(""))]
  }

  function TwoNodeDeps(a: Name, b: Name): Deps {
    map[User(a) := [], User(b) := [], Node(a) := [User(a)], Node(b) := [User(b)],
        Slot(a, b) := [Node(a)], Slot(b, a) := [Node(b)],
        Sub(a, b) := [Node(a), Node(b), Slot(a, b)], Sub(b, a) := [Node(b), Node(a), Slot(b, a)]]
  }

  function StaleThird(a: Name, b: Name, o: Name): Catalog {
    Catalog({a, b}, {a, b}, map[Sub(a, b) := true, Sub(b, a) := true],
            {Hosted(a, Slot(a, b)), Hosted(b, Slot(b, a))}, {Foreign(a, o), Foreign(b, o)})
  }

  lemma TwoNodesAreDesired(a: Name, b: Name)
    requires a != b
    ensures NamesOf(TwoNodes(a, b)) == {a, b} && NoNew(TwoNodes(a, b))
    ensures IsDesiredGraph(TwoNodes(a, b), TwoNodeDeps(a, b))
  {
    var cfg, deps := TwoNodes(a, b), TwoNodeDeps(a, b);
    assert cfg[..1] == [NodeCfg(a, "", Named(""))] && cfg[..1][..0] == [];
    assert cfg[0] in cfg && cfg[1] in cfg;
    forall m ensures SourceOf(cfg, m) == None {
      assert SourceOf(cfg[..1][..0], m) == None;
      assert SourceOf(cfg[..1], m) == None;
    }
    forall id ensures id in deps <==> InDesired(cfg, id) {}
    forall id | id in deps ensures DepsAllowed(cfg, id, deps[id]) {}
  }

  function StaleRepair(a: Name, b: Name, o: Name): Repair {
    var deps := TwoNodeDeps(a, b);
    Repair(TwoNodes(a, b), deps, StaleThird(a, b, o),
           map id | id in deps.Keys + {Node(o), Sub(o, a), Sub(o, b)} :: if id == Node(o) then a else Home(id))
  }

  lemma StaleOrphans(a: Name, b: Name, o: Name)
    requires a != b && o != a && o != b
    ensures Orphans({a, b}, StaleThird(a, b, o)) == {Node(o), Sub(o, a), Sub(o, b)}
  {
    var c := StaleThird(a, b, o);
    assert forall h | h in c.slots :: InMesh({a, b}, h.slot);
    assert OrphanNode({a, b}, c, o, a) && OrphanNode({a, b}, c, o, b);
    assert Foreign(a, o) in c.foreign && Foreign(b, o) in c.foreign;
  }

  lemma RefreshedAt(r: Repair, orphans: set<Identifier>)
    requires IsDesiredGraph(r.cfg, r.deps) && CatalogOk(r.start) && Orphans(r.Names(), r.start) == orphans
    requires forall id | id in r.deps :: id in r.where && r.where[id] == Home(id)
    requires forall id | id in orphans ::
               id in r.where && if id.Sub? then r.where[id] == id.dst
                                else SeenFrom(r.Names(), r.start, id, r.where[id])
    ensures r.Refreshed()
  {
  }

  lemma StaleWhere(a: Name, b: Name, o: Name)
    requires a != b && o != a && o != b
    ensures var r := StaleRepair(a, b, o);
            && r.where.Keys == r.deps.Keys + {Node(o), Sub(o, a), Sub(o, b)} && Node(o) !in r.deps
            && r.where[Node(o)] == a && r.where[Sub(o, a)] == a && r.where[Sub(o, b)] == b
            && forall id | id in r.deps :: r.where[id] == Home(id)
  {
  }

  lemma StaleIsRefreshed(a: Name, b: Name, o: Name)
    requires a != b && o != a && o != b
    ensures var r := StaleRepair(a, b, o); r.Refreshed() && NoNew(r.cfg) && r.Names() == {a, b}
  {
    var r := StaleRepair(a, b, o);
    TwoNodesAreDesired(a, b);
    StaleOrphans(a, b, o);
    StaleWhere(a, b, o);
    StaleOk(a, b, o);
    var orphans := {Node(o), Sub(o, a), Sub(o, b)};
    assert r.Names() == {a, b} && r.start == StaleThird(a, b, o) && Orphans(r.Names(), r.start) == orphans;
    forall id | id in orphans
      ensures id in r.where && if id.Sub? then r.where[id] == id.dst
                               else SeenFrom(r.Names(), r.start, id, r.where[id])
    {
      assert id == Node(o) || id == Sub(o, a) || id == Sub(o, b);
    }
    RefreshedAt(r, orphans);
  }

  lemma StaleOk(a: Name, b: Name, o: Name)
    requires a != b && o != a && o != b
    ensures CatalogOk(StaleThird(a, b, o)) && SeenFrom({a, b}, StaleThird(a, b, o), Node(o), a)
  {
  }

  lemma StaleIsHealthy(a: Name, b: Name, o: Name)
    requires a != b && o != a && o != b
    ensures var r := StaleRepair(a, b, o);
            && (forall id | id in r.deps :: Assess(r.start, id) == HEALTHY)
            && SeenFrom({a, b}, r.start, Node(o), a) && SeenFrom({a, b}, r.start, Node(o), b)
  {
  }

  lemma StaysBehind(r: Repair, run: seq<Repairing>, id: Identifier, x: Name)
    requires r.Refreshed() && IsRepair(r, run) && Finished(r, run[|run| - 1]) && SeenFrom(r.Names(), r.start, id, x)
    ensures id in r.where && (SeenFrom(r.Names(), run[|run| - 1].catalog, id, x) <==> x != r.where[id])
  {
    RepairRunInv(r, run, |run| - 1);
    FinishedOrphans(r, run[|run| - 1], id, x);
  }

  /** The failing side, on an input: a successful run that leaves an orphan behind, though nothing else was wrong. */
  lemma OrphanLeftBehind(a: Name, b: Name, o: Name) returns (run: seq<Repairing>)
    requires a != b && o != a && o != b
    ensures var r := StaleRepair(a, b, o);
            && r.Refreshed() && (forall id | id in r.deps :: Assess(r.start, id) == HEALTHY)
            && IsRepair(r, run) && Finished(r, run[|run| - 1])
            && !SeenFrom({a, b}, run[|run| - 1].catalog, Node(o), a)
            && SeenFrom({a, b}, run[|run| - 1].catalog, Node(o), b)
            && !Settled(r.cfg, run[|run| - 1].catalog)
  {
    var r := StaleRepair(a, b, o);
    StaleIsRefreshed(a, b, o);
    StaleIsHealthy(a, b, o);
    run := SuccessfulRunExists(r);
    StaysBehind(r, run, Node(o), a);
    StaysBehind(r, run, Node(o), b);
    assert Orphan({a, b}, run[|run| - 1].catalog, NodeAt(o, b));
  }
}
