/**
 One run, seen twice: every history of the add-node protocol is at the same time a repair run on the
 catalogs, and in every state both agree on the subscriptions and slots of the new node.  So what
 Convergence proves about catalogs and what the AddNode modules prove about streams hold together.
 */
module AddNodeCatalog {
  import opened Resources
  import opened Planning
  import opened Executor
  import opened Desired
  import opened DesiredOrder
  import opened Refresh
  import opened Convergence
  import opened AddNode
  import opened AddNodeInvariant
  import opened FreshAdd
  import P = AddNodeProgress

  /** The catalogs and x's side of the protocol agree on x's slot for m and on the subscription x→m. */
  ghost predicate AgreeAt(c: Catalog, m: Name, x: Name, v: Provider) {
    && (Hosted(x, Slot(x, m)) in c.slots <==> v.slot.Some?)
    && match v.sub
       case Absent => Sub(x, m) !in c.subs
       case Disabled => Sub(x, m) in c.subs && !c.subs[Sub(x, m)]
       case Enabled(_) => Sub(x, m) in c.subs && c.subs[Sub(x, m)]
  }

  ghost predicate Agree(m: Name, c: Catalog, w: World) {
    forall x | x in w :: AgreeAt(c, m, x, w[x])
  }

  /** A planned task works where Convergence and AddNode both take it to work. */
  ghost predicate Placed(m: Name, s: Name, names: set<Name>, t: Task, x: Name) {
    && SitedAt(names, t, x)
    && (t.action == Delete && (t.id.Slot? || t.id.RawSlot?) ==> !InMesh(names, t.id))
    && (t.action == Create && t.id.Ephemeral() ==> InChain(names, m, s, t.id))
  }

  /** The subscriptions and slots of m are as they were, as far as the nodes in xs go. */
  ghost predicate SameCatalog(m: Name, xs: set<Name>, c: Catalog, c': Catalog) {
    forall x | x in xs ::
      && (Hosted(x, Slot(x, m)) in c'.slots <==> Hosted(x, Slot(x, m)) in c.slots)
      && (Sub(x, m) in c'.subs <==> Sub(x, m) in c.subs)
      && (Sub(x, m) in c.subs && Sub(x, m) in c'.subs ==> c'.subs[Sub(x, m)] == c.subs[Sub(x, m)])
  }

  ghost predicate SameSides(w: World, w': World) {
    w'.Keys == w.Keys && forall x | x in w :: w'[x].sub == w[x].sub && w'[x].slot.Some? == w[x].slot.Some?
  }

  lemma BothSame(m: Name, c: Catalog, c': Catalog, w: World, w': World)
    requires Agree(m, c, w) && SameCatalog(m, w.Keys, c, c') && SameSides(w, w')
    ensures Agree(m, c', w')
  {
    forall x | x in w' ensures AgreeAt(c', m, x, w'[x]) {
      assert AgreeAt(c, m, x, w[x]);
    }
  }

  /** Only x's side moves, and the catalogs follow it. */
  lemma OneMoves(m: Name, x: Name, c: Catalog, c': Catalog, w: World, w': World)
    requires Agree(m, c, w) && OnlyAt(w, w', x) && SameCatalog(m, w.Keys - {x}, c, c') && AgreeAt(c', m, x, w'[x])
    ensures Agree(m, c', w')
  {
    forall y | y in w' ensures AgreeAt(c', m, y, w'[y]) {
      assert AgreeAt(c, m, y, w[y]);
    }
  }

  /** A task that is about neither the slots of m nor the subscriptions into it. */
  ghost predicate Aside(m: Name, t: Task) {
    && !t.id.SlotCreate? && !t.id.DisabledSub? && (t.id.Sub? ==> t.id.dst != m)
  }

  lemma AsideMirrored(a: Adding, where: map<Identifier, Name>, t: Task, w: World, w': World, c: Catalog)
    returns (c': Catalog)
    requires Agree(a.m, c, w) && Effect(a, t, w, w') && t.id in where && Aside(a.m, t)
    requires w.Keys <= NamesOf(a.cfg) && a.m !in w && a.m in NamesOf(a.cfg)
    requires Placed(a.m, a.s, NamesOf(a.cfg), t, where[t.id])
    requires t.action == Update && t.id.Sub? ==> t.id in c.subs
    ensures CatalogEffect(where, t, c, c') && Agree(a.m, c', w')
  {
    c' := EffectOf(where, t, c);
    AsideSides(a, t, w, w');
    AsideCatalog(a.m, NamesOf(a.cfg), where, t, c, c');
    BothSame(a.m, c, c', w, w');
  }

  lemma AsideSides(a: Adding, t: Task, w: World, w': World)
    requires Effect(a, t, w, w') && Aside(a.m, t)
    ensures SameSides(w, w')
  {
  }

  lemma AsideCatalog(m: Name, names: set<Name>, where: map<Identifier, Name>, t: Task, c: Catalog, c': Catalog)
    requires CatalogEffect(where, t, c, c') && Aside(m, t) && SitedAt(names, t, where[t.id]) && m in names
    requires t.action == Delete && (t.id.Slot? || t.id.RawSlot?) ==> !InMesh(names, t.id)
    ensures SameCatalog(m, names - {m}, c, c')
  {
  }

  /** Slot creation and registration, by the populate chain. */
  lemma ChainMirrored(a: Adding, where: map<Identifier, Name>, t: Task, w: World, w': World, c: Catalog)
    returns (c': Catalog)
    requires Agree(a.m, c, w) && Effect(a, t, w, w') && t.id in where
    requires t.action == Create && (t.id.SlotCreate? || t.id.DisabledSub?)
    requires InChain(NamesOf(a.cfg), a.m, a.s, t.id) && where[t.id] == Home(t.id)
    ensures CatalogEffect(where, t, c, c') && Agree(a.m, c', w')
  {
    c' := EffectOf(where, t, c);
    var x := if t.id.SlotCreate? then t.id.provider else t.id.src;
    assert AgreeAt(c, a.m, x, w[x]);
    OneMoves(a.m, x, c, c', w, w');
  }

  /** The end-state subscriptions into m. */
  lemma SubMirrored(a: Adding, where: map<Identifier, Name>, t: Task, w: World, w': World, c: Catalog)
    returns (c': Catalog)
    requires Agree(a.m, c, w) && Effect(a, t, w, w') && t.id in where && where[t.id] == a.m && a.m != a.s
    requires t.id.Sub? && t.id.dst == a.m && t.id.src in w
    requires t.action == Update ==> t.id in c.subs
    ensures CatalogEffect(where, t, c, c') && Agree(a.m, c', w')
  {
    var x := t.id.src;
    assert AgreeAt(c, a.m, x, w[x]);
    c' := EffectOf(where, t, c);
    if t.action == Delete {
      c' := c.(subs := c.subs - {t.id},
               slots := if w'[x].slot == None then c.slots - {ProviderSlot(t.id)} else c.slots);
    }
    if t.action == Create && x == a.s && w[x].sub == Absent {
      CopyMirrored(a.m, x, c, c', w, w');
    } else if t.action == Create && x == a.s && w[x].sub.Enabled? {
      assert c'.subs == c.subs;
      BothSame(a.m, c, c', w, w');
    } else {
      OneMoves(a.m, x, c, c', w, w');
    }
  }

  lemma CopyMirrored(m: Name, x: Name, c: Catalog, c': Catalog, w: World, w': World)
    requires Agree(m, c, w) && CopyMade(w, w', x) && w[x].sub == Absent
    requires c' == c.(subs := c.subs[Sub(x, m) := true], slots := c.slots + {ProviderSlot(Sub(x, m))})
    ensures Agree(m, c', w')
  {
    forall y | y in w' ensures AgreeAt(c', m, y, w'[y]) {
      assert AgreeAt(c, m, y, w[y]);
    }
  }

  // ---------------------------------------------------------------------------------------
  // Whole histories
  // ---------------------------------------------------------------------------------------

  lemma TaskMirrored(a: Adding, where: map<Identifier, Name>, t: Task, w: World, w': World, c: Catalog)
    returns (c': Catalog)
    requires Agree(a.m, c, w) && Effect(a, t, w, w') && t.id in where && a.m != a.s
    requires w.Keys == NamesOf(a.cfg) - {a.m} && a.m in NamesOf(a.cfg)
    requires Placed(a.m, a.s, NamesOf(a.cfg), t, where[t.id])
    requires t.action == Update && t.id.Sub? ==> t.id in c.subs
    requires t.action != Create ==> !t.id.Ephemeral()
    ensures CatalogEffect(where, t, c, c') && Agree(a.m, c', w')
  {
    if Aside(a.m, t) {
      c' := AsideMirrored(a, where, t, w, w', c);
    } else if t.id.Ephemeral() {
      c' := ChainMirrored(a, where, t, w, w', c);
    } else if t.id.src in w {
      c' := SubMirrored(a, where, t, w, w', c);
    } else {
      c' := OrphanSubMirrored(a, where, t, w, w', c);
    }
  }

  /** A subscription into m from a node that is not configured. */
  lemma OrphanSubMirrored(a: Adding, where: map<Identifier, Name>, t: Task, w: World, w': World, c: Catalog)
    returns (c': Catalog)
    requires Agree(a.m, c, w) && Effect(a, t, w, w') && t.id in where && where[t.id] == a.m && a.m != a.s
    requires t.id.Sub? && t.id.dst == a.m && t.id.src !in w
    requires t.action == Update ==> t.id in c.subs
    ensures CatalogEffect(where, t, c, c') && Agree(a.m, c', w')
  {
    c' := EffectOf(where, t, c);
    assert w' == w;
    BothSame(a.m, c, c', w, w');
  }

  ghost predicate Together(r: Repair, z: Sys, c: Catalog, m: Name) {
    RepairInv(r, Repairing(z.exec, c)) && Agree(m, c, z.world) && z.world.Keys == r.Names() - {m}
  }

  /** The add is the plan of that refresh. */
  ghost predicate PlannedBy(a: Adding, r: Repair) {
    a.Valid() && a.cfg == r.cfg && a.Plan() == r.Plan() && r.Refreshed()
  }

  /** One step of the system is a step of the repair, or leaves plan and catalogs alone. */
  ghost predicate Follows(r: Repair, z: Sys, z': Sys, c: Catalog, c': Catalog) {
    || (z'.exec == z.exec && c' == c)
    || Works(r.Plan(), r.where, Repairing(z.exec, c), Repairing(z'.exec, c'))
  }

  lemma StepMirrored(r: Repair, a: Adding, z: Sys, z': Sys, c: Catalog) returns (c': Catalog)
    requires PlannedBy(a, r) && Together(r, z, c, a.m) && SysNext(a, z, z')
    ensures Together(r, z', c', a.m) && Follows(r, z, z', c, c')
  {
    if step :| ExecPart(a, z, z', step) {
      c' := ExecMirrored(r, a, z, z', c, step);
    } else {
      var x, e :| EnvPart(z, z', x, e);
      c' := c;
      EnvMirrored(r, a.m, z, z', c, x, e);
    }
  }

  lemma EnvMirrored(r: Repair, m: Name, z: Sys, z': Sys, c: Catalog, x: Name, e: EnvStep)
    requires Together(r, z, c, m) && EnvPart(z, z', x, e)
    ensures Together(r, z', c, m) && Follows(r, z, z', c, c)
  {
    EnvSides(z.world[x], z'.world[x], e);
    BothSame(m, c, c, z.world, z'.world);
  }

  lemma EnvSides(v: Provider, v': Provider, e: EnvStep)
    requires EnvMove(v, v', e)
    ensures v'.sub == v.sub && v'.slot.Some? == v.slot.Some?
  {
  }

  lemma ExecMirrored(r: Repair, a: Adding, z: Sys, z': Sys, c: Catalog, step: ExecStep) returns (c': Catalog)
    requires PlannedBy(a, r) && Together(r, z, c, a.m) && ExecPart(a, z, z', step)
    ensures Together(r, z', c', a.m) && Works(r.Plan(), r.where, Repairing(z.exec, c), Repairing(z'.exec, c'))
  {
    c' := c;
    if step.Succeed? {
      PlacedTask(r, a, z.exec, c, step.t);
      c' := TaskMirrored(a, r.where, step.t, z.world, z'.world, c);
      EffectKeys(a, step.t, z.world, z'.world);
    }
    assert WorkStep(r.Plan(), r.where, Repairing(z.exec, c), Repairing(z'.exec, c'), step);
    RepairsKeeps(r, Repairing(z.exec, c), Repairing(z'.exec, c'));
  }

  lemma EffectKeys(a: Adding, t: Task, w: World, w': World)
    requires Effect(a, t, w, w')
    ensures w'.Keys == w.Keys
  {
  }

  lemma PlacedTask(r: Repair, a: Adding, e: Exec, c: Catalog, t: Task)
    requires PlannedBy(a, r) && RepairInv(r, Repairing(e, c)) && t in e.st && e.st[t] == Running
    ensures t.id in r.where && Placed(a.m, a.s, r.Names(), t, r.where[t.id]) && a.m in r.Names()
    ensures t.action != Create ==> !t.id.Ephemeral()
    ensures t.action == Update && t.id.Sub? ==> t.id in c.subs
  {
    NewIsConfigured(r.cfg, a.m);
    StartedIsTarget(r, e, t);
    PlannedIsPlannable(r, t);
    if t.action == Create { PlannedTask(a, e, t); }
    if t.action == Update { UpdatedIsThere(r, Repairing(e, c), t); }
  }

  lemma UpdatedIsThere(r: Repair, z: Repairing, t: Task)
    requires r.Refreshed() && RepairInv(r, z) && t in z.exec.st && z.exec.st[t] == Running
    requires t.action == Update && t.id.Sub?
    ensures t.id in z.catalog.subs
  {
    StartedIsTarget(r, z.exec, t);
    PlannedIsPlannable(r, t);
    var c' := CanSucceed(r, z, t);
  }

  /** The first states of the run, mirrored. */
  ghost predicate MirrorsSome(r: Repair, m: Name, run: seq<Sys>, cats: seq<Catalog>) {
    && 0 < |cats| <= |run| && cats[0] == r.start
    && (forall i | 0 <= i < |cats| :: Together(r, run[i], cats[i], m))
    && forall i | 0 < i < |cats| :: Follows(r, run[i - 1], run[i], cats[i - 1], cats[i])
  }

  ghost predicate Mirrors(r: Repair, m: Name, run: seq<Sys>, cats: seq<Catalog>) {
    MirrorsSome(r, m, run, cats) && |cats| == |run|
  }

  lemma OneMoreMirrored(r: Repair, m: Name, run: seq<Sys>, cats: seq<Catalog>, c': Catalog)
    requires MirrorsSome(r, m, run, cats) && |cats| < |run| && Together(r, run[|cats|], c', m)
    requires Follows(r, run[|cats| - 1], run[|cats|], cats[|cats| - 1], c')
    ensures MirrorsSome(r, m, run, cats + [c'])
  {
    var longer := cats + [c'];
    forall i | 0 < i < |longer| ensures Follows(r, run[i - 1], run[i], longer[i - 1], longer[i]) {
      if i < |cats| { assert Follows(r, run[i - 1], run[i], cats[i - 1], cats[i]); }
    }
  }

  lemma HistoryStep(a: Adding, run: seq<Sys>, h: nat)
    requires IsHistory(a, run) && h + 1 < |run|
    ensures SysNext(a, run[h], run[h + 1])
  {
    assert SysNext(a, run[(h + 1) - 1], run[h + 1]);
  }

  lemma Lengthened(r: Repair, a: Adding, run: seq<Sys>, cats: seq<Catalog>) returns (longer: seq<Catalog>)
    requires PlannedBy(a, r) && IsHistory(a, run) && MirrorsSome(r, a.m, run, cats) && |cats| < |run|
    ensures MirrorsSome(r, a.m, run, longer) && |longer| == |cats| + 1
  {
    var h := |cats| - 1;
    HistoryStep(a, run, h);
    var c' := StepMirrored(r, a, run[h], run[h + 1], cats[h]);
    OneMoreMirrored(r, a.m, run, cats, c');
    longer := cats + [c'];
  }

  lemma {:induction false} MirroredFrom(r: Repair, a: Adding, run: seq<Sys>, cats: seq<Catalog>)
    returns (all: seq<Catalog>)
    requires PlannedBy(a, r) && IsHistory(a, run) && MirrorsSome(r, a.m, run, cats)
    ensures Mirrors(r, a.m, run, all)
    decreases |run| - |cats|
  {
    all := cats;
    if |cats| < |run| {
      all := Lengthened(r, a, run, cats);
      all := MirroredFrom(r, a, run, all);
    }
  }

  /**
   Every history of the planned add, whatever was left over, is mirrored by catalogs that start from
   what refresh saw, move by the effects Convergence gives the same tasks, and agree with the protocol
   on every slot for the new node and every subscription into it.
   */
  lemma HistoryMirrored(r: Repair, m: Name, s: Name, copied: bool, run: seq<Sys>) returns (cats: seq<Catalog>)
    requires r.Refreshed() && ProperlyNew(r.cfg, m, s) && CopyCounts(r, m, s, copied)
    requires IsHistory(AddOf(r, m, s, copied), run) && Agree(m, r.start, run[0].world)
    ensures Mirrors(r, m, run, cats)
  {
    IsAnAdd(r, m, s, copied);
    InitRepair(r, Repairing(run[0].exec, r.start));
    assert MirrorsSome(r, m, run, [r.start]);
    cats := MirroredFrom(r, AddOf(r, m, s, copied), run, [r.start]);
  }

  /** Such histories exist from every refreshed catalog. */
  lemma AgreedStart(r: Repair, m: Name, s: Name, copied: bool) returns (z: Sys)
    requires r.Refreshed() && ProperlyNew(r.cfg, m, s) && CopyCounts(r, m, s, copied)
    ensures IsHistory(AddOf(r, m, s, copied), [z]) && Agree(m, r.start, z.world)
  {
    var a := AddOf(r, m, s, copied);
    var first := P.InitialSys(a, 0);
    z := Sys(first.exec, map x | x in a.Providers() :: AsFound(r.start, m, x, P.Initial(a, x, 0)));
    NewIsConfigured(r.cfg, m);
    forall x | x in a.Providers() ensures ProviderInit(a, x, z.world[x]) && AgreeAt(r.start, m, x, z.world[x]) {
      AsFoundFits(r, m, s, copied, x);
    }
  }

  /** A broken subscription may be enabled or not. */
  function AsFound(c: Catalog, m: Name, x: Name, v: Provider): Provider {
    if v.sub.Enabled? && Sub(x, m) in c.subs && !c.subs[Sub(x, m)] then v.(sub := Disabled) else v
  }

  lemma AsFoundFits(r: Repair, m: Name, s: Name, copied: bool, x: Name)
    requires r.Refreshed() && ProperlyNew(r.cfg, m, s) && x in r.Names() && x != m && m in r.Names()
    ensures var a, v := AddOf(r, m, s, copied), AsFound(r.start, m, x, P.Initial(AddOf(r, m, s, copied), x, 0));
            ProviderInit(a, x, v) && AgreeAt(r.start, m, x, v)
  {
    assert InDesired(r.cfg, Sub(x, m));
    DiffOfDesired(r, Sub(x, m));
    P.InitialFits(AddOf(r, m, s, copied), x, 0);
  }

  /**
   An add that completes, whatever it found, brings up the whole mesh, and every existing node streams
   into the new one.
   */
  lemma CompletedEverywhere(r: Repair, m: Name, s: Name, copied: bool, run: seq<Sys>, cats: seq<Catalog>)
    requires r.Refreshed() && ProperlyNew(r.cfg, m, s) && CopyCounts(r, m, s, copied)
    requires Mirrors(r, m, run, cats) && run[|run| - 1].exec.phase == |r.Plan()|
    ensures MeshUp(r.Names(), cats[|run| - 1])
    ensures forall x | x in r.Names() && x != m :: x in run[|run| - 1].world && run[|run| - 1].world[x].Streaming()
  {
    var h := |run| - 1;
    assert Together(r, run[h], cats[h], m);
    NewIsConfigured(r.cfg, m);
    forall id | InMesh(r.Names(), id) ensures Assess(cats[h], id) == HEALTHY {
      FinishedIsHealthy(r, Repairing(run[h].exec, cats[h]), id);
    }
    HealthyIffMeshUp(r.Names(), cats[h]);
    forall x | x in r.Names() && x != m ensures x in run[h].world && run[h].world[x].Streaming() {
      assert AgreeAt(cats[h], m, x, run[h].world[x]);
    }
  }
}
