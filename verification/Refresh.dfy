/**
 RefreshActual (internal/spock/refresh.go): inspect every desired resource, discover orphans,
 and cross-check subscriptions with their provider-side slots.

 The desired and the actual map hold the same objects, so the health check, which works on
 the actual map, changes the status Plan later reads through the desired map.
 */
module Refresh {
  import opened Resources
  import opened Planning
  import opened Desired

  // ---------------------------------------------------------------------------------------
  // The catalogs of all configured databases
  // ---------------------------------------------------------------------------------------

  /** A spk_ logical slot on a database. */
  datatype Hosted = Hosted(host: Name, slot: Identifier)

  /** A node that host's spock.node lists besides the configured ones. */
  datatype Foreign = Foreign(survivor: Name, orphan: Name)

  datatype Catalog = Catalog(
    users: set<Name>,              // databases where the replication role exists
    nodes: set<Name>,              // databases with their local Spock node, under the database's own name
    subs: map<Identifier, bool>,   // Sub(a, b) on b, and whether it is enabled
    slots: set<Hosted>,
    foreign: set<Foreign>)

  /** What the resource's own Refresh finds on the database it is connected to. */
  function InspectFrom(c: Catalog, conn: Name, id: Identifier): Status {
    match id
    case User(_) => if conn in c.users then HEALTHY else MISSING
    case Node(n) => if n == conn && conn in c.nodes then HEALTHY else MISSING
    case Slot(_, _) => if Hosted(conn, id) in c.slots then HEALTHY else MISSING
    case Sub(_, b) => if conn != b || id !in c.subs then MISSING else if c.subs[id] then HEALTHY else DISABLED
    case _ => MISSING
  }

  /** What there is to be found of a resource. */
  function Inspect(c: Catalog, id: Identifier): Status {
    match id
    case User(n) => if n in c.users then HEALTHY else MISSING
    case Node(n) => if n in c.nodes then HEALTHY else MISSING
    case Slot(p, _) => if Hosted(p, id) in c.slots then HEALTHY else MISSING
    case Sub(_, _) => if id !in c.subs then MISSING else if c.subs[id] then HEALTHY else DISABLED
    case _ => MISSING
  }

  /** The status after the slot health check. */
  function Assess(c: Catalog, id: Identifier): Status {
    if id.Sub? && id in c.subs && Hosted(id.src, Slot(id.src, id.dst)) !in c.slots then BROKEN
    else Inspect(c, id)
  }

  ghost predicate OrphanNode(names: set<Name>, c: Catalog, o: Name, survivor: Name) {
    survivor in names && o !in names && Foreign(survivor, o) in c.foreign
  }

  ghost predicate OrphanSlot(names: set<Name>, c: Catalog, host: Name, slot: Identifier) {
    host in names && Hosted(host, slot) in c.slots && !InMesh(names, slot)
  }

  /** A key discoverOrphans adds. */
  ghost predicate Orphan(names: set<Name>, c: Catalog, k: Identifier) {
    match k
    case NodeAt(o, x) => OrphanNode(names, c, o, x)
    case Sub(o, x) => OrphanNode(names, c, o, x)
    case Slot(_, _) => exists h :: OrphanSlot(names, c, h, k)
    case RawSlot(_) => exists h :: OrphanSlot(names, c, h, k)
    case _ => false
  }

  /** pg_replication_slots only lists slots. */
  ghost predicate CatalogOk(c: Catalog) {
    && (forall h | h in c.slots :: h.slot.Slot? || h.slot.RawSlot?)
    && (forall k | k in c.subs :: k.Sub?)
  }

  ghost predicate InActual(cfg: Config, c: Catalog, k: Identifier) {
    (InDesired(cfg, k) && Inspect(c, k).exists_) || Orphan(NamesOf(cfg), c, k)
  }

  ghost predicate OrphanEntry(names: set<Name>, c: Catalog, k: Identifier, r: Resource) {
    match k
    case NodeAt(o, x) => r.id == Node(o) && r.conn == x && r.deps == [User(o)]
    case Sub(o, x) => r.id == k && r.conn == x && r.deps == [Node(o), Node(x), Slot(o, x)]
    case _ => r.id == k && OrphanSlot(names, c, r.conn, k) && r.deps == [Node(r.conn)]
  }

  ghost function Objects(m: map<Identifier, Resource>): set<Resource> {
    set k | k in m :: m[k]
  }

  // ---------------------------------------------------------------------------------------
  // RefreshActual
  // ---------------------------------------------------------------------------------------

  /**
   On success: a desired subscription is marked for recreation iff it exists and its provider
   slot does not, which overrides "disabled"; every other status is what inspection found; the
   actual map holds the existing desired resources, as the same objects, and the orphans.
   */
  method RefreshActual(cfg: Config, c: Catalog, desired: map<Identifier, Resource>)
    returns (actual: Option<map<Identifier, Resource>>)
    requires KeysAreIds(desired) && IsDesiredGraph(cfg, DepsView(desired)) && AtHome(desired) && CatalogOk(c)
    modifies Objects(desired)
    ensures actual.Some? ==> SlotsListed(NamesOf(cfg), c, actual.value.Keys)
    ensures actual.Some? ==>
              && (forall k | k in desired :: desired[k].status == Assess(c, k))
              && (forall k :: k in actual.value <==> InActual(cfg, c, k))
              && (forall k | k in actual.value && k in desired :: actual.value[k] == desired[k])
              && (forall k | k in actual.value && k !in desired :: OrphanEntry(NamesOf(cfg), c, k, actual.value[k]))
              && (forall k | k in actual.value && k !in desired && k.Sub? ::
                    actual.value[k].status == if Slot(k.src, k.dst) in actual.value then HEALTHY else BROKEN)
  {
    var found := InspectAll(c, desired);
    if found.None? { return None; }
    var all := DiscoverOrphans(cfg, c, desired, found.value);
    AllListed(cfg, c, all.Keys);
    ghost var subs := set k | k in all && k.Sub? :: all[k];
    assert forall k | k in desired && !(k.Sub? && k in all) :: desired[k] !in subs;
    CheckSlotHealth(all);
    forall k | k in desired ensures desired[k].status == Assess(c, k) {
      AssessCases(c, k);
      if k.Sub? && k in all {
        assert all[k] == desired[k];
        assert Slot(k.src, k.dst) in all <==> Hosted(k.src, Slot(k.src, k.dst)) in c.slots;
      } else {
        assert desired[k].status == Inspect(c, k);
      }
    }
    actual := Some(all);
  }

  /** Every spk_ slot of a configured node that belongs to no pair of the mesh is listed, whoever its subscriber was. */
  ghost predicate SlotsListed(names: set<Name>, c: Catalog, keys: set<Identifier>) {
    && (forall h | h in c.slots && h.host in names && !InMesh(names, h.slot) :: h.slot in keys)
    && (forall k | k in keys && (k.Slot? || k.RawSlot?) ::
          if InMesh(names, k) then Hosted(k.provider, k) in c.slots
          else exists h :: h in c.slots && h.host in names && h.slot == k)
  }

  lemma AllListed(cfg: Config, c: Catalog, keys: set<Identifier>)
    requires CatalogOk(c) && forall k :: k in keys <==> InActual(cfg, c, k)
    ensures SlotsListed(NamesOf(cfg), c, keys)
  {
    var names := NamesOf(cfg);
    forall h | h in c.slots && h.host in names && !InMesh(names, h.slot) ensures h.slot in keys {
      assert OrphanSlot(names, c, h.host, h.slot);
      assert InActual(cfg, c, h.slot);
    }
    forall k | k in keys && (k.Slot? || k.RawSlot?)
      ensures if InMesh(names, k) then Hosted(k.provider, k) in c.slots
              else exists h :: h in c.slots && h.host in names && h.slot == k
    {
      assert InActual(cfg, c, k);
      if x :| OrphanSlot(names, c, x, k) { assert Hosted(x, k).slot == k; }
    }
  }

  /** Recreated when its slot is gone, enabled when disabled with its slot, left alone when enabled with its slot. */
  lemma SubAssessed(c: Catalog, a: Name, b: Name)
    ensures var there, slot, s := Sub(a, b) in c.subs, Hosted(a, Slot(a, b)) in c.slots, Assess(c, Sub(a, b));
            && (s.exists_ <==> there)
            && (s.needsRecreate <==> there && !slot)
            && (s.needsUpdate <==> there && slot && !c.subs[Sub(a, b)])
  {
  }

  lemma AssessCases(c: Catalog, k: Identifier)
    ensures Assess(c, k) == if k.Sub? && Inspect(c, k).exists_ && Hosted(k.src, Slot(k.src, k.dst)) !in c.slots
                            then BROKEN else Inspect(c, k)
  {
  }

  /** First loop: refresh every desired resource; keep the ones that exist. */
  method InspectAll(c: Catalog, desired: map<Identifier, Resource>) returns (actual: Option<map<Identifier, Resource>>)
    requires KeysAreIds(desired) && AtHome(desired)
    modifies Objects(desired)
    ensures actual.Some? ==>
              && (forall k | k in desired :: desired[k].status == Inspect(c, k))
              && (forall k :: k in actual.value <==> k in desired && Inspect(c, k).exists_)
              && (forall k | k in actual.value :: actual.value[k] == desired[k])
  {
    var kept: map<Identifier, Resource> := map[];
    var todo := desired.Keys;
    while todo != {}
      invariant todo <= desired.Keys
      invariant forall k | k in desired.Keys - todo :: desired[k].status == Inspect(c, k)
      invariant forall k :: k in kept <==> k in desired.Keys - todo && Inspect(c, k).exists_
      invariant forall k | k in kept :: kept[k] == desired[k]
      decreases todo
    {
      var id :| id in todo;
      todo := todo - {id};
      var fails: bool := *;
      if fails { return None; }
      desired[id].status := InspectFrom(c, desired[id].conn, desired[id].id);
      if desired[id].status.exists_ { kept := kept[id := desired[id]]; }
    }
    actual := Some(kept);
  }

  method DiscoverOrphans(cfg: Config, c: Catalog, desired: map<Identifier, Resource>, found: map<Identifier, Resource>)
    returns (all: map<Identifier, Resource>)
    requires KeysAreIds(desired) && IsDesiredGraph(cfg, DepsView(desired)) && CatalogOk(c)
    requires forall k :: k in found <==> k in desired && Inspect(c, k).exists_
    requires forall k | k in found :: found[k] == desired[k]
    ensures forall k :: k in all <==> InActual(cfg, c, k)
    ensures forall k | k in desired :: k in all <==> Inspect(c, k).exists_
    ensures forall k | k in all && k in desired :: all[k] == desired[k]
    ensures forall k | k in all && !k.NodeAt? :: all[k].id == k
    ensures forall k | k in all && k !in desired :: OrphanEntry(NamesOf(cfg), c, k, all[k])
    ensures forall k | k in all && k !in desired :: fresh(all[k]) && all[k].status == HEALTHY
    ensures forall k | k in desired && k.Sub? ::
              Slot(k.src, k.dst) in all <==> Hosted(k.src, Slot(k.src, k.dst)) in c.slots
  {
    ghost var orphans;
    var expectedSlots := ExpectedSlots(cfg);
    all, orphans := DiscoverAll(cfg, c, expectedSlots, found);
    OrphansNotDesired(cfg, DepsView(desired), c);
    AllKeys(cfg, c, desired, found, orphans, all);
  }

  /** The slots of all ordered pairs of configured nodes. */
  method ExpectedSlots(cfg: Config) returns (expectedSlots: set<Identifier>)
    ensures forall k :: k in expectedSlots <==> k.Slot? && InMesh(NamesOf(cfg), k)
  {
    expectedSlots := {};
    for i := 0 to |cfg|
      invariant forall k :: k in expectedSlots <==>
                  k.Slot? && InMesh(NamesOf(cfg), k) && k.provider in NamesOf(cfg[..i])
    {
      NamesPrefix(cfg, i);
      var src := cfg[i].name;
      ghost var before := expectedSlots;
      assert src in NamesOf(cfg) by { assert cfg[i] in cfg; }
      for j := 0 to |cfg|
        invariant forall k :: k in expectedSlots <==>
                    k in before || (k.Slot? && k.provider == src && k.subscriber in NamesOf(cfg[..j])
                                    && k.subscriber != src)
      {
        NamesPrefix(cfg, j);
        if src != cfg[j].name { expectedSlots := expectedSlots + {Slot(src, cfg[j].name)}; }
      }
      assert cfg[..|cfg|] == cfg;
    }
    assert cfg[..|cfg|] == cfg;
  }

  /** What scanning one survivor, or several, adds to the actual map. */
  ghost predicate Scanned(names: set<Name>, c: Catalog, start: map<Identifier, Resource>,
                          all: map<Identifier, Resource>, added: map<Identifier, Resource>) {
    && all == start + added
    && forall k | k in added :: Orphan(names, c, k) && OrphanEntry(names, c, k, added[k])
  }

  /** The loop over survivors. */
  method DiscoverAll(cfg: Config, c: Catalog, expectedSlots: set<Identifier>, found: map<Identifier, Resource>)
    returns (all: map<Identifier, Resource>, ghost orphans: map<Identifier, Resource>)
    requires CatalogOk(c) && forall k :: k in expectedSlots <==> k.Slot? && InMesh(NamesOf(cfg), k)
    ensures Scanned(NamesOf(cfg), c, found, all, orphans)
    ensures forall k | k in orphans :: fresh(orphans[k]) && orphans[k].status == HEALTHY
    ensures forall k | Orphan(NamesOf(cfg), c, k) :: k in all
  {
    all, orphans := found, map[];
    for i := 0 to |cfg|
      invariant Scanned(NamesOf(cfg), c, found, all, orphans)
      invariant forall k | k in orphans :: fresh(orphans[k]) && orphans[k].status == HEALTHY
      invariant forall j | 0 <= j < i :: Covered(NamesOf(cfg), c, cfg[j].name, all)
    {
      ghost var added, before := map[], all;
      all, added := DiscoverAt(cfg, c, expectedSlots, all, cfg[i].name);
      ScannedTwice(NamesOf(cfg), c, found, before, all, orphans, added);
      forall j | 0 <= j < i ensures Covered(NamesOf(cfg), c, cfg[j].name, all) {
        CoveredGrows(NamesOf(cfg), c, cfg[j].name, before, all);
      }
      orphans := orphans + added;
    }
    AllCovered(cfg, c, all);
  }

  /** One survivor: its orphan nodes, then its orphan slots. */
  method DiscoverAt(cfg: Config, c: Catalog, expectedSlots: set<Identifier>, start: map<Identifier, Resource>,
                    survivor: Name)
    returns (all: map<Identifier, Resource>, ghost added: map<Identifier, Resource>)
    requires survivor in NamesOf(cfg) && CatalogOk(c)
    requires forall k :: k in expectedSlots <==> k.Slot? && InMesh(NamesOf(cfg), k)
    ensures Scanned(NamesOf(cfg), c, start, all, added)
    ensures forall k | k in added :: fresh(added[k]) && added[k].status == HEALTHY
    ensures Covered(NamesOf(cfg), c, survivor, all)
  {
    ghost var nodes, slots;
    all, nodes := DiscoverNodes(cfg, c, start, survivor);
    ghost var middle := all;
    all, slots := DiscoverSlots(cfg, c, expectedSlots, all, survivor);
    ScannedTwice(NamesOf(cfg), c, start, middle, all, nodes, slots);
    added := nodes + slots;
    forall k | AtSurvivor(NamesOf(cfg), c, k, survivor) ensures k in all {
      assert k.NodeAt? || k.Sub? || k.Slot? || k.RawSlot?;
    }
  }

  lemma AllCovered(cfg: Config, c: Catalog, all: map<Identifier, Resource>)
    requires forall j | 0 <= j < |cfg| :: Covered(NamesOf(cfg), c, cfg[j].name, all)
    ensures forall k | Orphan(NamesOf(cfg), c, k) :: k in all
  {
    forall k | Orphan(NamesOf(cfg), c, k) ensures k in all {
      var x := WhereOrphan(NamesOf(cfg), c, k);
      var j :| 0 <= j < |cfg| && cfg[j].name == x;
      assert Covered(NamesOf(cfg), c, cfg[j].name, all);
    }
  }

  /** Every orphan visible from x has been added. */
  ghost predicate Covered(names: set<Name>, c: Catalog, x: Name, all: map<Identifier, Resource>) {
    forall k | AtSurvivor(names, c, k, x) :: k in all
  }

  lemma ScannedTwice(names: set<Name>, c: Catalog, a: map<Identifier, Resource>, b: map<Identifier, Resource>,
                     d: map<Identifier, Resource>, added: map<Identifier, Resource>, more: map<Identifier, Resource>)
    requires Scanned(names, c, a, b, added) && Scanned(names, c, b, d, more)
    ensures Scanned(names, c, a, d, added + more)
  {
  }

  lemma CoveredGrows(names: set<Name>, c: Catalog, x: Name, before: map<Identifier, Resource>,
                     all: map<Identifier, Resource>)
    requires before.Keys <= all.Keys && Covered(names, c, x, before)
    ensures Covered(names, c, x, all)
  {
  }

  lemma AllKeys(cfg: Config, c: Catalog, desired: map<Identifier, Resource>, found: map<Identifier, Resource>,
                orphans: map<Identifier, Resource>, all: map<Identifier, Resource>)
    requires KeysAreIds(desired) && IsDesiredGraph(cfg, DepsView(desired))
    requires forall k :: k in found <==> k in desired && Inspect(c, k).exists_
    requires forall k | k in found :: found[k] == desired[k]
    requires all == found + orphans
    requires forall k | k in orphans :: Orphan(NamesOf(cfg), c, k) && OrphanEntry(NamesOf(cfg), c, k, orphans[k])
    requires forall k | Orphan(NamesOf(cfg), c, k) :: k in all && k !in desired
    ensures forall k :: k in all <==> InActual(cfg, c, k)
    ensures forall k | k in desired :: k in all <==> Inspect(c, k).exists_
    ensures forall k | k in all && k in desired :: k in found && all[k] == desired[k]
    ensures forall k | k in all && k !in desired :: k in orphans && all[k] == orphans[k]
    ensures forall k | k in all && !k.NodeAt? :: all[k].id == k
    ensures forall k | k in desired && k.Sub? ::
              Slot(k.src, k.dst) in all <==> Hosted(k.src, Slot(k.src, k.dst)) in c.slots
  {
    forall k ensures k in desired <==> InDesired(cfg, k) {
      assert k in DepsView(desired) <==> InDesired(cfg, k);
    }
    forall k | k in desired && k.Sub?
      ensures Slot(k.src, k.dst) in all <==> Hosted(k.src, Slot(k.src, k.dst)) in c.slots
    {
      assert InDesired(cfg, k) && InDesired(cfg, Slot(k.src, k.dst));
    }
  }

  /** k is an orphan visible from survivor x. */
  ghost predicate AtSurvivor(names: set<Name>, c: Catalog, k: Identifier, x: Name) {
    match k
    case NodeAt(o, y) => y == x && OrphanNode(names, c, o, x)
    case Sub(o, y) => y == x && OrphanNode(names, c, o, x)
    case Slot(_, _) => OrphanSlot(names, c, x, k)
    case RawSlot(_) => OrphanSlot(names, c, x, k)
    case _ => false
  }

  lemma WhereOrphan(names: set<Name>, c: Catalog, k: Identifier) returns (x: Name)
    requires Orphan(names, c, k)
    ensures x in names && AtSurvivor(names, c, k, x)
  {
    if k.NodeAt? {
      x := k.survivor;
    } else if k.Sub? {
      x := k.dst;
    } else {
      x :| OrphanSlot(names, c, x, k);
    }
  }

  lemma OrphansNotDesired(cfg: Config, deps: Deps, c: Catalog)
    requires IsDesiredGraph(cfg, deps)
    ensures forall k | Orphan(NamesOf(cfg), c, k) :: k !in deps
  {
    forall k | Orphan(NamesOf(cfg), c, k) ensures k !in deps {
      assert k in deps <==> InDesired(cfg, k);
    }
  }

  /** One SpockNode and one Subscription per orphan node seen by the survivor. */
  method DiscoverNodes(cfg: Config, c: Catalog, start: map<Identifier, Resource>, survivor: Name)
    returns (all: map<Identifier, Resource>, ghost added: map<Identifier, Resource>)
    requires survivor in NamesOf(cfg)
    ensures Scanned(NamesOf(cfg), c, start, all, added)
    ensures forall k | k in added :: fresh(added[k]) && added[k].status == HEALTHY
    ensures forall k: Identifier | (k.NodeAt? || k.Sub?) && AtSurvivor(NamesOf(cfg), c, k, survivor) :: k in all
  {
    all, added := start, map[];
    ghost var names := NamesOf(cfg);
    var configNames := set n | n in cfg :: n.name;
    var rows := set f | f in c.foreign && f.survivor == survivor && f.orphan !in configNames;
    while rows != {}
      invariant forall f | f in rows :: f in c.foreign && f.survivor == survivor && f.orphan !in configNames
      invariant Scanned(names, c, start, all, added)
      invariant forall k | k in added :: fresh(added[k]) && added[k].status == HEALTHY
      invariant forall o | OrphanNode(names, c, o, survivor) && Foreign(survivor, o) !in rows ::
                  NodeAt(o, survivor) in added && Sub(o, survivor) in added
      decreases rows
    {
      var f :| f in rows;
      rows := rows - {f};
      ghost var before, pair := all, map[];
      all, pair := AddOrphanNode(configNames, c, all, f.orphan, survivor);
      ScannedTwice(names, c, start, before, all, added, pair);
      added := added + pair;
    }
  }

  method AddOrphanNode(names: set<Name>, c: Catalog, start: map<Identifier, Resource>, o: Name, survivor: Name)
    returns (all: map<Identifier, Resource>, ghost pair: map<Identifier, Resource>)
    requires OrphanNode(names, c, o, survivor)
    ensures Scanned(names, c, start, all, pair) && pair.Keys == {NodeAt(o, survivor), Sub(o, survivor)}
    ensures forall k | k in pair :: fresh(pair[k]) && pair[k].status == HEALTHY
  {
    var n := new Resource(survivor, Node(o), [User(o)], false, null);
    n.status := HEALTHY;
    all := start[NodeAt(o, survivor) := n];
    var s := new Resource(survivor, Sub(o, survivor), [Node(o), Node(survivor), Slot(o, survivor)], false, null);
    s.status := HEALTHY;
    all := all[Sub(o, survivor) := s];
    pair := map[NodeAt(o, survivor) := n, Sub(o, survivor) := s];
  }

  /** Slots that no configured pair expects; the first survivor that reports a name owns it. */
  method DiscoverSlots(cfg: Config, c: Catalog, expectedSlots: set<Identifier>, start: map<Identifier, Resource>,
                       survivor: Name)
    returns (all: map<Identifier, Resource>, ghost added: map<Identifier, Resource>)
    requires survivor in NamesOf(cfg) && CatalogOk(c)
    requires forall k :: k in expectedSlots <==> k.Slot? && InMesh(NamesOf(cfg), k)
    ensures Scanned(NamesOf(cfg), c, start, all, added) && added.Keys !! start.Keys
    ensures forall k | k in added :: fresh(added[k]) && added[k].status == HEALTHY
    ensures forall k: Identifier | (k.Slot? || k.RawSlot?) && AtSurvivor(NamesOf(cfg), c, k, survivor) :: k in all
  {
    all, added := start, map[];
    ghost var names := NamesOf(cfg);
    var rows := set h | h in c.slots && h.host == survivor;
    while rows != {}
      invariant forall h | h in rows :: h in c.slots && h.host == survivor
      invariant Scanned(names, c, start, all, added) && added.Keys !! start.Keys
      invariant forall k | k in added :: fresh(added[k]) && added[k].status == HEALTHY
      invariant forall k | OrphanSlot(names, c, survivor, k) && Hosted(survivor, k) !in rows :: k in all
      decreases rows
    {
      var h :| h in rows;
      rows := rows - {h};
      if h.slot !in expectedSlots && h.slot !in all {
        assert OrphanSlot(names, c, survivor, h.slot);
        var orphan := new Resource(survivor, h.slot, [Node(survivor)], false, null);
        orphan.status := HEALTHY;
        ghost var before := all;
        all := all[h.slot := orphan];
        ScannedMore(names, c, start, before, added, survivor, orphan);
        added := added[h.slot := orphan];
      }
    }
  }

  lemma ScannedMore(names: set<Name>, c: Catalog, start: map<Identifier, Resource>, all: map<Identifier, Resource>,
                    added: map<Identifier, Resource>, survivor: Name, orphan: Resource)
    requires Scanned(names, c, start, all, added) && orphan.id !in all && OrphanSlot(names, c, survivor, orphan.id)
    requires (orphan.id.Slot? || orphan.id.RawSlot?) && orphan.conn == survivor && orphan.deps == [Node(survivor)]
    ensures Scanned(names, c, start, all[orphan.id := orphan], added[orphan.id := orphan])
  {
  }

  /** checkSlotHealth: subscriptions whose provider slot is not in the actual map. */
  method CheckSlotHealth(actual: map<Identifier, Resource>)
    requires forall k | k in actual && k.Sub? :: actual[k].id == k
    modifies set k | k in actual && k.Sub? :: actual[k]
    ensures forall k | k in actual && k.Sub? ::
              actual[k].status == if Slot(k.src, k.dst) in actual then old(actual[k].status) else BROKEN
  {
    var todo := actual.Keys;
    while todo != {}
      invariant todo <= actual.Keys
      invariant forall k | k in actual && k.Sub? ::
                  actual[k].status
                  == if k in todo || Slot(k.src, k.dst) in actual then old(actual[k].status) else BROKEN
      decreases todo
    {
      var id :| id in todo;
      todo := todo - {id};
      if id.Sub? && Slot(id.src, id.dst) !in actual {
        actual[id].status := BROKEN;
      }
    }
  }
}
