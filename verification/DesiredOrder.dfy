/**
 What the dependency edges of the desired graph guarantee: when it is closed, when it is
 acyclic, and which orderings the phases impose although no edge asks for them.
 */
module DesiredOrder {
  import opened Resources
  import opened Layering
  import opened Sorting
  import opened Planning
  import opened Desired

  /** Every dependency of a resource in the map is itself in the map. */
  ghost predicate ClosedGraph(deps: Deps) {
    forall x, d | x in deps && d in deps[x] :: d in deps
  }

  /** The dependency graph of some of the resources, in create order. */
  ghost predicate AcyclicOn(ids: set<Identifier>, deps: Deps) {
    Acyclic(ids, LinksOn(ids, deps, false))
  }

  lemma {:induction false} GatesExact(cfg: Config, m: Name, s: Name, d: Identifier)
    ensures d in Gates(cfg, m, s) <==>
            exists p :: p in NamesOf(cfg) - {m, s} && (d == WaitEvent(p, s) || d == PeerCatchup(p, s))
  {
    if cfg != [] {
      var n := |cfg| - 1;
      GatesExact(cfg[..n], m, s, d);
      NamesPrefix(cfg, n);
      assert cfg[..n + 1] == cfg;
      var p := cfg[n].name;
      if d in Gates(cfg, m, s) && d !in Gates(cfg[..n], m, s) {
        assert p in NamesOf(cfg) - {m, s} && (d == WaitEvent(p, s) || d == PeerCatchup(p, s));
      }
    }
  }

  /** The names map knows only configured nodes. */
  lemma {:induction false} NewIsConfigured(cfg: Config, m: Name)
    requires SourceOf(cfg, m).Some?
    ensures m in NamesOf(cfg)
  {
    if cfg != [] {
      var last := cfg[|cfg| - 1];
      if !(last.name == m && Bootstraps(last)) {
        NewIsConfigured(cfg[..|cfg| - 1], m);
        var n :| n in cfg[..|cfg| - 1] && n.name == m;
        assert n in cfg;
      }
    }
  }

  // ---------------------------------------------------------------------------------------
  // At most one new node: a rank decreases along every edge
  // ---------------------------------------------------------------------------------------

  function Rank(m: Name, s: Name, id: Identifier): (r: nat)
    ensures r <= 12
  {
    match id
    case User(_) => 0
    case Node(_) => 1
    case Slot(_, _) => 2
    case SlotCreate(_, _) => 2
    case DisabledSub(_, _) => 3
    case Sub(a, b) => if b == m then (if a == s then 6 else 12) else if a == m then 9 else 3
    case SyncEvent(p, x) => if p == s && x == m then 7 else 4
    case WaitEvent(p, x) => if p == s && x == m then 8 else 5
    case PeerCatchup(_, _) => 5
    case LagTracker(_, _) => 9
    case SlotAdvance(_, _) => 10
    case OriginAdvance(_, _) => 11
    case _ => 0
  }

  lemma EdgeDescends(cfg: Config, deps: Deps, m: Name, s: Name, x: Identifier, d: Identifier)
    requires IsDesiredGraph(cfg, deps) && OnlyNew(cfg, m, s) && s in NamesOf(cfg) && s != m
    requires x in deps && d in deps[x]
    ensures d in deps && Rank(m, s, d) < Rank(m, s, x)
  {
    assert InDesired(cfg, x) && DepsAllowed(cfg, x, deps[x]);
    NewIsConfigured(cfg, m);
    if x.Ephemeral() {
      assert forall n :: Populates(cfg, n, x) ==> n == m;
      assert deps[x] == ChainDeps(m, s, x);
      assert d.Ephemeral() ==> Populates(cfg, m, d);
      assert InDesired(cfg, d);
    } else if x.Sub? {
      if d in ExtraDeps(cfg, x.src, x.dst) {
        if x.src == s && x.dst == m { GatesExact(cfg, m, s, d); }
        assert Populates(cfg, m, d);
      }
      assert InDesired(cfg, d);
    } else {
      assert InDesired(cfg, d);
    }
  }

  function MeshRank(id: Identifier): nat {
    match id case User(_) => 0 case Node(_) => 1 case Slot(_, _) => 2 case _ => 3
  }

  lemma MeshEdgeDescends(cfg: Config, deps: Deps, x: Identifier, d: Identifier)
    requires IsDesiredGraph(cfg, deps) && NoNew(cfg)
    requires x in deps && d in deps[x]
    ensures d in deps && MeshRank(d) < MeshRank(x)
  {
    assert InDesired(cfg, x) && DepsAllowed(cfg, x, deps[x]);
    assert InDesired(cfg, d);
  }

  /** A rank that descends along dependencies rules out cycles, in both directions. */
  lemma RankedIsAcyclic(deps: Deps, ids: set<Identifier>, rank: map<Identifier, nat>, reverse: bool)
    requires ids <= deps.Keys && ids <= rank.Keys
    requires forall x, d | x in ids && d in ids && d in deps[x] :: rank[d] < rank[x] <= 20
    ensures Acyclic(ids, LinksOn(ids, deps, reverse))
  {
    var number := map x | x in ids :: if !reverse then rank[x] else if rank[x] <= 20 then (20 - rank[x]) as nat else 0;
    forall a, b | a in ids && b in ids && Edge(a, b) in LinksOn(ids, deps, reverse)
      ensures number[a] < number[b]
    {
      if reverse { assert b in deps[a]; } else { assert a in deps[b]; }
    }
    NumberingIsAcyclic(ids, LinksOn(ids, deps, reverse), number);
  }

  lemma OneNewDescends(cfg: Config, deps: Deps, m: Name, s: Name)
    requires IsDesiredGraph(cfg, deps) && OnlyNew(cfg, m, s) && s in NamesOf(cfg) && s != m
    ensures ClosedGraph(deps)
    ensures forall x, d | x in deps && d in deps[x] :: Rank(m, s, d) < Rank(m, s, x)
  {
    forall x, d | x in deps && d in deps[x]
      ensures d in deps && Rank(m, s, d) < Rank(m, s, x)
    {
      EdgeDescends(cfg, deps, m, s, x, d);
    }
  }

  lemma RankOrders(deps: Deps, m: Name, s: Name, ids: set<Identifier>, reverse: bool)
    requires forall x, d | x in deps && d in deps[x] :: Rank(m, s, d) < Rank(m, s, x)
    requires ids <= deps.Keys
    ensures Acyclic(ids, LinksOn(ids, deps, reverse))
  {
    RankedIsAcyclic(deps, ids, map x | x in ids :: Rank(m, s, x), reverse);
  }

  /**
   With at most one new node, copied from another configured node, the desired graph is closed
   and every subset of it is acyclic in create and in delete order: topoSort never falls back.
   */
  lemma OneNewIsOrdered(cfg: Config, deps: Deps, m: Name, s: Name, ids: set<Identifier>, reverse: bool)
    requires IsDesiredGraph(cfg, deps) && OnlyNew(cfg, m, s) && s in NamesOf(cfg) && s != m
    requires ids <= deps.Keys
    ensures ClosedGraph(deps)
    ensures Acyclic(ids, LinksOn(ids, deps, reverse))
  {
    OneNewDescends(cfg, deps, m, s);
    RankOrders(deps, m, s, ids, reverse);
  }

  lemma NoNewDescends(cfg: Config, deps: Deps)
    requires IsDesiredGraph(cfg, deps) && NoNew(cfg)
    ensures ClosedGraph(deps)
    ensures forall x, d | x in deps && d in deps[x] :: MeshRank(d) < MeshRank(x)
  {
    forall x, d | x in deps && d in deps[x]
      ensures d in deps && MeshRank(d) < MeshRank(x)
    {
      MeshEdgeDescends(cfg, deps, x, d);
    }
  }

  lemma NoNewIsOrdered(cfg: Config, deps: Deps, ids: set<Identifier>, reverse: bool)
    requires IsDesiredGraph(cfg, deps) && NoNew(cfg) && ids <= deps.Keys
    ensures ClosedGraph(deps)
    ensures Acyclic(ids, LinksOn(ids, deps, reverse))
  {
    NoNewDescends(cfg, deps);
    RankedIsAcyclic(deps, ids, map x | x in ids :: MeshRank(x), reverse);
  }

  /** With one new node the graph is closed exactly when its source is another configured node. */
  lemma ClosedIff(cfg: Config, deps: Deps, m: Name, s: Name)
    requires IsDesiredGraph(cfg, deps) && OnlyNew(cfg, m, s)
    ensures ClosedGraph(deps) <==> s in NamesOf(cfg) && s != m
  {
    if s in NamesOf(cfg) && s != m {
      OneNewIsOrdered(cfg, deps, m, s, {}, false);
    } else {
      var x := SyncEvent(s, m);
      assert Populates(cfg, m, x);
      assert x in deps && DepsAllowed(cfg, x, deps[x]);
      assert deps[x] == ChainDeps(m, s, x);
      assert Sub(s, m) in deps[x] && !InDesired(cfg, Sub(s, m));
    }
  }

  // ---------------------------------------------------------------------------------------
  // Orderings no edge asks for
  // ---------------------------------------------------------------------------------------

  /** creates holds everything an add of m must create: the chain and the source→m subscription. */
  ghost predicate AddsNode(cfg: Config, m: Name, s: Name, creates: set<Identifier>) {
    (forall id | Populates(cfg, m, id) :: id in creates) && Sub(s, m) in creates
  }

  /** y waits on x. */
  ghost predicate Waits(deps: Deps, x: Identifier, y: Identifier) {
    x in deps && y in deps && x in deps[y]
  }

  lemma WaitingChain(ids: set<Identifier>, deps: Deps, c: seq<Identifier>)
    requires |c| > 0 && forall i | 0 <= i < |c| :: c[i] in ids
    requires forall i | 0 < i < |c| :: Waits(deps, c[i - 1], c[i])
    ensures HasChain(c[|c| - 1], |c| - 1, ids, LinksOn(ids, deps, false))
  {
    forall i | 0 < i < |c| ensures Edge(c[i - 1], c[i]) in LinksOn(ids, deps, false) {
      assert Waits(deps, c[i - 1], c[i]);
      Linked(ids, deps, c[i - 1], c[i]);
    }
    assert EndsIn(c, c[|c| - 1], |c| - 1, ids, LinksOn(ids, deps, false));
  }

  lemma SixEdgesToLagTracker(cfg: Config, deps: Deps, m: Name, s: Name, creates: set<Identifier>, p: Name)
    requires IsDesiredGraph(cfg, deps) && OnlyNew(cfg, m, s) && s in NamesOf(cfg) && s != m
    requires creates <= deps.Keys && AddsNode(cfg, m, s, creates) && p in NamesOf(cfg) - {m, s}
    ensures HasChain(LagTracker(p, m), 6, creates, LinksOn(creates, deps, false))
  {
    SourceEdges(cfg, deps, m, s);
    GateEdges(cfg, deps, m, s, p);
    PeerEdges(cfg, deps, m, s, p);
    FirstEdge(cfg, deps, m, s, p);
    SixSteps(deps, creates, SlotCreate(p, m), SyncEvent(p, s), WaitEvent(p, s), Sub(s, m), SyncEvent(s, m),
             WaitEvent(s, m), LagTracker(p, m));
  }

  lemma FirstEdge(cfg: Config, deps: Deps, m: Name, s: Name, p: Name)
    requires IsDesiredGraph(cfg, deps) && OnlyNew(cfg, m, s) && p in NamesOf(cfg) - {m, s}
    ensures Waits(deps, SlotCreate(p, m), SyncEvent(p, s))
    ensures forall id | id in {SlotCreate(p, m), SyncEvent(p, s), WaitEvent(p, s), SyncEvent(s, m), WaitEvent(s, m),
                               LagTracker(p, m)} :: Populates(cfg, m, id)
  {
    assert Populates(cfg, m, SlotCreate(p, m)) && Populates(cfg, m, SyncEvent(p, s));
    OnlyChainDeps(cfg, deps, m, s, SyncEvent(p, s));
  }

  lemma SixSteps(deps: Deps, ids: set<Identifier>, a: Identifier, b: Identifier, c: Identifier, d: Identifier,
                 e: Identifier, f: Identifier, g: Identifier)
    requires {a, b, c, d, e, f, g} <= ids
    requires Waits(deps, a, b) && Waits(deps, b, c) && Waits(deps, c, d) && Waits(deps, d, e) && Waits(deps, e, f)
             && Waits(deps, f, g)
    ensures HasChain(g, 6, ids, LinksOn(ids, deps, false))
  {
    WaitingChain(ids, deps, [a, b, c, d, e, f, g]);
  }

  lemma OnlyChainDeps(cfg: Config, deps: Deps, m: Name, s: Name, x: Identifier)
    requires IsDesiredGraph(cfg, deps) && OnlyNew(cfg, m, s) && x in deps && x.Ephemeral()
    ensures Populates(cfg, m, x) && deps[x] == ChainDeps(m, s, x)
  {
    assert DepsAllowed(cfg, x, deps[x]);
  }

  lemma Linked(ids: set<Identifier>, deps: Deps, d: Identifier, x: Identifier)
    requires d in ids && x in ids && x in deps && d in deps[x]
    ensures Edge(d, x) in LinksOn(ids, deps, false)
  {
    assert Link(x, d, false) == Edge(d, x);
  }

  /**
   The disabled p→m registration is always phased before the lag tracker reads m, and before
   the end-state p→m subscription, although neither depends on it: only the longest-chain
   layering puts it there.
   */
  lemma DisabledBeforeLagTracker(cfg: Config, deps: Deps, m: Name, s: Name, creates: set<Identifier>, p: Name)
    returns (j: nat, k: nat)
    requires IsDesiredGraph(cfg, deps) && OnlyNew(cfg, m, s) && s in NamesOf(cfg) && s != m
    requires creates <= deps.Keys && AddsNode(cfg, m, s, creates) && p in NamesOf(cfg) - {m, s}
    ensures LagTracker(p, m) !in deps[DisabledSub(p, m)] && DisabledSub(p, m) !in deps[LagTracker(p, m)]
    ensures j < k
    ensures InLayer(DisabledSub(p, m), j, Layers(creates, LinksOn(creates, deps, false)))
    ensures InLayer(LagTracker(p, m), k, Layers(creates, LinksOn(creates, deps, false)))
  {
    assert Populates(cfg, m, DisabledSub(p, m)) && Populates(cfg, m, LagTracker(p, m));
    OnlyChainDeps(cfg, deps, m, s, DisabledSub(p, m));
    OnlyChainDeps(cfg, deps, m, s, LagTracker(p, m));
    OneNewDescends(cfg, deps, m, s);
    SixEdgesToLagTracker(cfg, deps, m, s, creates, p);
    j, k := ShallowBeforeDeep(deps, m, s, creates, DisabledSub(p, m), LagTracker(p, m));
  }

  lemma ShallowBeforeDeep(deps: Deps, m: Name, s: Name, ids: set<Identifier>, x: Identifier, y: Identifier)
    returns (j: nat, k: nat)
    requires forall v, d | v in deps && d in deps[v] :: Rank(m, s, d) < Rank(m, s, v)
    requires ids <= deps.Keys && x in ids && y in ids
    requires Rank(m, s, x) < 6 && HasChain(y, 6, ids, LinksOn(ids, deps, false))
    ensures j < k
    ensures InLayer(x, j, Layers(ids, LinksOn(ids, deps, false)))
    ensures InLayer(y, k, Layers(ids, LinksOn(ids, deps, false)))
  {
    var links := LinksOn(ids, deps, false);
    RankOrders(deps, m, s, ids, false);
    j := LayerOfDepth(ids, links, x);
    k := LayerOfDepth(ids, links, y);
    DepthAtMostRank(deps, m, s, ids, x, j);
    if k < 6 { ShorterChains(y, k + 1, 6, ids, links); }
  }

  lemma LayerOfDepth(ids: set<Identifier>, links: set<Edge>, x: Identifier) returns (k: nat)
    requires x in ids && Acyclic(ids, links)
    ensures InLayer(x, k, Layers(ids, links)) && DepthIs(x, k, ids, links)
  {
    LayersExact(ids, links, x);
    k :| k < |Layers(ids, links)| && x in Layers(ids, links)[k] && DepthIs(x, k, ids, links);
  }

  lemma DepthAtMostRank(deps: Deps, m: Name, s: Name, ids: set<Identifier>, x: Identifier, k: nat)
    requires forall v, d | v in deps && d in deps[v] :: Rank(m, s, d) < Rank(m, s, v)
    requires ids <= deps.Keys && HasChain(x, k, ids, LinksOn(ids, deps, false))
    ensures k <= Rank(m, s, x)
  {
    var number := map y | y in ids :: Rank(m, s, y);
    NumberingAboveChains(x, k, ids, LinksOn(ids, deps, false), number);
  }

  // ---------------------------------------------------------------------------------------
  // Two new nodes at once
  // ---------------------------------------------------------------------------------------

  /** m and n are the only nodes being added, copied from a and from b. */
  ghost predicate TwoNew(cfg: Config, m: Name, a: Name, n: Name, b: Name) {
    && m != n && SourceOf(cfg, m) == Some(a) && SourceOf(cfg, n) == Some(b)
    && (forall x | x != m && x != n :: SourceOf(cfg, x) == None)
    && a in NamesOf(cfg) && b in NamesOf(cfg) && a != m && b != n
  }

  /** A run that still has to create both chains and every subscription of the nodes being added. */
  ghost predicate AddsAll(deps: Deps, news: set<Name>, ids: set<Identifier>) {
    && ids <= deps.Keys
    && forall id | id in deps && (id.Ephemeral() || (id.Sub? && (id.src in news || id.dst in news))) :: id in ids
  }

  /** y waits on x, through any number of steps, all of them among ids. */
  ghost predicate Leads(ids: set<Identifier>, deps: Deps, x: Identifier, y: Identifier) {
    exists c :: Walk(ids, deps, c, x, y)
  }

  ghost predicate Walk(ids: set<Identifier>, deps: Deps, c: seq<Identifier>, x: Identifier, y: Identifier) {
    && |c| > 1 && c[0] == x && c[|c| - 1] == y && (forall i | 0 <= i < |c| :: c[i] in ids)
    && forall i | 0 < i < |c| :: Waits(deps, c[i - 1], c[i])
  }

  lemma OneStep(ids: set<Identifier>, deps: Deps, x: Identifier, y: Identifier)
    requires Waits(deps, x, y) && x in ids && y in ids
    ensures Leads(ids, deps, x, y)
  {
    assert Walk(ids, deps, [x, y], x, y);
  }

  lemma Joined(ids: set<Identifier>, deps: Deps, x: Identifier, y: Identifier, z: Identifier)
    requires Leads(ids, deps, x, y) && Leads(ids, deps, y, z)
    ensures Leads(ids, deps, x, z)
  {
    var c :| Walk(ids, deps, c, x, y);
    var d :| Walk(ids, deps, d, y, z);
    var e := c + d[1..];
    forall i | 0 < i < |e| ensures Waits(deps, e[i - 1], e[i]) {
      if i < |c| { assert Waits(deps, c[i - 1], c[i]); } else { assert Waits(deps, d[i - |c|], d[i - |c| + 1]); }
    }
    assert Walk(ids, deps, e, x, z);
  }

  lemma SourceEdges(cfg: Config, deps: Deps, m: Name, a: Name)
    requires IsDesiredGraph(cfg, deps) && SourceOf(cfg, m) == Some(a) && a in NamesOf(cfg) && a != m
    ensures Waits(deps, Sub(a, m), SyncEvent(a, m)) && Waits(deps, SyncEvent(a, m), WaitEvent(a, m))
  {
    NewIsConfigured(cfg, m);
    assert Populates(cfg, m, SyncEvent(a, m)) && Populates(cfg, m, WaitEvent(a, m));
    SyncWaitsOnSub(cfg, deps, a, m);
  }

  lemma SyncWaitsOnSub(cfg: Config, deps: Deps, p: Name, x: Name)
    requires IsDesiredGraph(cfg, deps) && SyncEvent(p, x) in deps && WaitEvent(p, x) in deps
    requires p in NamesOf(cfg) && x in NamesOf(cfg) && p != x
    ensures Waits(deps, Sub(p, x), SyncEvent(p, x)) && Waits(deps, SyncEvent(p, x), WaitEvent(p, x))
  {
    assert DepsAllowed(cfg, SyncEvent(p, x), deps[SyncEvent(p, x)]);
    assert DepsAllowed(cfg, WaitEvent(p, x), deps[WaitEvent(p, x)]);
    assert InDesired(cfg, Sub(p, x));
  }

  /** Peer q gates the copy of m from a. */
  lemma GateEdges(cfg: Config, deps: Deps, m: Name, a: Name, q: Name)
    requires IsDesiredGraph(cfg, deps) && SourceOf(cfg, m) == Some(a) && a in NamesOf(cfg) && a != m
    requires q in NamesOf(cfg) - {m, a}
    ensures Waits(deps, Sub(q, a), SyncEvent(q, a)) && Waits(deps, SyncEvent(q, a), WaitEvent(q, a))
    ensures Waits(deps, WaitEvent(q, a), Sub(a, m))
  {
    NewIsConfigured(cfg, m);
    assert Populates(cfg, m, SyncEvent(q, a)) && Populates(cfg, m, WaitEvent(q, a));
    SyncWaitsOnSub(cfg, deps, q, a);
    GatesExact(cfg, m, a, WaitEvent(q, a));
    assert InDesired(cfg, Sub(a, m)) && DepsAllowed(cfg, Sub(a, m), deps[Sub(a, m)]);
  }

  /** m's subscription to a node that is not being copied from m waits for m's own copy. */
  lemma NewSourceEdge(cfg: Config, deps: Deps, m: Name, a: Name, x: Name)
    requires IsDesiredGraph(cfg, deps) && SourceOf(cfg, m) == Some(a) && a in NamesOf(cfg) && a != m
    requires x in NamesOf(cfg) && x != m && SourceOf(cfg, x) != Some(m)
    ensures Waits(deps, WaitEvent(a, m), Sub(m, x))
  {
    NewIsConfigured(cfg, m);
    assert Populates(cfg, m, WaitEvent(a, m));
    assert InDesired(cfg, Sub(m, x)) && DepsAllowed(cfg, Sub(m, x), deps[Sub(m, x)]);
    assert WaitEvent(a, m) in ExtraDeps(cfg, m, x);
  }

  /** The end-state q→m subscription waits for m's own copy through its origin advance. */
  lemma PeerEdges(cfg: Config, deps: Deps, m: Name, a: Name, q: Name)
    requires IsDesiredGraph(cfg, deps) && SourceOf(cfg, m) == Some(a) && a in NamesOf(cfg) && a != m
    requires q in NamesOf(cfg) - {m, a}
    ensures Waits(deps, WaitEvent(a, m), LagTracker(q, m)) && Waits(deps, LagTracker(q, m), SlotAdvance(q, m))
    ensures Waits(deps, SlotAdvance(q, m), OriginAdvance(q, m)) && Waits(deps, OriginAdvance(q, m), Sub(q, m))
  {
    NewIsConfigured(cfg, m);
    assert Populates(cfg, m, WaitEvent(a, m)) && Populates(cfg, m, LagTracker(q, m));
    assert Populates(cfg, m, SlotAdvance(q, m)) && Populates(cfg, m, OriginAdvance(q, m));
    AdvanceDeps(cfg, deps, m, a, q);
    assert InDesired(cfg, Sub(q, m)) && DepsAllowed(cfg, Sub(q, m), deps[Sub(q, m)]);
    assert OriginAdvance(q, m) in ExtraDeps(cfg, q, m);
  }

  lemma AdvanceDeps(cfg: Config, deps: Deps, m: Name, a: Name, q: Name)
    requires IsDesiredGraph(cfg, deps) && SourceOf(cfg, m) == Some(a)
    requires {LagTracker(q, m), SlotAdvance(q, m), OriginAdvance(q, m)} <= deps.Keys
    ensures WaitEvent(a, m) in deps[LagTracker(q, m)] && LagTracker(q, m) in deps[SlotAdvance(q, m)]
    ensures SlotAdvance(q, m) in deps[OriginAdvance(q, m)]
  {
    assert DepsAllowed(cfg, LagTracker(q, m), deps[LagTracker(q, m)]);
    assert DepsAllowed(cfg, SlotAdvance(q, m), deps[SlotAdvance(q, m)]);
    assert DepsAllowed(cfg, OriginAdvance(q, m), deps[OriginAdvance(q, m)]);
  }

  /** A node that leads back to itself lies on a cycle. */
  lemma WaitingLoop(ids: set<Identifier>, deps: Deps, x: Identifier)
    requires Leads(ids, deps, x, x)
    ensures x in ids && AfterCycle(x, ids, LinksOn(ids, deps, false))
  {
    var links := LinksOn(ids, deps, false);
    var c :| Walk(ids, deps, c, x, x);
    forall i | 0 < i < |c| ensures Edge(c[i - 1], c[i]) in links {
      assert Waits(deps, c[i - 1], c[i]);
      Linked(ids, deps, c[i - 1], c[i]);
    }
    assert IsChain(c, ids, links) && Repeats(c);
  }

  lemma CopyLeads(cfg: Config, deps: Deps, ids: set<Identifier>, news: set<Name>, m: Name, a: Name)
    requires AddsAll(deps, news, ids) && m in news
    requires IsDesiredGraph(cfg, deps) && SourceOf(cfg, m) == Some(a) && a in NamesOf(cfg) && a != m
    ensures Leads(ids, deps, Sub(a, m), WaitEvent(a, m))
  {
    SourceEdges(cfg, deps, m, a);
    OneStep(ids, deps, Sub(a, m), SyncEvent(a, m));
    OneStep(ids, deps, SyncEvent(a, m), WaitEvent(a, m));
    Joined(ids, deps, Sub(a, m), SyncEvent(a, m), WaitEvent(a, m));
  }

  lemma GateLeads(cfg: Config, deps: Deps, ids: set<Identifier>, news: set<Name>, m: Name, a: Name, q: Name)
    requires AddsAll(deps, news, ids) && m in news && (q in news || a in news)
    requires IsDesiredGraph(cfg, deps) && SourceOf(cfg, m) == Some(a) && a in NamesOf(cfg) && a != m
    requires q in NamesOf(cfg) - {m, a}
    ensures Leads(ids, deps, Sub(q, a), Sub(a, m))
  {
    GateEdges(cfg, deps, m, a, q);
    OneStep(ids, deps, Sub(q, a), SyncEvent(q, a));
    OneStep(ids, deps, SyncEvent(q, a), WaitEvent(q, a));
    OneStep(ids, deps, WaitEvent(q, a), Sub(a, m));
    Joined(ids, deps, Sub(q, a), SyncEvent(q, a), WaitEvent(q, a));
    Joined(ids, deps, Sub(q, a), WaitEvent(q, a), Sub(a, m));
  }

  lemma NewSourceLeads(cfg: Config, deps: Deps, ids: set<Identifier>, news: set<Name>, m: Name, a: Name, x: Name)
    requires AddsAll(deps, news, ids) && m in news
    requires IsDesiredGraph(cfg, deps) && SourceOf(cfg, m) == Some(a) && a in NamesOf(cfg) && a != m
    requires x in NamesOf(cfg) && x != m && SourceOf(cfg, x) != Some(m)
    ensures Leads(ids, deps, Sub(a, m), Sub(m, x))
  {
    CopyLeads(cfg, deps, ids, news, m, a);
    NewSourceEdge(cfg, deps, m, a, x);
    OneStep(ids, deps, WaitEvent(a, m), Sub(m, x));
    Joined(ids, deps, Sub(a, m), WaitEvent(a, m), Sub(m, x));
  }

  lemma PeerLeads(cfg: Config, deps: Deps, ids: set<Identifier>, news: set<Name>, m: Name, a: Name, q: Name)
    requires AddsAll(deps, news, ids) && m in news
    requires IsDesiredGraph(cfg, deps) && SourceOf(cfg, m) == Some(a) && a in NamesOf(cfg) && a != m
    requires q in NamesOf(cfg) - {m, a}
    ensures Leads(ids, deps, Sub(a, m), Sub(q, m))
  {
    CopyLeads(cfg, deps, ids, news, m, a);
    PeerEdges(cfg, deps, m, a, q);
    OneStep(ids, deps, WaitEvent(a, m), LagTracker(q, m));
    OneStep(ids, deps, LagTracker(q, m), SlotAdvance(q, m));
    OneStep(ids, deps, SlotAdvance(q, m), OriginAdvance(q, m));
    OneStep(ids, deps, OriginAdvance(q, m), Sub(q, m));
    Joined(ids, deps, Sub(a, m), WaitEvent(a, m), LagTracker(q, m));
    Joined(ids, deps, Sub(a, m), LagTracker(q, m), SlotAdvance(q, m));
    Joined(ids, deps, Sub(a, m), SlotAdvance(q, m), OriginAdvance(q, m));
    Joined(ids, deps, Sub(a, m), OriginAdvance(q, m), Sub(q, m));
  }

  /** Neither is the other's source: each copy waits for the other. */
  lemma IndependentPairLoops(cfg: Config, deps: Deps, ids: set<Identifier>, m: Name, a: Name, n: Name, b: Name)
    requires AddsAll(deps, {m, n}, ids)
    requires IsDesiredGraph(cfg, deps) && TwoNew(cfg, m, a, n, b) && a != n && b != m
    ensures Leads(ids, deps, Sub(a, m), Sub(a, m))
  {
    NewIsConfigured(cfg, m);
    NewIsConfigured(cfg, n);
    NewSourceLeads(cfg, deps, ids, {m, n}, m, a, b);
    GateLeads(cfg, deps, ids, {m, n}, n, b, m);
    NewSourceLeads(cfg, deps, ids, {m, n}, n, b, a);
    GateLeads(cfg, deps, ids, {m, n}, m, a, n);
    Joined(ids, deps, Sub(a, m), Sub(m, b), Sub(b, n));
    Joined(ids, deps, Sub(a, m), Sub(b, n), Sub(n, a));
    Joined(ids, deps, Sub(a, m), Sub(n, a), Sub(a, m));
  }

  /** n is copied from m, which is copied from a third node. */
  lemma ChainedPairLoops(cfg: Config, deps: Deps, ids: set<Identifier>, m: Name, a: Name, n: Name)
    requires AddsAll(deps, {m, n}, ids)
    requires IsDesiredGraph(cfg, deps) && TwoNew(cfg, m, a, n, m) && a != n
    ensures Leads(ids, deps, Sub(a, m), Sub(a, m))
  {
    NewIsConfigured(cfg, m);
    NewIsConfigured(cfg, n);
    GateLeads(cfg, deps, ids, {m, n}, n, m, a);
    NewSourceLeads(cfg, deps, ids, {m, n}, n, m, a);
    GateLeads(cfg, deps, ids, {m, n}, m, a, n);
    Joined(ids, deps, Sub(a, m), Sub(m, n), Sub(n, a));
    Joined(ids, deps, Sub(a, m), Sub(n, a), Sub(a, m));
  }

  /** Each is the other's source, and a third node q exists. */
  lemma MutualPairLoops(cfg: Config, deps: Deps, ids: set<Identifier>, m: Name, n: Name, q: Name)
    requires AddsAll(deps, {m, n}, ids)
    requires IsDesiredGraph(cfg, deps) && TwoNew(cfg, m, n, n, m) && q in NamesOf(cfg) - {m, n}
    ensures Leads(ids, deps, Sub(n, m), Sub(n, m))
  {
    PeerLeads(cfg, deps, ids, {m, n}, m, n, q);
    GateLeads(cfg, deps, ids, {m, n}, n, m, q);
    PeerLeads(cfg, deps, ids, {m, n}, n, m, q);
    GateLeads(cfg, deps, ids, {m, n}, m, n, q);
    Joined(ids, deps, Sub(n, m), Sub(q, m), Sub(m, n));
    Joined(ids, deps, Sub(n, m), Sub(m, n), Sub(q, n));
    Joined(ids, deps, Sub(n, m), Sub(q, n), Sub(n, m));
  }

  /** The two nodes are the whole configuration and copy from one another: no gates, no cycle. */
  lemma BarePairIsOrdered(cfg: Config, deps: Deps, ids: set<Identifier>, m: Name, n: Name)
    requires IsDesiredGraph(cfg, deps) && TwoNew(cfg, m, n, n, m) && NamesOf(cfg) == {m, n} && ids <= deps.Keys
    ensures AcyclicOn(ids, deps)
  {
    forall x, d | x in ids && d in ids && d in deps[x] ensures PairRank(d) < PairRank(x) {
      BarePairDescends(cfg, deps, m, n, x, d);
    }
    RankedIsAcyclic(deps, ids, map x | x in ids :: PairRank(x), false);
  }

  function PairRank(id: Identifier): nat {
    match id
    case User(_) => 0
    case Node(_) => 1
    case Slot(_, _) => 2
    case Sub(_, _) => 3
    case SyncEvent(_, _) => 4
    case _ => 5
  }

  lemma BarePairDescends(cfg: Config, deps: Deps, m: Name, n: Name, x: Identifier, d: Identifier)
    requires IsDesiredGraph(cfg, deps) && TwoNew(cfg, m, n, n, m) && NamesOf(cfg) == {m, n}
    requires x in deps && d in deps[x]
    ensures d in deps && PairRank(d) < PairRank(x)
  {
    assert InDesired(cfg, x) && DepsAllowed(cfg, x, deps[x]);
    if x.Sub? {
      BareSubDescends(cfg, deps, m, n, x, d);
    } else if x.Ephemeral() {
      BareChainDescends(cfg, deps, m, n, x, d);
    } else {
      assert InDesired(cfg, d);
    }
  }

  lemma BareSubDescends(cfg: Config, deps: Deps, m: Name, n: Name, x: Identifier, d: Identifier)
    requires IsDesiredGraph(cfg, deps) && TwoNew(cfg, m, n, n, m) && NamesOf(cfg) == {m, n}
    requires x in deps && d in deps[x] && x.Sub?
    ensures d in deps && PairRank(d) < PairRank(x)
  {
    assert InDesired(cfg, x) && DepsAllowed(cfg, x, deps[x]);
    GatesExact(cfg, x.dst, x.src, d);
    assert NamesOf(cfg) - {x.dst, x.src} == {};
    assert InDesired(cfg, d);
  }

  lemma BareChainDescends(cfg: Config, deps: Deps, m: Name, n: Name, x: Identifier, d: Identifier)
    requires IsDesiredGraph(cfg, deps) && TwoNew(cfg, m, n, n, m) && NamesOf(cfg) == {m, n}
    requires x in deps && d in deps[x] && x.Ephemeral()
    ensures d in deps && PairRank(d) < PairRank(x)
  {
    assert DepsAllowed(cfg, x, deps[x]);
    var k :| Populates(cfg, k, x) && deps[x] == ChainDeps(k, SourceOf(cfg, k).value, x);
    assert NamesOf(cfg) - {k, SourceOf(cfg, k).value} == {};
    assert d.SyncEvent? ==> Populates(cfg, k, d);
    assert InDesired(cfg, d);
  }

  /**
   Exactly when two nodes can be added at once, to an existing mesh or on a first run: whatever else
   there is to create, the graph is acyclic only if the two are all there is and copy from one
   another.  In every other case topoSort takes its cycle fallback.
   */
  lemma TwoNewIff(cfg: Config, deps: Deps, ids: set<Identifier>, m: Name, a: Name, n: Name, b: Name)
    requires IsDesiredGraph(cfg, deps) && TwoNew(cfg, m, a, n, b) && AddsAll(deps, {m, n}, ids)
    ensures AcyclicOn(ids, deps) <==> NamesOf(cfg) == {m, n}
    ensures !FellBack(Layers(ids, LinksOn(ids, deps, false)), LinksOn(ids, deps, false)) <==> NamesOf(cfg) == {m, n}
  {
    NewIsConfigured(cfg, m);
    NewIsConfigured(cfg, n);
    var links := LinksOn(ids, deps, false);
    if NamesOf(cfg) == {m, n} {
      BarePairIsOrdered(cfg, deps, ids, m, n);
      AcyclicNeverFallsBack(ids, links);
    } else {
      var q :| q in NamesOf(cfg) && q != m && q != n;
      var x := LoopExists(cfg, deps, ids, m, a, n, b, q);
      WaitingLoop(ids, deps, x);
      LayersExact(ids, links, x);
    }
  }

  lemma LoopExists(cfg: Config, deps: Deps, ids: set<Identifier>, m: Name, a: Name, n: Name, b: Name, q: Name)
    returns (x: Identifier)
    requires AddsAll(deps, {m, n}, ids)
    requires IsDesiredGraph(cfg, deps) && TwoNew(cfg, m, a, n, b) && q in NamesOf(cfg) - {m, n}
    ensures Leads(ids, deps, x, x)
  {
    if a != n && b != m {
      IndependentPairLoops(cfg, deps, ids, m, a, n, b);
      x := Sub(a, m);
    } else if a != n {
      ChainedPairLoops(cfg, deps, ids, m, a, n);
      x := Sub(a, m);
    } else if b != m {
      ChainedPairLoops(cfg, deps, ids, n, b, m);
      x := Sub(b, n);
    } else {
      MutualPairLoops(cfg, deps, ids, m, n, q);
      x := Sub(n, m);
    }
  }
}
