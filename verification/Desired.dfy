/**
 ComputeDesired (internal/spock/desired.go): the full mesh plus, for every node bootstrapped
 through Spock, the populate chain that copies it from its source.
 */
module Desired {
  import opened Resources
  import opened Planning

  datatype NodeCfg = NodeCfg(name: Name, mode: string, source: Name)

  type Config = seq<NodeCfg>

  predicate Bootstraps(n: NodeCfg) {
    n.mode == "spock" && n.source.text != ""
  }

  ghost function NamesOf(cfg: Config): set<Name> {
    set n | n in cfg :: n.name
  }

  /** What the newNodes map holds for m: the source of the last bootstrapping entry named m. */
  ghost function SourceOf(cfg: Config, m: Name): Option<Name> {
    if cfg == [] then None
    else
      var last := cfg[|cfg| - 1];
      if last.name == m && Bootstraps(last) then Some(last.source) else SourceOf(cfg[..|cfg| - 1], m)
  }

  ghost predicate NoNew(cfg: Config) {
    forall m :: SourceOf(cfg, m) == None
  }

  /** m, copied from s, is the only node being added. */
  ghost predicate OnlyNew(cfg: Config, m: Name, s: Name) {
    SourceOf(cfg, m) == Some(s) && forall n | n != m :: SourceOf(cfg, n) == None
  }

  // ---------------------------------------------------------------------------------------
  // What the desired map holds
  // ---------------------------------------------------------------------------------------

  /** The populate chain of new node m with source s, over the given node names. */
  ghost predicate InChain(names: set<Name>, m: Name, s: Name, id: Identifier) {
    match id
    case SlotCreate(p, x) => x == m && p in names - {m, s}
    case DisabledSub(p, x) => x == m && p in names - {m, s}
    case LagTracker(p, x) => x == m && p in names - {m, s}
    case SlotAdvance(p, x) => x == m && p in names - {m, s}
    case OriginAdvance(p, x) => x == m && p in names - {m, s}
    case PeerCatchup(p, x) => x == s && p in names - {m, s}
    case SyncEvent(p, x) => (x == s && p in names - {m, s}) || (p == s && x == m)
    case WaitEvent(p, x) => (x == s && p in names - {m, s}) || (p == s && x == m)
    case _ => false
  }

  /** The dependencies a member of that chain is created with. */
  function ChainDeps(m: Name, s: Name, id: Identifier): seq<Identifier> {
    match id
    case SlotCreate(p, _) => [Node(p)]
    case DisabledSub(p, _) => [Node(p), Node(m), SlotCreate(p, m)]
    case SyncEvent(p, x) =>
      if p == s && x == m then [Node(s), Sub(s, m)] else [Node(p), Sub(p, s), SlotCreate(p, m)]
    case WaitEvent(p, x) => [SyncEvent(p, x)]
    case PeerCatchup(p, _) => [SyncEvent(p, s)]
    case LagTracker(p, _) => [Node(m), WaitEvent(s, m)]
    case SlotAdvance(p, _) => [Node(p), LagTracker(p, m)]
    case OriginAdvance(p, _) => [SlotAdvance(p, m)]
    case _ => []
  }

  ghost predicate Populates(cfg: Config, m: Name, id: Identifier) {
    SourceOf(cfg, m).Some? && InChain(NamesOf(cfg), m, SourceOf(cfg, m).value, id)
  }

  ghost predicate InMesh(names: set<Name>, id: Identifier) {
    match id
    case User(n) => n in names
    case Node(n) => n in names
    case Slot(a, b) => a in names && b in names && a != b
    case Sub(a, b) => a in names && b in names && a != b
    case _ => false
  }

  ghost predicate InDesired(cfg: Config, id: Identifier) {
    if id.Ephemeral() then exists m :: Populates(cfg, m, id) else InMesh(NamesOf(cfg), id)
  }

  /** The gates of the source→m subscription: both waits of every peer, in configuration order. */
  ghost function Gates(cfg: Config, m: Name, s: Name): seq<Identifier> {
    if cfg == [] then []
    else
      var p := cfg[|cfg| - 1].name;
      Gates(cfg[..|cfg| - 1], m, s)
      + (if p == m || p == s then [] else [WaitEvent(p, s), PeerCatchup(p, s)])
  }

  ghost function ExtraDeps(cfg: Config, a: Name, b: Name): seq<Identifier> {
    if SourceOf(cfg, b) == Some(a) then Gates(cfg, b, a)
    else
      (if SourceOf(cfg, b).Some? then [OriginAdvance(a, b)] else [])
      + (if SourceOf(cfg, a).Some? then [WaitEvent(SourceOf(cfg, a).value, a)] else [])
  }

  /** Several new nodes may write the same chain entry; any of them may have been last. */
  ghost predicate DepsAllowed(cfg: Config, id: Identifier, deps: seq<Identifier>) {
    match id
    case User(_) => deps == []
    case Node(n) => deps == [User(n)]
    case Slot(p, _) => deps == [Node(p)]
    case Sub(a, b) => deps == [Node(a), Node(b), Slot(a, b)] + ExtraDeps(cfg, a, b)
    case _ => exists m :: Populates(cfg, m, id) && deps == ChainDeps(m, SourceOf(cfg, m).value, id)
  }

  /** deps is a dependency map the desired resources can have. */
  ghost predicate IsDesiredGraph(cfg: Config, deps: Deps) {
    && (forall id :: id in deps <==> InDesired(cfg, id))
    && (forall id {:trigger DepsAllowed(cfg, id, deps[id])} | id in deps :: DepsAllowed(cfg, id, deps[id]))
  }

  ghost function DepsView(m: map<Identifier, Resource>): Deps {
    map k | k in m :: m[k].deps
  }

  /** The database whose connection the resource works on. */
  function Home(id: Identifier): Name {
    match id
    case User(n) => n
    case Node(n) => n
    case NodeAt(_, x) => x
    case Slot(p, _) => p
    case RawSlot(n) => n
    case Sub(_, b) => b
    case SlotCreate(p, _) => p
    case DisabledSub(_, b) => b
    case SyncEvent(p, _) => p
    case WaitEvent(_, x) => x
    case PeerCatchup(_, s) => s
    case LagTracker(_, m) => m
    case SlotAdvance(p, _) => p
    case OriginAdvance(_, m) => m
  }

  ghost predicate AtHome(m: map<Identifier, Resource>) {
    forall k | k in m :: m[k].conn == Home(k)
  }

  /** Roles and nodes are made on the node itself, slots on the provider, subscriptions on the subscriber. */
  ghost predicate Placed(m: map<Identifier, Resource>) {
    && (forall a | User(a) in m :: m[User(a)].conn == a)
    && (forall a | Node(a) in m :: m[Node(a)].conn == a)
    && (forall a, b | Slot(a, b) in m :: m[Slot(a, b)].conn == a)
    && (forall a, b | Sub(a, b) in m :: m[Sub(a, b)].conn == b)
  }

  ghost predicate Entry(cfg: Config, id: Identifier, r: Resource) {
    && r.id == id
    && DepsAllowed(cfg, id, r.deps)
    && (r.sync <==> id.Sub? && SourceOf(cfg, id.dst) == Some(id.src))
  }

  /** The object an ephemeral resource reads its input from is the one stored under its dependency. */
  ghost predicate Fed(m: map<Identifier, Resource>, id: Identifier, from: Identifier) {
    id in m ==> from in m && m[id].feed == m[from]
  }

  ghost predicate FedChain(cfg: Config, m: map<Identifier, Resource>) {
    && (forall p, x :: Fed(m, WaitEvent(p, x), SyncEvent(p, x)))
    && (forall p, x :: Fed(m, SlotAdvance(p, x), LagTracker(p, x)))
    && (forall p, x :: Fed(m, OriginAdvance(p, x), SlotAdvance(p, x)))
    && (forall p, x | SourceOf(cfg, x) != Some(p) :: Fed(m, PeerCatchup(p, x), SyncEvent(p, x)))
  }

  /** m's chain writes a catch-up of x with p, hence a sync event of p for x. */
  ghost predicate Feeder(cfg: Config, m: Name, p: Name, x: Name) {
    Populates(cfg, m, PeerCatchup(p, x))
  }

  /** x's own chain is written after every chain that writes a catch-up of x with p. */
  ghost predicate OwnLast(cfg: Config, order: seq<Name>, p: Name, x: Name) {
    exists i :: 0 <= i < |order| && order[i] == x && forall j | i < j < |order| :: !Feeder(cfg, order[j], p, x)
  }

  /**
   When x is itself copied from p, its own chain writes the sync event of p for x as well: a
   catch-up of x with p reads the one in the map unless x's chain came last.
   */
  ghost predicate CatchupsFed(cfg: Config, order: seq<Name>, m: map<Identifier, Resource>) {
    forall p, x | SourceOf(cfg, x) == Some(p) && PeerCatchup(p, x) in m ::
      Fed(m, PeerCatchup(p, x), SyncEvent(p, x)) <==> !OwnLast(cfg, order, p, x)
  }

  /** The order in which the chains were written. */
  ghost predicate OrderOfNew(cfg: Config, order: seq<Name>) {
    && (forall m :: m in order <==> SourceOf(cfg, m).Some?)
    && forall i, j | 0 <= i < j < |order| :: order[i] != order[j]
  }

  // ---------------------------------------------------------------------------------------
  // ComputeDesired
  // ---------------------------------------------------------------------------------------

  method ComputeDesired(cfg: Config) returns (resources: map<Identifier, Resource>, ghost order: seq<Name>)
    ensures KeysAreIds(resources)
    ensures IsDesiredGraph(cfg, DepsView(resources))
    ensures FedChain(cfg, resources)
    ensures OrderOfNew(cfg, order) && CatchupsFed(cfg, order, resources)
    ensures forall k | k in resources :: resources[k].sync <==> k.Sub? && SourceOf(cfg, k.dst) == Some(k.src)
    ensures AtHome(resources) && Placed(resources)
    ensures forall k | k in resources :: fresh(resources[k])
  {
    resources := AddMembers(cfg);
    var newNodes := FindNew(cfg);
    var peerDeps;
    ghost var members := resources;
    resources, peerDeps, order := AddChains(cfg, newNodes, resources);
    AllChains(cfg, newNodes, members, order, resources);
    resources := AddMesh(cfg, newNodes, peerDeps, order, resources);
    HomesArePlaces(resources);
  }

  lemma HomesArePlaces(m: map<Identifier, Resource>)
    requires AtHome(m)
    ensures Placed(m)
  {
  }

  /** Users and nodes. */
  method AddMembers(cfg: Config) returns (resources: map<Identifier, Resource>)
    ensures forall id :: id in resources <==> (id.User? || id.Node?) && InMesh(NamesOf(cfg), id)
    ensures forall k | k in resources :: Entry(cfg, k, resources[k])
    ensures AtHome(resources)
    ensures forall k | k in resources :: fresh(resources[k])
  {
    resources := map[];
    for i := 0 to |cfg|
      invariant AtHome(resources)
      invariant forall k | k in resources :: fresh(resources[k])
      invariant forall id :: id in resources <==> (id.User? || id.Node?) && InMesh(NamesOf(cfg[..i]), id)
      invariant forall k | k in resources :: Entry(cfg, k, resources[k])
    {
      var n := cfg[i].name;
      NamesPrefix(cfg, i);
      var user := new Resource(n, User(n), [], false, null);
      resources := resources[User(n) := user];
      var node := new Resource(n, Node(n), [User(n)], false, null);
      resources := resources[Node(n) := node];
    }
    assert cfg[..|cfg|] == cfg;
  }

  /** The newNodes map. */
  method FindNew(cfg: Config) returns (newNodes: map<Name, Name>)
    ensures forall m :: SourceOf(cfg, m) == if m in newNodes then Some(newNodes[m]) else None
  {
    newNodes := map[];
    for i := 0 to |cfg|
      invariant forall m :: SourceOf(cfg[..i], m) == if m in newNodes then Some(newNodes[m]) else None
    {
      assert cfg[..i + 1][..i] == cfg[..i];
      if Bootstraps(cfg[i]) {
        newNodes := newNodes[cfg[i].name := cfg[i].source];
      }
    }
    assert cfg[..|cfg|] == cfg;
  }

  ghost predicate IsNewMap(cfg: Config, newNodes: map<Name, Name>) {
    forall m :: SourceOf(cfg, m) == if m in newNodes then Some(newNodes[m]) else None
  }

  /** One populate chain per new node, in map iteration order. */
  method AddChains(cfg: Config, newNodes: map<Name, Name>, members: map<Identifier, Resource>)
    returns (resources: map<Identifier, Resource>, peerDeps: map<Name, seq<Identifier>>, ghost order: seq<Name>)
    requires IsNewMap(cfg, newNodes)
    requires forall id | id in members :: (id.User? || id.Node?) && Entry(cfg, id, members[id])
    requires AtHome(members)
    ensures AtHome(resources)
    ensures forall k | k in resources && !(k in members && resources[k] == members[k]) :: fresh(resources[k])
    ensures ChainsWritten(cfg, newNodes, members, {}, order, resources)
    ensures peerDeps.Keys == newNodes.Keys && forall m | m in newNodes :: peerDeps[m] == Gates(cfg, m, newNodes[m])
  {
    resources, peerDeps, order := members, map[], [];
    NoChains(cfg, newNodes, members);
    var todo := newNodes.Keys;
    while todo != {}
      invariant todo <= newNodes.Keys
      invariant AtHome(resources)
      invariant forall k | k in resources && !(k in members && resources[k] == members[k]) :: fresh(resources[k])
      invariant ChainsWritten(cfg, newNodes, members, todo, order, resources)
      invariant peerDeps.Keys == newNodes.Keys - todo
      invariant forall m | m in peerDeps :: peerDeps[m] == Gates(cfg, m, newNodes[m])
      decreases todo
    {
      var m :| m in todo;
      var s := newNodes[m];
      ghost var before := resources;
      var gates;
      resources, gates := AddPopulateResources(resources, cfg, m, s);
      NextChain(cfg, newNodes, members, todo, order, m, s, before, resources);
      order := order + [m];
      peerDeps := peerDeps[m := gates];
      todo := todo - {m};
    }
  }

  /** The chains of the new nodes outside todo have been written, in the given order. */
  ghost predicate ChainsWritten(cfg: Config, newNodes: map<Name, Name>, members: map<Identifier, Resource>,
                                todo: set<Name>,
                                order: seq<Name>, m: map<Identifier, Resource>) {
    && (forall id :: id in m <==> id in members || exists n :: n !in todo && Populates(cfg, n, id))
    && (forall k | k in m :: Entry(cfg, k, m[k]))
    && Written(newNodes, todo, order) && FedChain(cfg, m) && CatchupsFed(cfg, order, m)
  }

  lemma NoChains(cfg: Config, newNodes: map<Name, Name>, members: map<Identifier, Resource>)
    requires IsNewMap(cfg, newNodes)
    requires forall id | id in members :: (id.User? || id.Node?) && Entry(cfg, id, members[id])
    ensures ChainsWritten(cfg, newNodes, members, newNodes.Keys, [], members)
  {
    forall id, n | Populates(cfg, n, id) ensures n in newNodes.Keys {
      assert SourceOf(cfg, n).Some?;
    }
  }

  lemma AllChains(cfg: Config, newNodes: map<Name, Name>, members: map<Identifier, Resource>, order: seq<Name>,
                  m: map<Identifier, Resource>)
    requires IsNewMap(cfg, newNodes) && ChainsWritten(cfg, newNodes, members, {}, order, m)
    ensures OrderOfNew(cfg, order)
    ensures forall id :: id in m <==> id in members || exists n :: Populates(cfg, n, id)
  {
    forall n ensures n in order <==> SourceOf(cfg, n).Some? {
      assert n in order <==> n in newNodes;
    }
    forall id ensures id in m <==> id in members || exists n :: Populates(cfg, n, id) {
      if n :| Populates(cfg, n, id) { assert n !in {} && Populates(cfg, n, id); }
    }
  }

  lemma OneMoreChain(cfg: Config, members: map<Identifier, Resource>, todo: set<Name>, m: Name, s: Name,
                     before: map<Identifier, Resource>, after: map<Identifier, Resource>)
    requires SourceOf(cfg, m) == Some(s) && m in todo && ChainWritten(NamesOf(cfg), m, s, before, after)
    requires forall id :: id in before <==> id in members || exists n :: n !in todo && Populates(cfg, n, id)
    ensures forall id :: id in after <==> id in members || exists n :: n !in todo - {m} && Populates(cfg, n, id)
  {
    forall id ensures id in after <==> id in members || exists n :: n !in todo - {m} && Populates(cfg, n, id) {
      if InChain(NamesOf(cfg), m, s, id) { assert m !in todo - {m} && Populates(cfg, m, id); }
    }
  }

  lemma OneMoreWritten(newNodes: map<Name, Name>, todo: set<Name>, order: seq<Name>, m: Name)
    requires m in todo && m in newNodes && Written(newNodes, todo, order)
    ensures Written(newNodes, todo - {m}, order + [m])
  {
    assert m !in order;
  }

  lemma NextChain(cfg: Config, newNodes: map<Name, Name>, members: map<Identifier, Resource>, todo: set<Name>,
                  order: seq<Name>, m: Name, s: Name, before: map<Identifier, Resource>,
                    after: map<Identifier, Resource>)
    requires SourceOf(cfg, m) == Some(s) && m in todo && m in newNodes
    requires ChainsWritten(cfg, newNodes, members, todo, order, before)
    requires ChainWritten(NamesOf(cfg), m, s, before, after) && ChainFed(NamesOf(cfg), m, s, after)
    requires SyncEvent(s, m) in after && forall k | k in before :: before[k].feed != after[SyncEvent(s, m)]
    ensures ChainsWritten(cfg, newNodes, members, todo - {m}, order + [m], after)
  {
    ChainEntries(cfg, m, s, before, after);
    ChainFeeds(cfg, m, s, before, after);
    CatchupsStep(cfg, order, m, s, before, after);
    OneMoreChain(cfg, members, todo, m, s, before, after);
    OneMoreWritten(newNodes, todo, order, m);
  }

  /** The new nodes outside todo, each once. */
  ghost predicate Written(newNodes: map<Name, Name>, todo: set<Name>, order: seq<Name>) {
    && (forall m :: m in order <==> m in newNodes && m !in todo)
    && forall i, j | 0 <= i < j < |order| :: order[i] != order[j]
  }

  ghost predicate ChainWritten(names: set<Name>, m: Name, s: Name, before: map<Identifier, Resource>,
                               after: map<Identifier, Resource>) {
    && (forall id :: id in after <==> id in before || InChain(names, m, s, id))
    && (forall id | id in after :: if InChain(names, m, s, id)
                                   then ChainEntry(m, s, id, after[id])
                                   else id in before && after[id] == before[id])
  }

  /** Feeds inside one chain. */
  ghost predicate ChainFed(names: set<Name>, m: Name, s: Name, after: map<Identifier, Resource>) {
    && (forall p, x | InChain(names, m, s, WaitEvent(p, x)) :: Fed(after, WaitEvent(p, x), SyncEvent(p, x)))
    && (forall p | p in names - {m, s} :: PeerFed(p, m, s, after))
  }

  /** addPopulateResources (desired.go:106-169). */
  method AddPopulateResources(before: map<Identifier, Resource>, cfg: Config, m: Name, s: Name)
    returns (resources: map<Identifier, Resource>, peerWaitForSync: seq<Identifier>)
    ensures ChainWritten(NamesOf(cfg), m, s, before, resources)
    ensures ChainFed(NamesOf(cfg), m, s, resources)
    ensures AtHome(before) ==> AtHome(resources)
    ensures forall k | k in resources && !(k in before && resources[k] == before[k]) :: fresh(resources[k])
    ensures SyncEvent(s, m) in resources && fresh(resources[SyncEvent(s, m)])
    ensures peerWaitForSync == Gates(cfg, m, s)
  {
    resources, peerWaitForSync := AddPeers(before, cfg, m, s);
    ghost var peersDone := resources;
    var srcSyncEvt := new Resource(s, SyncEvent(s, m), [Node(s), Sub(s, m)], false, null);
    resources := resources[SyncEvent(s, m) := srcSyncEvt];
    var srcWaitEvt := new Resource(m, WaitEvent(s, m), [SyncEvent(s, m)], false, srcSyncEvt);
    resources := resources[WaitEvent(s, m) := srcWaitEvt];
    SourceLast(NamesOf(cfg), m, s, before, peersDone, resources);
  }

  /** The peer loop. */
  method AddPeers(before: map<Identifier, Resource>, cfg: Config, m: Name, s: Name)
    returns (resources: map<Identifier, Resource>, peerWaitForSync: seq<Identifier>)
    ensures PeersWritten(NamesOf(cfg), m, s, before, resources) && PeersFed(NamesOf(cfg), m, s, resources)
    ensures AtHome(before) ==> AtHome(resources)
    ensures forall k | k in resources && !(k in before && resources[k] == before[k]) :: fresh(resources[k])
    ensures peerWaitForSync == Gates(cfg, m, s)
  {
    resources, peerWaitForSync := before, [];
    for i := 0 to |cfg|
      invariant PeersWritten(NamesOf(cfg[..i]), m, s, before, resources)
      invariant PeersFed(NamesOf(cfg[..i]), m, s, resources)
      invariant AtHome(before) ==> AtHome(resources)
      invariant forall k | k in resources && !(k in before && resources[k] == before[k]) :: fresh(resources[k])
      invariant peerWaitForSync == Gates(cfg[..i], m, s)
    {
      var p := cfg[i].name;
      NamesPrefix(cfg, i);
      GatesStep(cfg, i, m, s);
      if p != m && p != s {
        ghost var start := resources;
        resources := AddPeer(resources, p, m, s);
        PeerStep(NamesOf(cfg[..i]), p, m, s, before, start, resources);
        peerWaitForSync := peerWaitForSync + [WaitEvent(p, s), PeerCatchup(p, s)];
      } else {
        PeersSame(NamesOf(cfg[..i]), p, m, s);
      }
    }
    assert cfg[..|cfg|] == cfg;
  }

  /** The chain without its source event and wait: what the peer loop writes. */
  ghost predicate InPeers(names: set<Name>, m: Name, s: Name, id: Identifier) {
    InChain(names, m, s, id) && id != SyncEvent(s, m) && id != WaitEvent(s, m)
  }

  ghost predicate ChainEntry(m: Name, s: Name, id: Identifier, r: Resource) {
    r.id == id && r.deps == ChainDeps(m, s, id) && !r.sync
  }

  ghost predicate PeersWritten(names: set<Name>, m: Name, s: Name, before: map<Identifier, Resource>,
                               after: map<Identifier, Resource>) {
    && (forall id :: id in after <==> id in before || InPeers(names, m, s, id))
    && (forall id | id in after :: if InPeers(names, m, s, id) then ChainEntry(m, s, id, after[id])
                                   else id in before && after[id] == before[id])
  }

  ghost predicate PeerFed(p: Name, m: Name, s: Name, after: map<Identifier, Resource>) {
    && Fed(after, WaitEvent(p, s), SyncEvent(p, s))
    && Fed(after, PeerCatchup(p, s), SyncEvent(p, s))
    && Fed(after, SlotAdvance(p, m), LagTracker(p, m))
    && Fed(after, OriginAdvance(p, m), SlotAdvance(p, m))
  }

  ghost predicate PeersFed(names: set<Name>, m: Name, s: Name, after: map<Identifier, Resource>) {
    forall p | p in names - {m, s} :: PeerFed(p, m, s, after)
  }

  ghost function PeerIds(p: Name, m: Name, s: Name): set<Identifier> {
    {SlotCreate(p, m), DisabledSub(p, m), SyncEvent(p, s), WaitEvent(p, s), PeerCatchup(p, s),
     LagTracker(p, m), SlotAdvance(p, m), OriginAdvance(p, m)}
  }

  ghost predicate On(m: map<Identifier, Resource>, id: Identifier, conn: Name, deps: seq<Identifier>) {
    id in m && m[id].id == id && m[id].conn == conn && m[id].deps == deps && !m[id].sync
  }

  /** Each resource works on the side, and waits for the resources, the protocol needs. */
  ghost predicate PeerAdded(p: Name, m: Name, s: Name, start: map<Identifier, Resource>,
                            after: map<Identifier, Resource>) {
    && after.Keys == start.Keys + PeerIds(p, m, s)
    && (forall id | id in start && id !in PeerIds(p, m, s) :: after[id] == start[id])
    && On(after, SlotCreate(p, m), p, [Node(p)])
    && On(after, DisabledSub(p, m), m, [Node(p), Node(m), SlotCreate(p, m)])
    && On(after, SyncEvent(p, s), p, [Node(p), Sub(p, s), SlotCreate(p, m)])
    && On(after, WaitEvent(p, s), s, [SyncEvent(p, s)])
    && On(after, PeerCatchup(p, s), s, [SyncEvent(p, s)])
    && On(after, LagTracker(p, m), m, [Node(m), WaitEvent(s, m)])
    && On(after, SlotAdvance(p, m), p, [Node(p), LagTracker(p, m)])
    && On(after, OriginAdvance(p, m), m, [SlotAdvance(p, m)])
  }

  lemma PeerIsWritten(p: Name, m: Name, s: Name, start: map<Identifier, Resource>, after: map<Identifier, Resource>)
    requires p != m && p != s && PeerAdded(p, m, s, start, after)
    ensures PeersWritten({p}, m, s, start, after)
  {
    forall id ensures InPeers({p}, m, s, id) <==> id in PeerIds(p, m, s) {}
  }

  lemma PeerAtHome(p: Name, m: Name, s: Name, start: map<Identifier, Resource>, after: map<Identifier, Resource>)
    requires PeerAdded(p, m, s, start, after)
    ensures AtHome(start) ==> AtHome(after)
  {
    if AtHome(start) {
      forall k | k in after ensures after[k].conn == Home(k) {
        if k !in PeerIds(p, m, s) { assert after[k] == start[k]; }
      }
    }
  }

  lemma PeerStep(names: set<Name>, p: Name, m: Name, s: Name, before: map<Identifier, Resource>,
                 start: map<Identifier, Resource>, after: map<Identifier, Resource>)
    requires p != m && p != s
    requires PeersWritten(names, m, s, before, start) && PeersFed(names, m, s, start)
    requires PeerAdded(p, m, s, start, after) && PeerFed(p, m, s, after)
    ensures PeersWritten(names + {p}, m, s, before, after) && PeersFed(names + {p}, m, s, after)
    ensures AtHome(start) ==> AtHome(after)
  {
    PeerIsWritten(p, m, s, start, after);
    PeersExtend(names, p, m, s, before, start, after);
    PeerAtHome(p, m, s, start, after);
  }

  /** One iteration of the peer loop: eight resources. */
  method AddPeer(start: map<Identifier, Resource>, p: Name, m: Name, s: Name)
    returns (resources: map<Identifier, Resource>)
    requires p != m && p != s
    ensures PeerAdded(p, m, s, start, resources) && PeerFed(p, m, s, resources)
    ensures forall k | k in resources && !(k in start && resources[k] == start[k]) :: fresh(resources[k])
  {
    var slotCreate := new Resource(p, SlotCreate(p, m), [Node(p)], false, null);
    var disabledSub := new Resource(m, DisabledSub(p, m), [Node(p), Node(m), SlotCreate(p, m)], false, null);
    var syncEvt := new Resource(p, SyncEvent(p, s), [Node(p), Sub(p, s), SlotCreate(p, m)], false, null);
    var waitEvt := new Resource(s, WaitEvent(p, s), [SyncEvent(p, s)], false, syncEvt);
    var catchup := new Resource(s, PeerCatchup(p, s), [SyncEvent(p, s)], false, syncEvt);
    var lagTracker := new Resource(m, LagTracker(p, m), [Node(m), WaitEvent(s, m)], false, null);
    var slotAdvance := new Resource(p, SlotAdvance(p, m), [Node(p), LagTracker(p, m)], false, lagTracker);
    var originAdvance := new Resource(m, OriginAdvance(p, m), [SlotAdvance(p, m)], false, slotAdvance);
    resources := start[SlotCreate(p, m) := slotCreate][DisabledSub(p, m) := disabledSub]
                 [SyncEvent(p, s) := syncEvt][WaitEvent(p, s) := waitEvt][PeerCatchup(p, s) := catchup]
                 [LagTracker(p, m) := lagTracker][SlotAdvance(p, m) := slotAdvance]
                 [OriginAdvance(p, m) := originAdvance];
    PeerPlaced(start, p, m, s, slotCreate, disabledSub, syncEvt, waitEvt, catchup, lagTracker, slotAdvance,
               originAdvance);
    forall k | k in resources && !(k in start && resources[k] == start[k]) ensures fresh(resources[k]) {
      assert k in PeerIds(p, m, s);
    }
  }

  lemma PeerPlaced(start: map<Identifier, Resource>, p: Name, m: Name, s: Name, slotCreate: Resource,
                   disabledSub: Resource,
                   syncEvt: Resource, waitEvt: Resource, catchup: Resource, lagTracker: Resource, slotAdvance: Resource,
                   originAdvance: Resource)
    requires p != m && p != s
    ensures var after := start[SlotCreate(p, m) := slotCreate][DisabledSub(p, m) := disabledSub]
                         [SyncEvent(p, s) := syncEvt][WaitEvent(p, s) := waitEvt][PeerCatchup(p, s) := catchup]
                         [LagTracker(p, m) := lagTracker][SlotAdvance(p, m) := slotAdvance]
                         [OriginAdvance(p, m) := originAdvance];
            && after.Keys == start.Keys + PeerIds(p, m, s)
            && (forall id | id in start && id !in PeerIds(p, m, s) :: after[id] == start[id])
            && after[SlotCreate(p, m)] == slotCreate && after[DisabledSub(p, m)] == disabledSub
            && after[SyncEvent(p, s)] == syncEvt && after[WaitEvent(p, s)] == waitEvt
            && after[PeerCatchup(p, s)] == catchup
            && after[LagTracker(p, m)] == lagTracker && after[SlotAdvance(p, m)] == slotAdvance
            && after[OriginAdvance(p, m)] == originAdvance
  {
  }

  lemma PeersExtend(names: set<Name>, p: Name, m: Name, s: Name, before: map<Identifier, Resource>,
                    start: map<Identifier, Resource>, after: map<Identifier, Resource>)
    requires p != m && p != s
    requires PeersWritten(names, m, s, before, start) && PeersFed(names, m, s, start)
    requires PeersWritten({p}, m, s, start, after) && PeerFed(p, m, s, after)
    ensures PeersWritten(names + {p}, m, s, before, after) && PeersFed(names + {p}, m, s, after)
  {
    WrittenExtend(names, p, m, s, before, start, after);
    forall q | q in names + {p} - {m, s} ensures PeerFed(q, m, s, after) {
      if q != p { FedElsewhere(p, m, s, q, start, after); }
    }
  }

  lemma WrittenExtend(names: set<Name>, p: Name, m: Name, s: Name, before: map<Identifier, Resource>,
                      start: map<Identifier, Resource>, after: map<Identifier, Resource>)
    requires p != m && p != s && PeersWritten(names, m, s, before, start) && PeersWritten({p}, m, s, start, after)
    ensures PeersWritten(names + {p}, m, s, before, after)
  {
    forall id ensures InPeers(names + {p}, m, s, id) <==> InPeers(names, m, s, id) || InPeers({p}, m, s, id) {}
  }

  /** Writing peer p's chain leaves peer q's feeds alone. */
  lemma FedElsewhere(p: Name, m: Name, s: Name, q: Name, start: map<Identifier, Resource>,
                     after: map<Identifier, Resource>)
    requires q != p && q != m && q != s && PeersWritten({p}, m, s, start, after) && PeerFed(q, m, s, start)
    ensures PeerFed(q, m, s, after)
  {
    assert !InPeers({p}, m, s, WaitEvent(q, s)) && !InPeers({p}, m, s, SyncEvent(q, s));
    assert !InPeers({p}, m, s, PeerCatchup(q, s)) && !InPeers({p}, m, s, LagTracker(q, m));
    assert !InPeers({p}, m, s, SlotAdvance(q, m)) && !InPeers({p}, m, s, OriginAdvance(q, m));
  }

  lemma PeersSame(names: set<Name>, p: Name, m: Name, s: Name)
    requires p == m || p == s
    ensures names + {p} - {m, s} == names - {m, s}
    ensures forall id :: InPeers(names + {p}, m, s, id) <==> InPeers(names, m, s, id)
  {
  }

  /** The source's event and wait have been written after the peers. */
  ghost predicate SourceAdded(m: Name, s: Name, peersDone: map<Identifier, Resource>,
                              after: map<Identifier, Resource>) {
    && after.Keys == peersDone.Keys + {SyncEvent(s, m), WaitEvent(s, m)}
    && (forall id | id in peersDone && id != SyncEvent(s, m) && id != WaitEvent(s, m) :: after[id] == peersDone[id])
    && ChainEntry(m, s, SyncEvent(s, m), after[SyncEvent(s, m)])
    && ChainEntry(m, s, WaitEvent(s, m), after[WaitEvent(s, m)])
  }

  lemma SourceLast(names: set<Name>, m: Name, s: Name, before: map<Identifier, Resource>,
                   peersDone: map<Identifier, Resource>, after: map<Identifier, Resource>)
    requires PeersWritten(names, m, s, before, peersDone) && PeersFed(names, m, s, peersDone)
    requires SourceAdded(m, s, peersDone, after) && Fed(after, WaitEvent(s, m), SyncEvent(s, m))
    ensures ChainWritten(names, m, s, before, after) && ChainFed(names, m, s, after)
  {
    SourceWritten(names, m, s, before, peersDone, after);
    forall p | p in names - {m, s} ensures PeerFed(p, m, s, after) {
      PeerStillFed(names, p, m, s, peersDone, after);
    }
    forall p, x | InChain(names, m, s, WaitEvent(p, x)) ensures Fed(after, WaitEvent(p, x), SyncEvent(p, x)) {
      if !(p == s && x == m) { assert PeerFed(p, m, s, after); }
    }
  }

  lemma PeerStillFed(names: set<Name>, p: Name, m: Name, s: Name, peersDone: map<Identifier, Resource>,
                     after: map<Identifier, Resource>)
    requires p in names - {m, s} && PeersFed(names, m, s, peersDone) && SourceAdded(m, s, peersDone, after)
    ensures PeerFed(p, m, s, after)
  {
    assert PeerFed(p, m, s, peersDone);
  }

  lemma SourceWritten(names: set<Name>, m: Name, s: Name, before: map<Identifier, Resource>,
                      peersDone: map<Identifier, Resource>, after: map<Identifier, Resource>)
    requires PeersWritten(names, m, s, before, peersDone) && SourceAdded(m, s, peersDone, after)
    ensures ChainWritten(names, m, s, before, after)
  {
    forall id ensures id in after <==> id in before || InChain(names, m, s, id) {
      assert id in peersDone <==> id in before || InPeers(names, m, s, id);
    }
  }

  /** Slots and subscriptions of every ordered pair (desired.go:58-98). */
  method AddMesh(cfg: Config, newNodes: map<Name, Name>, peerDeps: map<Name, seq<Identifier>>,
                 ghost order: seq<Name>, before: map<Identifier, Resource>)
    returns (resources: map<Identifier, Resource>)
    requires IsNewMap(cfg, newNodes)
    requires peerDeps.Keys == newNodes.Keys && forall m | m in newNodes :: peerDeps[m] == Gates(cfg, m, newNodes[m])
    requires forall id :: id in before <==> ((id.User? || id.Node?) && InMesh(NamesOf(cfg), id))
                                            || exists m :: Populates(cfg, m, id)
    requires forall k | k in before :: Entry(cfg, k, before[k])
    requires FedChain(cfg, before) && CatchupsFed(cfg, order, before) && AtHome(before)
    ensures KeysAreIds(resources)
    ensures IsDesiredGraph(cfg, DepsView(resources))
    ensures FedChain(cfg, resources) && CatchupsFed(cfg, order, resources)
    ensures forall k | k in resources :: resources[k].sync <==> k.Sub? && SourceOf(cfg, k.dst) == Some(k.src)
    ensures AtHome(resources)
    ensures forall k | k in resources && !(k in before && resources[k] == before[k]) :: fresh(resources[k])
  {
    resources := before;
    for i := 0 to |cfg|
      invariant PairsWritten(cfg, before, resources, NamesOf(cfg[..i]), Named(""), {})
      invariant AtHome(resources)
      invariant forall k | k in resources && !(k in before && resources[k] == before[k]) :: fresh(resources[k])
    {
      NamesPrefix(cfg, i);
      resources := AddRow(cfg, cfg[i].name, newNodes, peerDeps, before, NamesOf(cfg[..i]), resources);
    }
    assert cfg[..|cfg|] == cfg;
    MeshComplete(cfg, before, resources);
    CatchupsSurvive(cfg, order, before, resources);
  }

  /** The inner loop: every subscriber of provider a. */
  method AddRow(cfg: Config, a: Name, newNodes: map<Name, Name>, peerDeps: map<Name, seq<Identifier>>,
                ghost before: map<Identifier, Resource>, ghost rows: set<Name>, start: map<Identifier, Resource>)
    returns (resources: map<Identifier, Resource>)
    requires IsNewMap(cfg, newNodes)
    requires peerDeps.Keys == newNodes.Keys && forall m | m in newNodes :: peerDeps[m] == Gates(cfg, m, newNodes[m])
    requires PairsWritten(cfg, before, start, rows, Named(""), {})
    ensures PairsWritten(cfg, before, resources, rows + {a}, Named(""), {})
    ensures AtHome(start) ==> AtHome(resources)
    ensures forall k | k in resources && !(k in start && resources[k] == start[k]) :: fresh(resources[k])
  {
    resources := start;
    for j := 0 to |cfg|
      invariant PairsWritten(cfg, before, resources, rows, a, NamesOf(cfg[..j]))
      invariant AtHome(start) ==> AtHome(resources)
      invariant forall k | k in resources && !(k in start && resources[k] == start[k]) :: fresh(resources[k])
    {
      NamesPrefix(cfg, j);
      if a != cfg[j].name {
        ghost var previous := resources;
        resources := AddPair(cfg, a, cfg[j].name, newNodes, peerDeps, resources);
        PairStep(cfg, before, previous, resources, rows, a, NamesOf(cfg[..j]), cfg[j].name);
      } else {
        SamePair(cfg, before, resources, rows, a, NamesOf(cfg[..j]));
      }
    }
    assert cfg[..|cfg|] == cfg;
    RowDone(cfg, before, resources, rows, a);
  }

  lemma SamePair(cfg: Config, before: map<Identifier, Resource>, after: map<Identifier, Resource>, rows: set<Name>,
                 a: Name, columns: set<Name>)
    requires PairsWritten(cfg, before, after, rows, a, columns)
    ensures PairsWritten(cfg, before, after, rows, a, columns + {a})
  {
  }

  lemma RowDone(cfg: Config, before: map<Identifier, Resource>, after: map<Identifier, Resource>, rows: set<Name>,
                a: Name)
    requires PairsWritten(cfg, before, after, rows, a, NamesOf(cfg))
    ensures PairsWritten(cfg, before, after, rows + {a}, Named(""), {})
  {
  }

  lemma PairStep(cfg: Config, before: map<Identifier, Resource>, start: map<Identifier, Resource>,
                 after: map<Identifier, Resource>, rows: set<Name>, a: Name, columns: set<Name>, b: Name)
    requires a != b && PairsWritten(cfg, before, start, rows, a, columns)
    requires after.Keys == start.Keys + {Slot(a, b), Sub(a, b)}
    requires forall k | k in start && k != Slot(a, b) && k != Sub(a, b) :: after[k] == start[k]
    requires Entry(cfg, Slot(a, b), after[Slot(a, b)]) && Entry(cfg, Sub(a, b), after[Sub(a, b)])
    ensures PairsWritten(cfg, before, after, rows, a, columns + {b})
  {
    forall id ensures id in after <==> id in before || InPairs(NamesOf(cfg), rows, a, columns + {b}, id) {
      assert id in start <==> id in before || InPairs(NamesOf(cfg), rows, a, columns, id);
    }
  }

  /** The pairs from rows, and those from row a to the given columns, have been written. */
  ghost predicate PairsWritten(cfg: Config, before: map<Identifier, Resource>, after: map<Identifier, Resource>,
                               rows: set<Name>, a: Name, columns: set<Name>) {
    && (forall id :: id in after <==> id in before || InPairs(NamesOf(cfg), rows, a, columns, id))
    && (forall id | id in before && !id.Slot? && !id.Sub? :: after[id] == before[id])
    && (forall id | id in after :: Entry(cfg, id, after[id]))
  }

  ghost predicate InPairs(names: set<Name>, rows: set<Name>, a: Name, columns: set<Name>, id: Identifier) {
    match id
    case Slot(x, y) => x != y && ((x in rows && y in names) || (x == a && y in columns))
    case Sub(x, y) => x != y && ((x in rows && y in names) || (x == a && y in columns))
    case _ => false
  }

  /** One ordered pair: its slot and its end-state subscription. */
  method AddPair(cfg: Config, a: Name, b: Name, newNodes: map<Name, Name>, peerDeps: map<Name, seq<Identifier>>,
                 before: map<Identifier, Resource>)
    returns (resources: map<Identifier, Resource>)
    requires IsNewMap(cfg, newNodes)
    requires peerDeps.Keys == newNodes.Keys && forall m | m in newNodes :: peerDeps[m] == Gates(cfg, m, newNodes[m])
    ensures resources.Keys == before.Keys + {Slot(a, b), Sub(a, b)}
    ensures forall k | k in before && k != Slot(a, b) && k != Sub(a, b) :: resources[k] == before[k]
    ensures Entry(cfg, Slot(a, b), resources[Slot(a, b)]) && Entry(cfg, Sub(a, b), resources[Sub(a, b)])
    ensures resources[Slot(a, b)].conn == a && resources[Sub(a, b)].conn == b
    ensures AtHome(before) ==> AtHome(resources)
    ensures forall k | k in resources && !(k in before && resources[k] == before[k]) :: fresh(resources[k])
  {
    var slot := new Resource(a, Slot(a, b), [Node(a)], false, null);
    resources := before[Slot(a, b) := slot];
    assert SourceOf(cfg, a) == (if a in newNodes then Some(newNodes[a]) else None);
    assert SourceOf(cfg, b) == (if b in newNodes then Some(newNodes[b]) else None);
    if b in newNodes && newNodes[b] == a {
      var sub := new Resource(b, Sub(a, b), [Node(a), Node(b), Slot(a, b)] + peerDeps[b], true, null);
      resources := resources[Sub(a, b) := sub];
      return;
    }
    var extraDeps: seq<Identifier> := [];
    if b in newNodes { extraDeps := extraDeps + [OriginAdvance(a, b)]; }
    if a in newNodes { extraDeps := extraDeps + [WaitEvent(newNodes[a], a)]; }
    var sub := new Resource(b, Sub(a, b), [Node(a), Node(b), Slot(a, b)] + extraDeps, false, null);
    resources := resources[Sub(a, b) := sub];
  }

  // ---------------------------------------------------------------------------------------
  // Proof steps
  // ---------------------------------------------------------------------------------------

  lemma NamesPrefix(cfg: Config, i: nat)
    requires i < |cfg|
    ensures NamesOf(cfg[..i + 1]) == NamesOf(cfg[..i]) + {cfg[i].name}
  {
    assert cfg[..i + 1] == cfg[..i] + [cfg[i]];
  }

  lemma GatesStep(cfg: Config, i: nat, m: Name, s: Name)
    requires i < |cfg|
    ensures var p := cfg[i].name;
            Gates(cfg[..i + 1], m, s) == Gates(cfg[..i], m, s)
                                         + if p == m || p == s then [] else [WaitEvent(p, s), PeerCatchup(p, s)]
  {
    assert cfg[..i + 1][..i] == cfg[..i];
  }

  lemma ChainEntries(cfg: Config, m: Name, s: Name, before: map<Identifier, Resource>, after: map<Identifier, Resource>)
    requires SourceOf(cfg, m) == Some(s) && ChainWritten(NamesOf(cfg), m, s, before, after)
    requires forall k | k in before :: Entry(cfg, k, before[k])
    ensures forall k | k in after :: Entry(cfg, k, after[k])
  {
    forall k | k in after ensures Entry(cfg, k, after[k]) {
      if InChain(NamesOf(cfg), m, s, k) { assert Populates(cfg, m, k); }
    }
  }

  lemma FeedKept(names: set<Name>, m: Name, s: Name, before: map<Identifier, Resource>,
                 after: map<Identifier, Resource>,
                 id: Identifier, from: Identifier)
    requires ChainWritten(names, m, s, before, after)
    requires InChain(names, m, s, id) <==> InChain(names, m, s, from)
    requires InChain(names, m, s, id) ==> Fed(after, id, from)
    requires Fed(before, id, from)
    ensures Fed(after, id, from)
  {
  }

  lemma ChainFeeds(cfg: Config, m: Name, s: Name, before: map<Identifier, Resource>, after: map<Identifier, Resource>)
    requires SourceOf(cfg, m) == Some(s)
    requires ChainWritten(NamesOf(cfg), m, s, before, after) && ChainFed(NamesOf(cfg), m, s, after)
    requires FedChain(cfg, before)
    ensures FedChain(cfg, after)
  {
    var names := NamesOf(cfg);
    forall p, x
      ensures Fed(after, WaitEvent(p, x), SyncEvent(p, x))
      ensures Fed(after, SlotAdvance(p, x), LagTracker(p, x)) && Fed(after, OriginAdvance(p, x), SlotAdvance(p, x))
      ensures SourceOf(cfg, x) != Some(p) ==> Fed(after, PeerCatchup(p, x), SyncEvent(p, x))
    {
      PairFeeds(cfg, m, s, before, after, p, x);
      if SourceOf(cfg, x) != Some(p) { CatchupFeed(names, m, s, before, after, p, x); }
    }
  }

  lemma PairFeeds(cfg: Config, m: Name, s: Name, before: map<Identifier, Resource>, after: map<Identifier, Resource>,
                  p: Name, x: Name)
    requires SourceOf(cfg, m) == Some(s)
    requires ChainWritten(NamesOf(cfg), m, s, before, after) && ChainFed(NamesOf(cfg), m, s, after)
    requires FedChain(cfg, before)
    ensures Fed(after, WaitEvent(p, x), SyncEvent(p, x))
    ensures Fed(after, SlotAdvance(p, x), LagTracker(p, x)) && Fed(after, OriginAdvance(p, x), SlotAdvance(p, x))
  {
    var names := NamesOf(cfg);
    FeedKept(names, m, s, before, after, WaitEvent(p, x), SyncEvent(p, x));
    AdvanceFeeds(names, m, s, before, after, p, x);
  }

  lemma AdvanceFeeds(names: set<Name>, m: Name, s: Name, before: map<Identifier, Resource>,
                     after: map<Identifier, Resource>,
                     p: Name, x: Name)
    requires ChainWritten(names, m, s, before, after) && (p in names - {m, s} ==> PeerFed(p, m, s, after))
    requires Fed(before, SlotAdvance(p, x), LagTracker(p, x)) && Fed(before, OriginAdvance(p, x), SlotAdvance(p, x))
    ensures Fed(after, SlotAdvance(p, x), LagTracker(p, x)) && Fed(after, OriginAdvance(p, x), SlotAdvance(p, x))
  {
    FeedKept(names, m, s, before, after, SlotAdvance(p, x), LagTracker(p, x));
    FeedKept(names, m, s, before, after, OriginAdvance(p, x), SlotAdvance(p, x));
  }

  lemma CatchupFeed(names: set<Name>, m: Name, s: Name, before: map<Identifier, Resource>,
                    after: map<Identifier, Resource>,
                    p: Name, x: Name)
    requires !(x == m && p == s) && ChainWritten(names, m, s, before, after)
    requires p in names - {m, s} ==> PeerFed(p, m, s, after)
    requires Fed(before, PeerCatchup(p, x), SyncEvent(p, x))
    ensures Fed(after, PeerCatchup(p, x), SyncEvent(p, x))
  {
    FeedKept(names, m, s, before, after, PeerCatchup(p, x), SyncEvent(p, x));
  }

  lemma OwnLastStep(cfg: Config, order: seq<Name>, m: Name, p: Name, x: Name)
    ensures OwnLast(cfg, order + [m], p, x) <==> m == x || (OwnLast(cfg, order, p, x) && !Feeder(cfg, m, p, x))
  {
    var longer := order + [m];
    if m == x { assert longer[|order|] == x; }
    if i :| 0 <= i < |longer| && longer[i] == x && forall j | i < j < |longer| :: !Feeder(cfg, longer[j], p, x) {
      if m != x {
        assert longer[|order|] == m && order[i] == x;
        assert forall j | i < j < |order| :: order[j] == longer[j];
      }
    }
    if OwnLast(cfg, order, p, x) && !Feeder(cfg, m, p, x) {
      var i :| 0 <= i < |order| && order[i] == x && forall j | i < j < |order| :: !Feeder(cfg, order[j], p, x);
      assert longer[i] == x;
    }
  }

  /** Writing m's chain feeds the catch-ups it writes, and leaves those of m with its source behind. */
  lemma CatchupsStep(cfg: Config, order: seq<Name>, m: Name, s: Name, before: map<Identifier, Resource>,
                     after: map<Identifier, Resource>)
    requires SourceOf(cfg, m) == Some(s)
    requires ChainWritten(NamesOf(cfg), m, s, before, after) && ChainFed(NamesOf(cfg), m, s, after)
    requires CatchupsFed(cfg, order, before)
    requires forall k | k in before :: before[k].feed != after[SyncEvent(s, m)]
    ensures CatchupsFed(cfg, order + [m], after)
  {
    forall p, x | SourceOf(cfg, x) == Some(p) && PeerCatchup(p, x) in after
      ensures Fed(after, PeerCatchup(p, x), SyncEvent(p, x)) <==> !OwnLast(cfg, order + [m], p, x)
    {
      OwnLastStep(cfg, order, m, p, x);
      CatchupStep(cfg, m, s, before, after, p, x);
    }
  }

  lemma CatchupStep(cfg: Config, m: Name, s: Name, before: map<Identifier, Resource>, after: map<Identifier, Resource>,
                    p: Name, x: Name)
    requires SourceOf(cfg, m) == Some(s) && SourceOf(cfg, x) == Some(p) && PeerCatchup(p, x) in after
    requires ChainWritten(NamesOf(cfg), m, s, before, after) && ChainFed(NamesOf(cfg), m, s, after)
    requires forall k | k in before :: before[k].feed != after[SyncEvent(s, m)]
    ensures m == x ==> !Fed(after, PeerCatchup(p, x), SyncEvent(p, x))
    ensures m != x && Feeder(cfg, m, p, x) ==> Fed(after, PeerCatchup(p, x), SyncEvent(p, x))
    ensures m != x && !Feeder(cfg, m, p, x) ==>
              PeerCatchup(p, x) in before
              && (Fed(after, PeerCatchup(p, x), SyncEvent(p, x)) <==> Fed(before, PeerCatchup(p, x), SyncEvent(p, x)))
  {
    var names := NamesOf(cfg);
    assert Feeder(cfg, m, p, x) <==> InChain(names, m, s, PeerCatchup(p, x));
    assert InChain(names, m, s, SyncEvent(p, x)) <==> m == x || Feeder(cfg, m, p, x);
    if m == x {
      assert !InChain(names, m, s, PeerCatchup(p, x));
    } else if Feeder(cfg, m, p, x) {
      assert PeerFed(p, m, s, after);
    }
  }

  lemma CatchupsSurvive(cfg: Config, order: seq<Name>, before: map<Identifier, Resource>,
                        after: map<Identifier, Resource>)
    requires CatchupsFed(cfg, order, before)
    requires forall id | id !in before && id in after :: id.Slot? || id.Sub?
    requires forall id | id in before && !id.Slot? && !id.Sub? :: id in after && after[id] == before[id]
    ensures CatchupsFed(cfg, order, after)
  {
    forall p, x | SourceOf(cfg, x) == Some(p) && PeerCatchup(p, x) in after
      ensures Fed(after, PeerCatchup(p, x), SyncEvent(p, x)) <==> !OwnLast(cfg, order, p, x)
    {
      assert SyncEvent(p, x) in after <==> SyncEvent(p, x) in before;
    }
  }

  /**
   Every catch-up reads the event in the map iff no new node's chain comes after all chains that
   copy another node from it; so always, unless a new node is copied from a new node.
   */
  lemma FedUnlessChained(cfg: Config, order: seq<Name>, m: map<Identifier, Resource>)
    requires IsDesiredGraph(cfg, DepsView(m)) && FedChain(cfg, m) && CatchupsFed(cfg, order, m)
             && OrderOfNew(cfg, order)
    ensures (forall p, x :: Fed(m, PeerCatchup(p, x), SyncEvent(p, x)))
            <==> forall p, x | SourceOf(cfg, x) == Some(p) && (exists n :: Feeder(cfg, n, p, x)) ::
                   !OwnLast(cfg, order, p, x)
  {
    forall p, x ensures PeerCatchup(p, x) in m <==> exists n :: Feeder(cfg, n, p, x) {
      assert PeerCatchup(p, x) in DepsView(m) <==> InDesired(cfg, PeerCatchup(p, x));
      if n :| Populates(cfg, n, PeerCatchup(p, x)) { assert Feeder(cfg, n, p, x); }
      if n :| Feeder(cfg, n, p, x) { assert Populates(cfg, n, PeerCatchup(p, x)); }
    }
  }

  lemma MeshComplete(cfg: Config, before: map<Identifier, Resource>, after: map<Identifier, Resource>)
    requires forall id :: id in before <==> ((id.User? || id.Node?) && InMesh(NamesOf(cfg), id))
                                            || exists m :: Populates(cfg, m, id)
    requires FedChain(cfg, before)
    requires PairsWritten(cfg, before, after, NamesOf(cfg), Named(""), {})
    ensures KeysAreIds(after)
    ensures IsDesiredGraph(cfg, DepsView(after))
    ensures FedChain(cfg, after)
    ensures forall k | k in after :: Entry(cfg, k, after[k])
  {
    forall id ensures id in after <==> InDesired(cfg, id) {
      assert id in after <==> id in before || InPairs(NamesOf(cfg), NamesOf(cfg), Named(""), {}, id);
      if m :| Populates(cfg, m, id) { assert id.Ephemeral(); }
    }
    FeedsSurvive(cfg, before, after);
  }

  lemma FeedsSurvive(cfg: Config, before: map<Identifier, Resource>, after: map<Identifier, Resource>)
    requires FedChain(cfg, before)
    requires forall id | id !in before && id in after :: id.Slot? || id.Sub?
    requires forall id | id in before && !id.Slot? && !id.Sub? :: id in after && after[id] == before[id]
    ensures FedChain(cfg, after)
  {
    assert forall p, x :: Fed(before, WaitEvent(p, x), SyncEvent(p, x));
    assert forall p, x :: Fed(before, SlotAdvance(p, x), LagTracker(p, x));
    assert forall p, x :: Fed(before, OriginAdvance(p, x), SlotAdvance(p, x));
    assert forall p, x | SourceOf(cfg, x) != Some(p) :: Fed(before, PeerCatchup(p, x), SyncEvent(p, x));
  }
}
