/**
 How many resources ComputeDesired emits: 2n² for a mesh of n nodes, and 8(n−2) + 2 more for
 the populate chain of one new node.
 */
module MeshSize {
  import opened Resources
  import opened Planning
  import opened Desired
  import opened DesiredOrder

  /** The pairs between n and the given other nodes, in both directions. */
  ghost predicate OnStar(n: Name, others: set<Name>, id: Identifier) {
    match id
    case Slot(a, b) => (a == n && b in others) || (b == n && a in others)
    case Sub(a, b) => (a == n && b in others) || (b == n && a in others)
    case _ => false
  }

  /** Taking the pair n, b out of the star takes out two slots and two subscriptions. */
  lemma StarWithout(n: Name, others: set<Name>, b: Name, star: set<Identifier>) returns (rest: set<Identifier>)
    requires n !in others && b in others && forall id :: id in star <==> OnStar(n, others, id)
    ensures forall id :: id in rest <==> OnStar(n, others - {b}, id)
    ensures |star| == |rest| + 4
  {
    var slots, subs := {Slot(n, b), Slot(b, n)}, {Sub(n, b), Sub(b, n)};
    rest := star - slots - subs;
    forall id | id in slots + subs ensures id in star { assert OnStar(n, others, id); }
    Sum(star, rest, slots, subs);
    Pairs(n, b);
  }

  lemma Pairs(n: Name, b: Name)
    requires n != b
    ensures |{Slot(n, b), Slot(b, n)}| == 2 && |{Sub(n, b), Sub(b, n)}| == 2
  {
    assert {Slot(n, b), Slot(b, n)} == {Slot(n, b)} + {Slot(b, n)};
    assert {Sub(n, b), Sub(b, n)} == {Sub(n, b)} + {Sub(b, n)};
  }

  lemma {:induction false} StarSize(n: Name, others: set<Name>, star: set<Identifier>)
    requires n !in others && forall id :: id in star <==> OnStar(n, others, id)
    ensures |star| == 4 * |others|
  {
    if others == {} {
      assert star == {};
    } else {
      var b :| b in others;
      var rest := StarWithout(n, others, b, star);
      StarSize(n, others - {b}, rest);
      assert |others - {b}| == |others| - 1;
    }
  }

  lemma MeshWithout(names: set<Name>, n: Name, mesh: set<Identifier>, star: set<Identifier>, rest: set<Identifier>)
    requires n in names && forall id :: id in mesh <==> InMesh(names, id)
    requires star == (set id | id in mesh && OnStar(n, names - {n}, id)) && rest == mesh - star - {User(n), Node(n)}
    ensures forall id :: id in rest <==> InMesh(names - {n}, id)
    ensures forall id :: id in star <==> OnStar(n, names - {n}, id)
    ensures {User(n), Node(n)} <= mesh
  {
    assert InMesh(names, User(n)) && InMesh(names, Node(n));
  }

  lemma {:induction false} MeshCount(names: set<Name>, mesh: set<Identifier>)
    requires forall id :: id in mesh <==> InMesh(names, id)
    ensures |mesh| == 2 * |names| * |names|
  {
    if names == {} {
      assert mesh == {};
    } else {
      var n :| n in names;
      var others := names - {n};
      var star := set id | id in mesh && OnStar(n, others, id);
      var own := {User(n), Node(n)};
      var rest := mesh - star - own;
      MeshWithout(names, n, mesh, star, rest);
      MeshCount(others, rest);
      StarSize(n, others, star);
      Sum(mesh, rest, star, own);
      assert |others| == |names| - 1;
      Square(|names|);
    }
  }

  lemma Sum(all: set<Identifier>, rest: set<Identifier>, star: set<Identifier>, own: set<Identifier>)
    requires rest == all - star - own && star <= all && own <= all && star !! own
    ensures |all| == |rest| + |star| + |own|
  {
    assert all == rest + (star + own);
  }

  lemma Square(n: nat)
    requires n > 0
    ensures 2 * (n - 1) * (n - 1) + 4 * (n - 1) + 2 == 2 * n * n
  {
  }

  /** Without a new node: one user and one node each, one slot and one subscription per ordered pair. */
  lemma DesiredSize(cfg: Config, deps: Deps)
    requires IsDesiredGraph(cfg, deps) && NoNew(cfg)
    ensures |deps| == 2 * |NamesOf(cfg)| * |NamesOf(cfg)|
  {
    assert forall m :: SourceOf(cfg, m) == None;
    forall id ensures id in deps.Keys <==> InMesh(NamesOf(cfg), id) {
      assert id in deps <==> InDesired(cfg, id);
    }
    MeshCount(NamesOf(cfg), deps.Keys);
  }

  // ---------------------------------------------------------------------------------------
  // With one new node
  // ---------------------------------------------------------------------------------------

  /** The chain over the given peers, without the source's event and wait. */
  ghost predicate OnChain(peers: set<Name>, m: Name, s: Name, id: Identifier) {
    match id
    case SlotCreate(p, x) => x == m && p in peers
    case DisabledSub(p, x) => x == m && p in peers
    case LagTracker(p, x) => x == m && p in peers
    case SlotAdvance(p, x) => x == m && p in peers
    case OriginAdvance(p, x) => x == m && p in peers
    case PeerCatchup(p, x) => x == s && p in peers
    case SyncEvent(p, x) => x == s && p in peers
    case WaitEvent(p, x) => x == s && p in peers
    case _ => false
  }

  lemma ChainWithout(peers: set<Name>, p: Name, m: Name, s: Name, chain: set<Identifier>, rest: set<Identifier>)
    requires p in peers && forall id :: id in chain <==> OnChain(peers, m, s, id)
    requires rest == chain - Early(p, m, s) - Late(p, m, s)
    ensures forall id :: id in rest <==> OnChain(peers - {p}, m, s, id)
    ensures Early(p, m, s) <= chain && Late(p, m, s) <= chain
  {
    forall id | id in Early(p, m, s) + Late(p, m, s) ensures id in chain {
      assert OnChain(peers, m, s, id);
    }
  }

  function Early(p: Name, m: Name, s: Name): set<Identifier> {
    {SlotCreate(p, m), DisabledSub(p, m), SyncEvent(p, s), WaitEvent(p, s)}
  }

  function Late(p: Name, m: Name, s: Name): set<Identifier> {
    {PeerCatchup(p, s), LagTracker(p, m), SlotAdvance(p, m), OriginAdvance(p, m)}
  }

  lemma {:induction false} ChainCount(peers: set<Name>, m: Name, s: Name, chain: set<Identifier>)
    requires forall id :: id in chain <==> OnChain(peers, m, s, id)
    ensures |chain| == 8 * |peers|
  {
    if peers == {} {
      assert chain == {};
    } else {
      var p :| p in peers;
      var early, late := Early(p, m, s), Late(p, m, s);
      var rest := chain - early - late;
      ChainWithout(peers, p, m, s, chain, rest);
      ChainCount(peers - {p}, m, s, rest);
      Sum(chain, rest, early, late);
    }
  }

  lemma ThreeParts(cfg: Config, deps: Deps, m: Name, s: Name, id: Identifier)
    requires IsDesiredGraph(cfg, deps) && OnlyNew(cfg, m, s) && s != m
    ensures var peers := NamesOf(cfg) - {m, s};
            id in deps
            <==> InMesh(NamesOf(cfg), id) || OnChain(peers, m, s, id) || id == SyncEvent(s, m) || id == WaitEvent(s, m)
  {
    assert id in deps <==> InDesired(cfg, id);
    assert Populates(cfg, m, id) <==> InChain(NamesOf(cfg), m, s, id);
  }

  /** One new node with another configured source: eight resources per peer, and the source's event and wait. */
  lemma OneNewSize(cfg: Config, deps: Deps, m: Name, s: Name)
    requires IsDesiredGraph(cfg, deps) && OnlyNew(cfg, m, s) && s in NamesOf(cfg) && s != m
    ensures var n := |NamesOf(cfg)|; n >= 2 && |deps| == 2 * n * n + 8 * (n - 2) + 2
  {
    var names := NamesOf(cfg);
    var peers := names - {m, s};
    NewIsConfigured(cfg, m);
    assert |names| == |peers| + 2 by { assert names == peers + {m, s}; }
    forall id { ThreeParts(cfg, deps, m, s, id); }
    var all := deps.Keys;
    var chain := set id | id in all && OnChain(peers, m, s, id);
    var ends := {SyncEvent(s, m), WaitEvent(s, m)};
    PartsCount(names, peers, m, s, all, chain, ends);
    assert |deps| == |all|;
  }

  lemma PartsCount(names: set<Name>, peers: set<Name>, m: Name, s: Name, all: set<Identifier>, chain: set<Identifier>,
                   ends: set<Identifier>)
    requires forall id ::
               id in all
               <==> InMesh(names, id) || OnChain(peers, m, s, id) || id == SyncEvent(s, m) || id == WaitEvent(s, m)
    requires chain == (set id | id in all && OnChain(peers, m, s, id)) && ends == {SyncEvent(s, m), WaitEvent(s, m)}
    requires m !in peers && s !in peers
    ensures |all| == 2 * |names| * |names| + 8 * |peers| + 2
  {
    var mesh := all - chain - ends;
    assert forall id :: id in mesh <==> InMesh(names, id);
    MeshCount(names, mesh);
    ChainCount(peers, m, s, chain);
    Sum(all, mesh, chain, ends);
  }
}
