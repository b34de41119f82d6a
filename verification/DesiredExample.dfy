/**
 ComputeDesired at a configuration: a third node copied from the first, entry by entry.
 */
module DesiredExample {
  import opened Resources
  import opened Planning
  import opened Desired

  /** A Spock node without a source, one restored from a backup, and one bootstrapped from the first. */
  function ThirdFromFirst(a: Name, b: Name, c: Name): Config {
    [NodeCfg(a, "spock", Named("")), NodeCfg(b, "cnpg", Named("")), NodeCfg(c, "spock", a)]
  }

  /** A later entry of the same name replaces the source, unless it is not a bootstrapping one. */
  lemma LastEntryWins(cfg: Config, e: NodeCfg, m: Name)
    ensures e.name == m && e.mode == "spock" && e.source.text != "" ==> SourceOf(cfg + [e], m) == Some(e.source)
    ensures e.name != m || e.mode != "spock" || e.source.text == "" ==> SourceOf(cfg + [e], m) == SourceOf(cfg, m)
  {
    assert (cfg + [e])[..|cfg|] == cfg;
  }

  function ThirdMembers(a: Name, b: Name, c: Name): set<Identifier> {
    {User(a), User(b), User(c), Node(a), Node(b), Node(c)}
  }

  function ThirdChain(a: Name, b: Name, c: Name): set<Identifier> {
    {SlotCreate(b, c), DisabledSub(b, c), SyncEvent(b, a), WaitEvent(b, a), PeerCatchup(b, a),
     LagTracker(b, c), SlotAdvance(b, c), OriginAdvance(b, c), SyncEvent(a, c), WaitEvent(a, c)}
  }

  function ThirdMesh(a: Name, b: Name, c: Name): set<Identifier> {
    {Slot(a, b), Slot(a, c), Slot(b, a), Slot(b, c), Slot(c, a), Slot(c, b),
     Sub(a, b), Sub(a, c), Sub(b, a), Sub(b, c), Sub(c, a), Sub(c, b)}
  }

  lemma ThirdIsNew(a: Name, b: Name, c: Name)
    requires a != b && a != c && b != c && a.text != ""
    ensures NamesOf(ThirdFromFirst(a, b, c)) == {a, b, c} && OnlyNew(ThirdFromFirst(a, b, c), c, a)
    ensures Gates(ThirdFromFirst(a, b, c), c, a) == [WaitEvent(b, a), PeerCatchup(b, a)]
  {
    var cfg := ThirdFromFirst(a, b, c);
    assert cfg[..2][..1] == cfg[..1] && cfg[..1][..0] == [];
    assert cfg[0] in cfg && cfg[1] in cfg && cfg[2] in cfg;
    forall n ensures SourceOf(cfg, n) == if n == c then Some(a) else None {
      assert SourceOf(cfg[..1][..0], n) == None;
      assert SourceOf(cfg[..1], n) == None;
      assert SourceOf(cfg[..2], n) == None;
    }
    assert Gates(cfg[..1][..0], c, a) == [];
    assert Gates(cfg[..1], c, a) == [];
    assert Gates(cfg[..2], c, a) == [WaitEvent(b, a), PeerCatchup(b, a)];
  }

  lemma ThirdIds(a: Name, b: Name, c: Name, id: Identifier)
    requires a != b && a != c && b != c && a.text != ""
    ensures id.Ephemeral() ==> (InDesired(ThirdFromFirst(a, b, c), id) <==> id in ThirdChain(a, b, c))
    ensures !id.Ephemeral() ==>
              (InDesired(ThirdFromFirst(a, b, c), id) <==> id in ThirdMembers(a, b, c) || id in ThirdMesh(a, b, c))
    ensures if id.Ephemeral() then id !in ThirdMembers(a, b, c) && id !in ThirdMesh(a, b, c)
            else id !in ThirdChain(a, b, c)
  {
    var cfg := ThirdFromFirst(a, b, c);
    ThirdIsNew(a, b, c);
    if id.Ephemeral() {
      assert InDesired(cfg, id) <==> Populates(cfg, c, id);
      ThirdInChain(a, b, c, id);
    } else {
      ThirdInMesh(a, b, c, id);
    }
  }

  lemma ThirdInChain(a: Name, b: Name, c: Name, id: Identifier)
    requires a != b && a != c && b != c
    ensures InChain({a, b, c}, c, a, id) <==> id in ThirdChain(a, b, c)
  {
    assert {a, b, c} - {c, a} == {b};
  }

  lemma ThirdInMesh(a: Name, b: Name, c: Name, id: Identifier)
    requires a != b && a != c && b != c
    ensures InMesh({a, b, c}, id) <==> id in ThirdMembers(a, b, c) || id in ThirdMesh(a, b, c)
  {
  }

  lemma ChainEntryOf(cfg: Config, a: Name, c: Name, id: Identifier, deps: Deps)
    requires IsDesiredGraph(cfg, deps) && OnlyNew(cfg, c, a) && id.Ephemeral() && id in deps
    ensures deps[id] == ChainDeps(c, a, id)
  {
    assert DepsAllowed(cfg, id, deps[id]);
    var m :| Populates(cfg, m, id) && deps[id] == ChainDeps(m, SourceOf(cfg, m).value, id);
    assert m == c;
  }

  /** The desired map of that configuration has these 28 resources and no others. */
  lemma ThirdKeys(a: Name, b: Name, c: Name, deps: Deps)
    requires a != b && a != c && b != c && a.text != ""
    requires IsDesiredGraph(ThirdFromFirst(a, b, c), deps)
    ensures deps.Keys == ThirdMembers(a, b, c) + ThirdChain(a, b, c) + ThirdMesh(a, b, c)
  {
    forall id ensures id in deps <==> id in ThirdMembers(a, b, c) + ThirdChain(a, b, c) + ThirdMesh(a, b, c) {
      ThirdIds(a, b, c, id);
      assert id in deps <==> InDesired(ThirdFromFirst(a, b, c), id);
    }
  }

  /** What each subscription of the mesh waits for. */
  lemma ThirdSubs(a: Name, b: Name, c: Name, deps: Deps)
    requires a != b && a != c && b != c && a.text != ""
    requires IsDesiredGraph(ThirdFromFirst(a, b, c), deps)
    ensures {Sub(a, b), Sub(a, c), Sub(b, a), Sub(b, c), Sub(c, a), Sub(c, b)} <= deps.Keys
    ensures deps[Sub(a, b)] == [Node(a), Node(b), Slot(a, b)]
    ensures deps[Sub(b, a)] == [Node(b), Node(a), Slot(b, a)]
    ensures deps[Sub(a, c)] == [Node(a), Node(c), Slot(a, c), WaitEvent(b, a), PeerCatchup(b, a)]
    ensures deps[Sub(b, c)] == [Node(b), Node(c), Slot(b, c), OriginAdvance(b, c)]
    ensures deps[Sub(c, a)] == [Node(c), Node(a), Slot(c, a), WaitEvent(a, c)]
    ensures deps[Sub(c, b)] == [Node(c), Node(b), Slot(c, b), WaitEvent(a, c)]
  {
    var cfg := ThirdFromFirst(a, b, c);
    ThirdIsNew(a, b, c);
    SubEntryOf(cfg, a, b, deps);
    SubEntryOf(cfg, b, a, deps);
    SubEntryOf(cfg, a, c, deps);
    SubEntryOf(cfg, b, c, deps);
    SubEntryOf(cfg, c, a, deps);
    SubEntryOf(cfg, c, b, deps);
  }

  lemma SubEntryOf(cfg: Config, x: Name, y: Name, deps: Deps)
    requires IsDesiredGraph(cfg, deps) && x in NamesOf(cfg) && y in NamesOf(cfg) && x != y
    ensures Sub(x, y) in deps && deps[Sub(x, y)] == [Node(x), Node(y), Slot(x, y)] + ExtraDeps(cfg, x, y)
  {
    assert InDesired(cfg, Sub(x, y));
    assert DepsAllowed(cfg, Sub(x, y), deps[Sub(x, y)]);
  }

  /** What the populate chain of the third node waits for. */
  lemma ThirdPopulates(a: Name, b: Name, c: Name, deps: Deps)
    requires a != b && a != c && b != c && a.text != ""
    requires IsDesiredGraph(ThirdFromFirst(a, b, c), deps)
    ensures ThirdChain(a, b, c) <= deps.Keys
    ensures deps[SlotCreate(b, c)] == [Node(b)]
    ensures deps[DisabledSub(b, c)] == [Node(b), Node(c), SlotCreate(b, c)]
    ensures deps[SyncEvent(b, a)] == [Node(b), Sub(b, a), SlotCreate(b, c)]
    ensures deps[WaitEvent(b, a)] == [SyncEvent(b, a)] && deps[PeerCatchup(b, a)] == [SyncEvent(b, a)]
    ensures deps[SyncEvent(a, c)] == [Node(a), Sub(a, c)] && deps[WaitEvent(a, c)] == [SyncEvent(a, c)]
    ensures deps[LagTracker(b, c)] == [Node(c), WaitEvent(a, c)]
    ensures deps[SlotAdvance(b, c)] == [Node(b), LagTracker(b, c)]
    ensures deps[OriginAdvance(b, c)] == [SlotAdvance(b, c)]
  {
    ThirdChainIn(a, b, c, deps);
    ThirdIsNew(a, b, c);
    var cfg := ThirdFromFirst(a, b, c);
    ChainEntryOf(cfg, a, c, SlotCreate(b, c), deps);
    ChainEntryOf(cfg, a, c, DisabledSub(b, c), deps);
    ChainEntryOf(cfg, a, c, SyncEvent(b, a), deps);
    ChainEntryOf(cfg, a, c, WaitEvent(b, a), deps);
    ChainEntryOf(cfg, a, c, PeerCatchup(b, a), deps);
    ChainEntryOf(cfg, a, c, SyncEvent(a, c), deps);
    ChainEntryOf(cfg, a, c, WaitEvent(a, c), deps);
    ChainEntryOf(cfg, a, c, LagTracker(b, c), deps);
    ChainEntryOf(cfg, a, c, SlotAdvance(b, c), deps);
    ChainEntryOf(cfg, a, c, OriginAdvance(b, c), deps);
  }

  lemma ThirdChainIn(a: Name, b: Name, c: Name, deps: Deps)
    requires a != b && a != c && b != c && a.text != ""
    requires IsDesiredGraph(ThirdFromFirst(a, b, c), deps)
    ensures ThirdChain(a, b, c) <= deps.Keys
  {
    ThirdKeys(a, b, c, deps);
  }
}
