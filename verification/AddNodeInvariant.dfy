/**
 The invariant of module AddNode holds in every state of every interleaving: each step of the
 chain, each delete and create of a subscription, and each move of the cluster keeps it.
 */
module AddNodeInvariant {
  import opened Resources
  import opened Layering
  import opened Planning
  import opened Executor
  import opened Desired
  import opened DesiredOrder
  import opened AddNode

  // ---------------------------------------------------------------------------------------
  // Each effect keeps the invariant of the provider it touches
  // ---------------------------------------------------------------------------------------

  lemma KeepSlotCreated(source: bool, v: Provider, v': Provider)
    requires SlotCreated(v, v') && ProviderInv(source, v)
    ensures ProviderInv(source, v')
  {
  }

  lemma KeepSyncMarked(source: bool, v: Provider, v': Provider)
    requires SyncMarked(v, v') && ProviderInv(source, v) && (source || v.slot.Some?)
    ensures ProviderInv(source, v')
  {
  }

  lemma KeepLagRead(v: Provider, v': Provider)
    requires LagRead(v, v') && ProviderInv(false, v) && v.copy.Some?
    ensures ProviderInv(false, v')
  {
    if v'.target.Some? {
      var target := v'.target.value;
      assert target <= v.copy.value || target in v.streamed;
    }
  }

  lemma KeepSlotAdvanced(v: Provider, v': Provider)
    requires SlotAdvanced(v, v') && ProviderInv(false, v) && !v.sub.Enabled?
    ensures ProviderInv(false, v')
  {
  }

  lemma KeepSubEnabled(v: Provider, v': Provider)
    requires SubEnabled(v, v') && ProviderInv(false, v) && v.copy.Some?
    ensures ProviderInv(false, v') && v'.Streaming()
  {
  }

  /** The COPY: the peer is applied up to its mark, so the watermark covers what its slot misses. */
  lemma KeepPeerCopied(v: Provider, v': Provider)
    requires PeerCopied(v, v') && ProviderInv(false, v) && v.copy.None?
    requires v.mark.Some? && v.applied >= v.mark.value
    ensures ProviderInv(false, v')
  {
  }

  lemma KeepEnv(source: bool, v: Provider, v': Provider, e: EnvStep)
    requires EnvMove(v, v', e) && ProviderInv(source, v)
    ensures ProviderInv(source, v') && SameButOrigin(v, v') && (!source ==> v'.applied >= v.applied)
  {
    if e.Deliver? {
      assert Span(v.sub.start, v'.origin) == Span(v.sub.start, v.origin) + {v'.origin};
      assert v'.origin !in v.streamed;
    }
  }

  lemma KeepBroken(source: bool, v: Provider, v': Provider, e: EnvStep)
    requires EnvMove(v, v', e) && Broken(source, v)
    ensures Broken(source, v') && SameButOrigin(v, v') && (!source ==> v'.applied >= v.applied)
  {
  }

  /** What TaskInv looks at, apart from apply progress. */
  predicate SameButOrigin(v: Provider, v': Provider) {
    && v'.slot.Some? == v.slot.Some? && v'.mark == v.mark && v'.sub == v.sub && v'.copy == v.copy
    && v'.advanced == v.advanced
    && (v.sub.Enabled? || v'.origin == v.origin)
  }

  // ---------------------------------------------------------------------------------------
  // What the plan orders
  // ---------------------------------------------------------------------------------------

  /** Orphans add nothing to the order of the creates. */
  lemma SameLinks(a: Adding)
    requires a.Valid()
    ensures LinksOn(a.creates, a.deps, false) == LinksOn(a.creates, a.desired, false)
  {
  }

  /** A create of the add begins only after each of its dependencies inside the create set. */
  lemma AfterDependency(a: Adding, s: Exec, x: Identifier, y: Identifier)
    requires a.Valid() && ExecInv(a.Plan(), s) && Started(s, Task(Create, y))
    requires x in a.creates && y in a.creates && x in a.deps[y]
    ensures Done(s, Task(Create, x))
  {
    OneNewIsOrdered(a.cfg, a.desired, a.m, a.s, a.creates, false);
    SameLinks(a);
    InvRespectsDependencies(a.deps, a.deletes, a.updates, a.creates, s, Create, x, y);
  }

  lemma ChainDependency(a: Adding, s: Exec, x: Identifier, y: Identifier)
    requires a.Valid() && ExecInv(a.Plan(), s) && Started(s, Task(Create, y))
    requires Populates(a.cfg, a.m, x) && Populates(a.cfg, a.m, y) && x in ChainDeps(a.m, a.s, y)
    ensures Done(s, Task(Create, x))
  {
    OnlyChainDeps(a.cfg, a.desired, a.m, a.s, y);
    AfterDependency(a, s, x, y);
  }

  /** Which tasks a valid add plans: the chain's, mesh creates, and nothing else touching x→m. */
  lemma PlannedTask(a: Adding, s: Exec, t: Task)
    requires a.Valid() && ExecInv(a.Plan(), s) && t in s.st
    ensures t.id in TargetsOf(t.action, a.deletes, a.updates, a.creates)
    ensures t.action == Create && t.id.Ephemeral() ==> Populates(a.cfg, a.m, t.id)
    ensures t.action == Create && t.id.Sub? ==> InMesh(NamesOf(a.cfg), t.id)
  {
    PlanIsPartition(a.deps, a.deletes, a.updates, a.creates);
    var k := PhaseOf(a.Plan(), t);
    if t.action == Create {
      assert t.id in a.desired && InDesired(a.cfg, t.id);
      if t.id.Ephemeral() { OnlyChainDeps(a.cfg, a.desired, a.m, a.s, t.id); }
    }
  }

  /** When a create has begun, nothing is pending any more and every update is done. */
  lemma CreatesComeLast(a: Adding, s: Exec, t: Task, id: Identifier)
    requires ExecInv(a.Plan(), s) && Started(s, t) && t.action == Create
    ensures id in a.deletes ==> Done(s, Task(Delete, id))
    ensures id in a.updates ==> Done(s, Task(Update, id))
  {
    if id in a.deletes { InvDeletesFirst(a.deps, a.deletes, a.updates, a.creates, s, Task(Delete, id), t); }
    if id in a.updates { InvDeletesFirst(a.deps, a.deletes, a.updates, a.creates, s, Task(Update, id), t); }
  }

  /** While a delete is running, no create has begun. */
  lemma DeletesComeFirst(a: Adding, s: Exec, t: Task, id: Identifier)
    requires ExecInv(a.Plan(), s) && t in s.st && s.st[t] == Running && t.action == Delete && t.id in a.deletes
    ensures !Started(s, Task(Create, id))
  {
    if Started(s, Task(Create, id)) {
      InvDeletesFirst(a.deps, a.deletes, a.updates, a.creates, s, t, Task(Create, id));
    }
  }

  /** Once the lag tracker of some peer has begun, the COPY is done. */
  lemma CopyBeforeLag(a: Adding, s: Exec, p: Name)
    requires a.Fresh() && ExecInv(a.Plan(), s) && p in a.Peers()
    requires Started(s, Task(Create, LagTracker(p, a.m)))
    ensures Done(s, Task(Create, Sub(a.s, a.m)))
  {
    assert Populates(a.cfg, a.m, LagTracker(p, a.m)) && Populates(a.cfg, a.m, WaitEvent(a.s, a.m));
    assert Populates(a.cfg, a.m, SyncEvent(a.s, a.m));
    ChainDependency(a, s, WaitEvent(a.s, a.m), LagTracker(p, a.m));
    ChainDependency(a, s, SyncEvent(a.s, a.m), WaitEvent(a.s, a.m));
    OnlyChainDeps(a.cfg, a.desired, a.m, a.s, SyncEvent(a.s, a.m));
    AfterDependency(a, s, Sub(a.s, a.m), SyncEvent(a.s, a.m));
  }

  /** The end-state p→m subscription begins after the lag tracker, both advances, and the COPY. */
  lemma BeforePeerSub(a: Adding, s: Exec, p: Name)
    requires a.Fresh() && ExecInv(a.Plan(), s) && p in a.Peers()
    requires Started(s, Task(Create, Sub(p, a.m)))
    ensures Done(s, Task(Create, OriginAdvance(p, a.m))) && Done(s, Task(Create, SlotAdvance(p, a.m)))
    ensures Done(s, Task(Create, LagTracker(p, a.m))) && Done(s, Task(Create, Sub(a.s, a.m)))
  {
    assert Populates(a.cfg, a.m, LagTracker(p, a.m)) && Populates(a.cfg, a.m, SlotAdvance(p, a.m));
    assert Populates(a.cfg, a.m, OriginAdvance(p, a.m));
    PeerEdges(a.cfg, a.desired, a.m, a.s, p);
    AfterDependency(a, s, OriginAdvance(p, a.m), Sub(p, a.m));
    ChainDependency(a, s, SlotAdvance(p, a.m), OriginAdvance(p, a.m));
    ChainDependency(a, s, LagTracker(p, a.m), SlotAdvance(p, a.m));
    CopyBeforeLag(a, s, p);
  }

  /** The COPY begins after every peer's mark has been applied on the source. */
  lemma CatchupBeforeCopy(a: Adding, s: Exec, p: Name)
    requires a.Fresh() && ExecInv(a.Plan(), s) && p in a.Peers()
    requires Started(s, Task(Create, Sub(a.s, a.m)))
    ensures Done(s, Task(Create, PeerCatchup(p, a.s)))
  {
    assert Populates(a.cfg, a.m, PeerCatchup(p, a.s));
    NewIsConfigured(a.cfg, a.m);
    GatesExact(a.cfg, a.m, a.s, PeerCatchup(p, a.s));
    assert InDesired(a.cfg, Sub(a.s, a.m)) && DepsAllowed(a.cfg, Sub(a.s, a.m), a.desired[Sub(a.s, a.m)]);
    AfterDependency(a, s, PeerCatchup(p, a.s), Sub(a.s, a.m));
  }

  lemma SlotBeforeMark(a: Adding, s: Exec, p: Name)
    requires a.Valid() && ExecInv(a.Plan(), s) && p in a.Peers()
    requires Started(s, Task(Create, SyncEvent(p, a.s)))
    ensures Done(s, Task(Create, SlotCreate(p, a.m)))
  {
    assert Populates(a.cfg, a.m, SyncEvent(p, a.s)) && Populates(a.cfg, a.m, SlotCreate(p, a.m));
    ChainDependency(a, s, SlotCreate(p, a.m), SyncEvent(p, a.s));
  }

  lemma MarkBeforeCatchup(a: Adding, s: Exec, p: Name)
    requires a.Valid() && ExecInv(a.Plan(), s) && p in a.Peers()
    requires Started(s, Task(Create, PeerCatchup(p, a.s)))
    ensures Done(s, Task(Create, SyncEvent(p, a.s)))
  {
    assert Populates(a.cfg, a.m, SyncEvent(p, a.s)) && Populates(a.cfg, a.m, PeerCatchup(p, a.s));
    ChainDependency(a, s, SyncEvent(p, a.s), PeerCatchup(p, a.s));
  }

  // ---------------------------------------------------------------------------------------
  // Every step keeps the invariant
  // ---------------------------------------------------------------------------------------

  /** t concerns provider p and leaves every other provider alone. */
  ghost predicate Concerns(a: Adding, t: Task, p: Name) {
    t.action == Create &&
    match t.id
    case SlotCreate(x, _) => x == p
    case SyncEvent(x, _) => x == p
    case WaitEvent(x, _) => x == p
    case PeerCatchup(x, _) => x == p
    case DisabledSub(x, _) => x == p
    case LagTracker(x, _) => x == p
    case SlotAdvance(x, _) => x == p
    case OriginAdvance(x, _) => x == p
    case Sub(x, y) => x == p && y == a.m && x != a.s
    case _ => false
  }

  /** What is known of peer p when task t on it is about to succeed. */
  ghost predicate AboutTo(a: Adding, s: Exec, t: Task, p: Name, v: Provider) {
    && a.Fresh() && ExecInv(a.Plan(), s) && p in a.Peers() && Concerns(a, t, p)
    && t in s.st && s.st[t] == Running && !Pending(a, s, p)
    && ProviderInv(false, v) && TaskInv(a, s, p, v)
    && (Done(s, Task(Create, Sub(a.s, a.m))) ==> v.copy.Some?)
  }

  ghost function AfterTask(s: Exec, t: Task): Exec {
    s.(st := s.st[t := Ok])
  }

  /** A step that touches none of the facts TaskInv records, by a task that adds none. */
  lemma QuietTask(a: Adding, s: Exec, t: Task, p: Name, v: Provider, v': Provider)
    requires TaskInv(a, s, p, v)
    requires t.action == Create
    requires t.id.WaitEvent? || t.id.LagTracker? || t.id.SlotAdvance? || t.id.OriginAdvance?
    requires v.slot.Some? <==> v'.slot.Some?
    requires v'.mark == v.mark && v'.applied == v.applied && v'.sub == v.sub
    requires OriginInv(Done(AfterTask(s, t), Task(Create, OriginAdvance(p, a.m))), Pending(a, s, p), v')
    ensures TaskInv(a, AfterTask(s, t), p, v')
  {
  }

  lemma SlotCreateTask(a: Adding, s: Exec, t: Task, p: Name, v: Provider, v': Provider)
    requires AboutTo(a, s, t, p, v) && t.id.SlotCreate? && SlotCreated(v, v')
    ensures ProviderInv(false, v') && TaskInv(a, AfterTask(s, t), p, v')
  {
    KeepSlotCreated(false, v, v');
  }

  lemma SyncEventTask(a: Adding, s: Exec, t: Task, p: Name, v: Provider, v': Provider)
    requires AboutTo(a, s, t, p, v) && t.id == SyncEvent(p, a.s) && SyncMarked(v, v')
    ensures ProviderInv(false, v') && TaskInv(a, AfterTask(s, t), p, v')
  {
    SlotBeforeMark(a, s, p);
    KeepSyncMarked(false, v, v');
    var catchup := Task(Create, PeerCatchup(p, a.s));
    if Started(s, catchup) { MarkBeforeCatchup(a, s, p); assert false; }
    assert !Done(AfterTask(s, t), catchup);
  }

  lemma CatchupTask(a: Adding, s: Exec, t: Task, p: Name, v: Provider, v': Provider)
    requires AboutTo(a, s, t, p, v) && t.id == PeerCatchup(p, a.s) && CaughtUp(v, v')
    ensures ProviderInv(false, v') && TaskInv(a, AfterTask(s, t), p, v')
  {
  }

  lemma KeepDisabled(v: Provider, v': Provider)
    requires DisabledRegistered(v, v') && ProviderInv(false, v)
    ensures ProviderInv(false, v')
  {
  }

  lemma DisabledFacts(a: Adding, s: Exec, t: Task, p: Name, v: Provider, v': Provider)
    requires TaskInv(a, s, p, v) && t.action == Create && t.id.DisabledSub? && DisabledRegistered(v, v')
    ensures TaskInv(a, AfterTask(s, t), p, v')
  {
    assert v'.Streaming() == v.Streaming();
  }

  lemma DisabledSubTask(a: Adding, s: Exec, t: Task, p: Name, v: Provider, v': Provider)
    requires AboutTo(a, s, t, p, v) && t.id.DisabledSub? && DisabledRegistered(v, v')
    ensures ProviderInv(false, v') && TaskInv(a, AfterTask(s, t), p, v')
  {
    KeepDisabled(v, v');
    DisabledFacts(a, s, t, p, v, v');
  }

  lemma LagTrackerTask(a: Adding, s: Exec, t: Task, p: Name, v: Provider, v': Provider)
    requires AboutTo(a, s, t, p, v) && t.id == LagTracker(p, a.m) && LagRead(v, v')
    ensures ProviderInv(false, v') && TaskInv(a, AfterTask(s, t), p, v')
  {
    CopyBeforeLag(a, s, p);
    KeepLagRead(v, v');
    QuietTask(a, s, t, p, v, v');
  }

  lemma PeerSubTask(a: Adding, s: Exec, t: Task, p: Name, v: Provider, v': Provider)
    requires AboutTo(a, s, t, p, v) && t.id == Sub(p, a.m) && SubEnabled(v, v')
    ensures ProviderInv(false, v') && TaskInv(a, AfterTask(s, t), p, v')
  {
    BeforePeerSub(a, s, p);
    KeepSubEnabled(v, v');
    assert v.sub != v'.sub ==> (v'.slot.Some? && v'.mark == v.mark && v'.applied == v.applied);
  }

  lemma AdvanceBeforeOrigin(a: Adding, s: Exec, t: Task, p: Name)
    requires a.Valid() && ExecInv(a.Plan(), s) && t in s.st && s.st[t] == Running
    requires p in a.Peers() && Concerns(a, t, p) && t.id.SlotAdvance?
    ensures !Done(s, Task(Create, OriginAdvance(p, a.m)))
  {
    PlannedTask(a, s, t);
    if Done(s, Task(Create, OriginAdvance(p, a.m))) {
      assert Populates(a.cfg, a.m, OriginAdvance(p, a.m));
      ChainDependency(a, s, SlotAdvance(p, a.m), OriginAdvance(p, a.m));
    }
  }

  lemma ExactOrigin(a: Adding, s: Exec, t: Task, p: Name)
    requires a.Valid() && ExecInv(a.Plan(), s) && t in s.st && s.st[t] == Running
    requires p in a.Peers() && Concerns(a, t, p) && t.id.OriginAdvance?
    ensures t == Task(Create, OriginAdvance(p, a.m)) && !Done(s, t)
  {
    PlannedTask(a, s, t);
  }

  lemma AdvanceTask(a: Adding, s: Exec, t: Task, p: Name, v: Provider, v': Provider)
    requires AboutTo(a, s, t, p, v)
    requires (t.id.SlotAdvance? && SlotAdvanced(v, v')) || (t.id.OriginAdvance? && OriginAdvanced(v, v'))
             || (t.id.WaitEvent? && SyncConfirmed(v, v'))
    ensures ProviderInv(false, v') && TaskInv(a, AfterTask(s, t), p, v')
  {
    if t.id.SlotAdvance? {
      NotYetEnabled(a, s, t, p, v);
      KeepSlotAdvanced(v, v');
      AdvanceBeforeOrigin(a, s, t, p);
    }
    if t.id.OriginAdvance? { NotYetEnabled(a, s, t, p, v); ExactOrigin(a, s, t, p); KeepOriginAdvanced(v, v'); }
    QuietTask(a, s, t, p, v, v');
  }

  lemma KeepOriginAdvanced(v: Provider, v': Provider)
    requires OriginAdvanced(v, v') && ProviderInv(false, v) && !v.sub.Enabled?
    ensures ProviderInv(false, v')
  {
  }

  /** Both advances come before the subscription is enabled. */
  lemma NotYetEnabled(a: Adding, s: Exec, t: Task, p: Name, v: Provider)
    requires AboutTo(a, s, t, p, v) && (t.id.SlotAdvance? || t.id.OriginAdvance?)
    ensures !v.sub.Enabled?
  {
    SubComesAfter(a, s, t, p);
    EnabledStreams(v);
  }

  lemma EnabledStreams(v: Provider)
    requires ProviderInv(false, v)
    ensures v.sub.Enabled? ==> v.Streaming()
  {
  }

  lemma SubComesAfter(a: Adding, s: Exec, t: Task, p: Name)
    requires a.Fresh() && ExecInv(a.Plan(), s) && p in a.Peers() && Concerns(a, t, p)
    requires t in s.st && s.st[t] == Running && (t.id.SlotAdvance? || t.id.OriginAdvance?)
    ensures !Done(s, Task(Create, Sub(p, a.m)))
  {
    PlannedTask(a, s, t);
    if Done(s, Task(Create, Sub(p, a.m))) { BeforePeerSub(a, s, p); }
  }

  /** The effect of a task on the one provider it concerns. */
  ghost predicate StepOf(id: Identifier, v: Provider, v': Provider) {
    match id
    case SlotCreate(_, _) => SlotCreated(v, v')
    case SyncEvent(_, _) => SyncMarked(v, v')
    case WaitEvent(_, _) => SyncConfirmed(v, v')
    case PeerCatchup(_, _) => CaughtUp(v, v')
    case DisabledSub(_, _) => DisabledRegistered(v, v')
    case LagTracker(_, _) => LagRead(v, v')
    case SlotAdvance(_, _) => SlotAdvanced(v, v')
    case OriginAdvance(_, _) => OriginAdvanced(v, v')
    case _ => SubEnabled(v, v')
  }

  lemma PeerEffect(a: Adding, w: World, w': World, t: Task, p: Name)
    requires p in w && Concerns(a, t, p) && Effect(a, t, w, w')
    ensures OnlyAt(w, w', p) && StepOf(t.id, w[p], w'[p])
  {
  }

  lemma StepKeepsCopy(id: Identifier, v: Provider, v': Provider)
    requires StepOf(id, v, v')
    ensures v'.copy == v.copy
  {
  }

  /** A task on one peer keeps that peer's invariant and its task guarantees. */
  lemma PeerTask(a: Adding, s: Exec, t: Task, p: Name, v: Provider, v': Provider)
    requires AboutTo(a, s, t, p, v) && StepOf(t.id, v, v')
    ensures ProviderInv(false, v') && TaskInv(a, AfterTask(s, t), p, v')
  {
    ExactPair(a, s, t, p);
    match t.id
    case SlotCreate(_, _) => SlotCreateTask(a, s, t, p, v, v');
    case SyncEvent(_, _) => SyncEventTask(a, s, t, p, v, v');
    case PeerCatchup(_, _) => CatchupTask(a, s, t, p, v, v');
    case DisabledSub(_, _) => DisabledSubTask(a, s, t, p, v, v');
    case LagTracker(_, _) => LagTrackerTask(a, s, t, p, v, v');
    case Sub(_, _) => PeerSubTask(a, s, t, p, v, v');
    case _ => AdvanceTask(a, s, t, p, v, v');
  }

  /** The other name in a planned identifier is the one the chain gives it. */
  lemma ExactPair(a: Adding, s: Exec, t: Task, p: Name)
    requires a.Valid() && ExecInv(a.Plan(), s) && t in s.st && p in a.Peers() && Concerns(a, t, p)
    ensures t.id.SyncEvent? ==> t.id == SyncEvent(p, a.s)
    ensures t.id.PeerCatchup? ==> t.id == PeerCatchup(p, a.s)
    ensures t.id.LagTracker? ==> t.id == LagTracker(p, a.m)
    ensures t.id.Sub? ==> t.id == Sub(p, a.m)
  {
    PlannedTask(a, s, t);
  }

  /** t turns x→source on or off. */
  ghost predicate Feeds(a: Adding, t: Task, x: Name) {
    t.id == Sub(x, a.s)
  }

  /** t drops a broken subscription x→m. */
  ghost predicate Drops(a: Adding, t: Task, x: Name) {
    t == Task(Delete, Sub(x, a.m))
  }

  /** Only the completion of a task can change what TaskInv asks of a provider. */
  lemma TaskInvElsewhere(a: Adding, s: Exec, s': Exec, p: Name, v: Provider, v': Provider)
    requires TaskInv(a, s, p, v)
    requires v'.slot.Some? == v.slot.Some? && v'.mark == v.mark && v'.applied >= v.applied && v'.sub == v.sub
    requires v.sub.Enabled? || v'.origin == v.origin
    requires v'.advanced == v.advanced
    requires forall id | id in {SlotCreate(p, a.m), SyncEvent(p, a.s), PeerCatchup(p, a.s), DisabledSub(p, a.m),
                                OriginAdvance(p, a.m), Sub(p, a.m)}
               :: Done(s', Task(Create, id)) <==> Done(s, Task(Create, id))
    requires Pending(a, s', p) <==> Pending(a, s, p)
    ensures TaskInv(a, s', p, v')
  {
  }

  lemma OtherTask(a: Adding, s: Exec, t: Task, q: Name, v: Provider)
    requires TaskInv(a, s, q, v) && !Concerns(a, t, q) && !Feeds(a, t, q) && !Drops(a, t, q) && q != a.s
    ensures TaskInv(a, AfterTask(s, t), q, v)
  {
  }

  lemma ExecKept(a: Adding, s: Exec, s': Exec, step: ExecStep)
    requires a.Valid() && ExecInv(a.Plan(), s) && ExecNext(a.Plan(), s, s', step)
    ensures ExecInv(a.Plan(), s')
  {
    PlanIsPartition(a.deps, a.deletes, a.updates, a.creates);
    NextInv(a.Plan(), s, s', step);
  }

  /** A task that changes provider x alone, or none. */
  lemma OneProviderKeeps(a: Adding, s: Exec, w: World, w': World, t: Task, x: Name)
    requires Guarantees(a, s, w) && OnlyAt(w, w', x) && w'[x].copy == w[x].copy
    requires if Pending(a, AfterTask(s, t), x) then Broken(x == a.s, w'[x]) else ProviderInv(x == a.s, w'[x])
    requires x != a.s ==> TaskInv(a, AfterTask(s, t), x, w'[x])
    requires forall q | q in a.Peers() && q != x :: !Concerns(a, t, q) && !Feeds(a, t, q)
    requires forall q | q in w && q != x :: !Drops(a, t, q)
    requires t != Task(Create, Sub(a.s, a.m))
    ensures Guarantees(a, AfterTask(s, t), w')
  {
    forall q | q in a.Peers() ensures TaskInv(a, AfterTask(s, t), q, w'[q]) {
      if q != x { OtherTask(a, s, t, q, w[q]); }
    }
  }

  lemma PeerTaskKeepsSys(a: Adding, z: Sys, z': Sys, t: Task, p: Name)
    requires a.Fresh() && SysInv(a, z) && ExecPart(a, z, z', Succeed(t)) && Concerns(a, t, p) && p in a.Peers()
    ensures SysInv(a, z')
  {
    ExecKept(a, z.exec, z'.exec, Succeed(t));
    PeerIsAbout(a, z.exec, z.world, t, p);
    PeerEffect(a, z.world, z'.world, t, p);
    StepKeepsCopy(t.id, z.world[p], z'.world[p]);
    PeerTask(a, z.exec, t, p, z.world[p], z'.world[p]);
    OneProviderKeeps(a, z.exec, z.world, z'.world, t, p);
  }

  lemma PeerIsAbout(a: Adding, s: Exec, w: World, t: Task, p: Name)
    requires a.Fresh() && ExecInv(a.Plan(), s) && Guarantees(a, s, w) && p in a.Peers() && Concerns(a, t, p)
    requires t in s.st && s.st[t] == Running
    ensures p in w && AboutTo(a, s, t, p, w[p])
  {
    CreatesComeLast(a, s, t, Sub(p, a.m));
    assert TaskInv(a, s, p, w[p]) && ProviderInv(false, w[p]);
    assert a.s in w ==> (w[a.s].copy.Some? <==> w[p].copy.Some?);
  }

  lemma FeedShape(action: Action, v: Provider, v': Provider)
    requires FeedMoved(action, v, v')
    ensures v' == v.(toSource := v'.toSource, feed := v'.feed, missed := v'.missed) && (FeedInv(v) ==> FeedInv(v'))
  {
  }

  /** Neither the slot for m nor the subscription into m is touched. */
  lemma FeedOnly(v: Provider, v': Provider)
    requires v' == v.(toSource := v'.toSource, feed := v'.feed, missed := v'.missed) && (FeedInv(v) ==> FeedInv(v'))
    ensures ProviderInv(false, v) ==> ProviderInv(false, v')
    ensures Broken(false, v) ==> Broken(false, v')
  {
  }

  /** A subscription into the source is created, enabled or dropped. */
  lemma FeedFacts(a: Adding, s: Exec, t: Task, p: Name, v: Provider, v': Provider)
    requires a.m != a.s && p != a.s && Feeds(a, t, p) && FeedMoved(t.action, v, v') && TaskInv(a, s, p, v)
    ensures TaskInv(a, AfterTask(s, t), p, v')
  {
    FeedShape(t.action, v, v');
    TaskInvElsewhere(a, s, AfterTask(s, t), p, v, v');
  }

  /** A peer's subscription into the source, if it has to be made, is made before the peer's sync event. */
  lemma FeedBeforeMark(a: Adding, s: Exec, p: Name)
    requires a.Valid() && ExecInv(a.Plan(), s) && p in a.Peers() && Started(s, Task(Create, SyncEvent(p, a.s)))
    ensures Sub(p, a.s) in a.creates ==> Done(s, Task(Create, Sub(p, a.s)))
    ensures Sub(p, a.s) in a.updates ==> Done(s, Task(Update, Sub(p, a.s)))
  {
    assert Populates(a.cfg, a.m, SyncEvent(p, a.s));
    OnlyChainDeps(a.cfg, a.desired, a.m, a.s, SyncEvent(p, a.s));
    if Sub(p, a.s) in a.creates { AfterDependency(a, s, Sub(p, a.s), SyncEvent(p, a.s)); }
    CreatesComeLast(a, s, Task(Create, SyncEvent(p, a.s)), Sub(p, a.s));
  }

  /** The subscription into the source is not created any more once the sync event has been written. */
  lemma FeedOrder(a: Adding, s: Exec, t: Task, p: Name)
    requires a.Valid() && ExecInv(a.Plan(), s) && p in a.Peers() && Feeds(a, t, p)
    requires t in s.st && s.st[t] == Running && t.action == Create
    ensures !Done(s, Task(Create, SyncEvent(p, a.s)))
  {
    PlannedTask(a, s, t);
    if Done(s, Task(Create, SyncEvent(p, a.s))) { FeedBeforeMark(a, s, p); }
  }

  lemma FeedTaskKeepsSys(a: Adding, z: Sys, z': Sys, t: Task, p: Name)
    requires a.Fresh() && SysInv(a, z) && ExecPart(a, z, z', Succeed(t)) && Feeds(a, t, p) && p in a.Peers()
    ensures SysInv(a, z')
  {
    ExecKept(a, z.exec, z'.exec, Succeed(t));
    FeedOrDrop(a, t, z.world, z'.world, p);
    FeedKeepsGuarantees(a, z.exec, t, p, z.world, z'.world);
  }

  lemma FeedKeepsGuarantees(a: Adding, s: Exec, t: Task, p: Name, w: World, w': World)
    requires a.m != a.s && Guarantees(a, s, w) && p in a.Peers() && Feeds(a, t, p)
    requires OnlyAt(w, w', p) && FeedMoved(t.action, w[p], w'[p])
    ensures Guarantees(a, AfterTask(s, t), w')
  {
    FeedsOne(a, t, p);
    FeedKeepsWorld(a, s, t, p, w, w');
    forall q | q in a.Peers() ensures TaskInv(a, AfterTask(s, t), q, w'[q]) {
      assert TaskInv(a, s, q, w[q]);
      if q == p { FeedFacts(a, s, t, p, w[p], w'[p]); } else { OtherTask(a, s, t, q, w[q]); }
    }
  }

  lemma FeedKeepsWorld(a: Adding, s: Exec, t: Task, p: Name, w: World, w': World)
    requires a.m != a.s && WorldInv(a, s, w) && p in a.Peers() && Feeds(a, t, p)
    requires OnlyAt(w, w', p) && FeedMoved(t.action, w[p], w'[p])
    ensures WorldInv(a, AfterTask(s, t), w')
  {
    FeedShape(t.action, w[p], w'[p]);
    FeedOnly(w[p], w'[p]);
    assert forall x :: Pending(a, AfterTask(s, t), x) <==> Pending(a, s, x);
  }

  lemma FeedsOne(a: Adding, t: Task, p: Name)
    requires a.m != a.s && Feeds(a, t, p)
    ensures forall q | q in a.Peers() && q != p :: !Concerns(a, t, q) && !Feeds(a, t, q)
    ensures (forall q :: !Drops(a, t, q)) && t != Task(Create, Sub(a.s, a.m))
  {
  }

  /** A broken subscription into m is dropped: the provider is as good as new. */
  lemma DropTask(a: Adding, s: Exec, t: Task, x: Name, v: Provider, v': Provider)
    requires a.Fresh() && ExecInv(a.Plan(), s) && x in a.Providers() && Drops(a, t, x)
    requires t in s.st && s.st[t] == Running && SubDropped(v, v') && Broken(x == a.s, v)
    requires x != a.s ==> TaskInv(a, s, x, v)
    ensures ProviderInv(x == a.s, v') && (x != a.s ==> TaskInv(a, AfterTask(s, t), x, v'))
  {
    PlannedTask(a, s, t);
    forall id ensures !Started(s, Task(Create, id)) {
      DeletesComeFirst(a, s, t, id);
    }
  }

  lemma DropTaskKeepsSys(a: Adding, z: Sys, z': Sys, t: Task, x: Name)
    requires a.Fresh() && SysInv(a, z) && ExecPart(a, z, z', Succeed(t)) && Drops(a, t, x) && x in a.Providers()
    ensures SysInv(a, z')
  {
    ExecKept(a, z.exec, z'.exec, Succeed(t));
    PlannedTask(a, z.exec, t);
    assert Pending(a, z.exec, x);
    DropTask(a, z.exec, t, x, z.world[x], z'.world[x]);
    OneProviderKeeps(a, z.exec, z.world, z'.world, t, x);
  }

  /** The source's own event and wait, and everything that does not touch a provider of m. */
  ghost predicate Elsewhere(a: Adding, t: Task) {
    && (forall p | p in a.Peers() :: !Concerns(a, t, p) && !Feeds(a, t, p))
    && (forall x | x in a.Providers() :: !Drops(a, t, x))
    && t != Task(Create, Sub(a.s, a.m))
  }

  ghost predicate OnlySource(a: Adding, s: Exec, w: World, w': World) {
    || w' == w
    || (OnlyAt(w, w', a.s) && w'[a.s].copy == w[a.s].copy && !Pending(a, s, a.s) && ProviderInv(true, w'[a.s]))
  }

  lemma ElsewhereEffect(a: Adding, z: Sys, z': Sys, t: Task)
    requires a.Fresh() && SysInv(a, z) && ExecPart(a, z, z', Succeed(t)) && Elsewhere(a, t)
    ensures OnlySource(a, z.exec, z.world, z'.world)
  {
    PlannedTask(a, z.exec, t);
    if t.action == Create && t.id.Ephemeral() {
      var p := ProviderOf(t.id);
      if p == a.s { SourceEvent(a, z, z', t); } else { assert p in a.Peers() && Concerns(a, t, p); }
    } else if t.id.Sub? {
      SubElsewhere(a, z.exec, z.world, z'.world, t);
    }
  }

  lemma SubElsewhere(a: Adding, s: Exec, w: World, w': World, t: Task)
    requires a.Fresh() && Guarantees(a, s, w) && Effect(a, t, w, w') && Elsewhere(a, t) && t.id.Sub?
    requires t.id in TargetsOf(t.action, a.deletes, a.updates, a.creates)
    requires t.action == Create ==> InMesh(NamesOf(a.cfg), t.id)
    ensures OnlySource(a, s, w, w')
  {
    NotIntoNew(a, t);
    NotIntoSource(a, t);
    assert w' == w;
  }

  /** Subscriptions into m are only dropped, when broken, and created. */
  lemma NotIntoNew(a: Adding, t: Task)
    requires a.Fresh() && Elsewhere(a, t) && t.id.Sub? && t.id in TargetsOf(t.action, a.deletes, a.updates, a.creates)
    requires t.action == Create ==> InMesh(NamesOf(a.cfg), t.id)
    ensures t.id.dst == a.m ==> t.id.src !in a.Providers() && t.action != Create
  {
    if t.id.dst == a.m {
      IntoNew(a, t);
    }
  }

  lemma IntoNew(a: Adding, t: Task)
    requires a.Fresh() && t.id.Sub? && t.id.dst == a.m && t.id in TargetsOf(t.action, a.deletes, a.updates, a.creates)
    requires t.action == Create ==> InMesh(NamesOf(a.cfg), t.id)
    ensures t.id.src in a.Providers() ==>
              || t == Task(Create, Sub(a.s, a.m)) || Drops(a, t, t.id.src)
              || (t.id.src in a.Peers() && Concerns(a, t, t.id.src))
    ensures t.action == Create ==> t.id.src in a.Providers()
  {
    NewIsConfigured(a.cfg, a.m);
    assert t.id == Sub(t.id.src, a.m);
  }

  lemma NotIntoSource(a: Adding, t: Task)
    requires a.Fresh() && Elsewhere(a, t) && t.id.Sub? && t.id in TargetsOf(t.action, a.deletes, a.updates, a.creates)
    ensures t.id.dst == a.s ==> t.id.src !in a.Providers()
  {
    NoSelfSub(a);
    if t.id.dst == a.s && t.id.src in a.Peers() {
      assert Feeds(a, t, t.id.src);
    }
  }

  /** The source's own event and its wait. */
  lemma SourceEvent(a: Adding, z: Sys, z': Sys, t: Task)
    requires a.Fresh() && SysInv(a, z) && ExecPart(a, z, z', Succeed(t))
    requires t.action == Create && t.id.Ephemeral() && ProviderOf(t.id) == a.s && Populates(a.cfg, a.m, t.id)
    ensures OnlyAt(z.world, z'.world, a.s) && z'.world[a.s].copy == z.world[a.s].copy && !Pending(a, z.exec, a.s)
    ensures ProviderInv(true, z'.world[a.s])
  {
    CreatesComeLast(a, z.exec, t, Sub(a.s, a.m));
    assert ProviderInv(true, z.world[a.s]);
    if t.id.SyncEvent? { KeepSyncMarked(true, z.world[a.s], z'.world[a.s]); }
  }

  /** No subscription leads from the source to itself. */
  lemma NoSelfSub(a: Adding)
    requires a.Valid()
    ensures Sub(a.s, a.s) !in a.creates && Sub(a.s, a.s) !in a.deletes && Sub(a.s, a.s) !in a.updates
  {
    assert InDesired(a.cfg, Sub(a.s, a.s)) <==> Sub(a.s, a.s) in a.desired;
  }

  function ProviderOf(id: Identifier): Name
    requires id.Ephemeral()
  {
    match id
    case SlotCreate(p, _) => p
    case DisabledSub(p, _) => p
    case SyncEvent(p, _) => p
    case WaitEvent(p, _) => p
    case PeerCatchup(p, _) => p
    case LagTracker(p, _) => p
    case SlotAdvance(p, _) => p
    case OriginAdvance(p, _) => p
  }

  lemma ElsewhereKeepsSys(a: Adding, z: Sys, z': Sys, t: Task)
    requires a.Fresh() && SysInv(a, z) && ExecPart(a, z, z', Succeed(t)) && Elsewhere(a, t)
    ensures SysInv(a, z')
  {
    ExecKept(a, z.exec, z'.exec, Succeed(t));
    ElsewhereEffect(a, z, z', t);
    if z'.world == z.world {
      assert OnlyAt(z.world, z'.world, a.s);
    }
    OneProviderKeeps(a, z.exec, z.world, z'.world, t, a.s);
  }

  lemma CopyKeepsProviders(a: Adding, s: Exec, w: World, w': World, x: Name)
    requires a.Fresh() && Guarantees(a, s, w) && CopyMade(w, w', a.s) && x in w && !Pending(a, s, x)
             && !Pending(a, s, a.s)
    requires x != a.s ==> w[x].mark.Some? && w[x].applied >= w[x].mark.value
    ensures ProviderInv(x == a.s, w'[x]) && w'[x].copy.Some?
    ensures x != a.s ==> w'[x] == w[x].(copy := w'[x].copy)
  {
    assert ProviderInv(true, w[a.s]) && ProviderInv(x == a.s, w[x]);
    assert w[x].copy.Some? <==> w[a.s].copy.Some?;
    if w[a.s].sub == Absent && x != a.s { KeepPeerCopied(w[x], w'[x]); }
  }

  lemma CopyKeepsSys(a: Adding, z: Sys, z': Sys)
    requires a.Fresh() && SysInv(a, z) && ExecPart(a, z, z', Succeed(Task(Create, Sub(a.s, a.m))))
    ensures SysInv(a, z')
  {
    var t := Task(Create, Sub(a.s, a.m));
    ExecKept(a, z.exec, z'.exec, Succeed(t));
    forall x | x in z.world
      ensures !Pending(a, z.exec, x)
      ensures x != a.s ==> z.world[x].mark.Some? && z.world[x].applied >= z.world[x].mark.value
    {
      CreatesComeLast(a, z.exec, t, Sub(x, a.m));
      if x != a.s {
        CatchupBeforeCopy(a, z.exec, x);
        assert TaskInv(a, z.exec, x, z.world[x]);
      }
    }
    CopyKeepsGuarantees(a, z.exec, z.world, z'.world);
  }

  lemma CopyKeepsGuarantees(a: Adding, s: Exec, w: World, w': World)
    requires a.Fresh() && Guarantees(a, s, w) && CopyMade(w, w', a.s)
    requires forall x | x in w ::
               !Pending(a, s, x) && (x != a.s ==> w[x].mark.Some? && w[x].applied >= w[x].mark.value)
    ensures Guarantees(a, AfterTask(s, Task(Create, Sub(a.s, a.m))), w')
  {
    var s' := AfterTask(s, Task(Create, Sub(a.s, a.m)));
    forall x | x in w'
      ensures ProviderInv(x == a.s, w'[x]) && w'[x].copy.Some? && !Pending(a, s', x)
      ensures x != a.s ==> TaskInv(a, s', x, w'[x])
    {
      CopyKeepsProviders(a, s, w, w', x);
      if x != a.s {
        assert TaskInv(a, s, x, w[x]);
        CopyKeepsTask(a, s, x, w[x], w'[x]);
      }
    }
  }

  lemma CopyKeepsTask(a: Adding, s: Exec, x: Name, v: Provider, v': Provider)
    requires TaskInv(a, s, x, v) && x != a.s && v' == v.(copy := v'.copy)
    ensures TaskInv(a, AfterTask(s, Task(Create, Sub(a.s, a.m))), x, v')
  {
  }

  /** Beginning, failing, moving to the next phase and aborting complete no task. */
  lemma ControlKeepsSys(a: Adding, z: Sys, z': Sys, step: ExecStep)
    requires a.Valid() && SysInv(a, z) && ExecPart(a, z, z', step) && !step.Succeed?
    ensures SysInv(a, z')
  {
    ExecKept(a, z.exec, z'.exec, step);
    forall t ensures Done(z'.exec, t) <==> Done(z.exec, t) {}
    SameDone(a, z.exec, z'.exec, z.world);
  }

  lemma SameDone(a: Adding, s: Exec, s': Exec, w: World)
    requires Guarantees(a, s, w) && forall t :: Done(s', t) <==> Done(s, t)
    ensures Guarantees(a, s', w)
  {
    forall q | q in a.Peers() ensures TaskInv(a, s', q, w[q]) {
      assert TaskInv(a, s, q, w[q]);
      TaskInvElsewhere(a, s, s', q, w[q], w[q]);
    }
  }

  lemma EnvKeepsProvider(a: Adding, s: Exec, x: Name, v: Provider, v': Provider, e: EnvStep)
    requires (if Pending(a, s, x) then Broken(x == a.s, v) else ProviderInv(x == a.s, v)) && EnvMove(v, v', e)
    ensures if Pending(a, s, x) then Broken(x == a.s, v') else ProviderInv(x == a.s, v')
    ensures v'.copy == v.copy && (x != a.s && TaskInv(a, s, x, v) ==> TaskInv(a, s, x, v'))
  {
    if Pending(a, s, x) { KeepBroken(x == a.s, v, v', e); } else { KeepEnv(x == a.s, v, v', e); }
    if x != a.s && TaskInv(a, s, x, v) { TaskInvElsewhere(a, s, s, x, v, v'); }
  }

  lemma EnvKeepsGuarantees(a: Adding, s: Exec, w: World, w': World, x: Name, e: EnvStep)
    requires Guarantees(a, s, w) && OnlyAt(w, w', x) && EnvMove(w[x], w'[x], e)
    ensures Guarantees(a, s, w')
  {
    EnvKeepsProvider(a, s, x, w[x], w'[x], e);
    forall q | q in a.Peers() ensures TaskInv(a, s, q, w'[q]) {
      assert TaskInv(a, s, q, w[q]);
    }
  }

  lemma EnvKeepsSys(a: Adding, z: Sys, z': Sys, x: Name, e: EnvStep)
    requires SysInv(a, z) && EnvPart(z, z', x, e)
    ensures SysInv(a, z')
  {
    EnvKeepsGuarantees(a, z.exec, z.world, z'.world, x, e);
  }

  lemma SuccessKeepsSys(a: Adding, z: Sys, z': Sys, t: Task)
    requires a.Fresh() && SysInv(a, z) && ExecPart(a, z, z', Succeed(t))
    ensures SysInv(a, z')
  {
    if t == Task(Create, Sub(a.s, a.m)) {
      CopyKeepsSys(a, z, z');
    } else if p :| p in a.Peers() && Concerns(a, t, p) {
      PeerTaskKeepsSys(a, z, z', t, p);
    } else if p :| p in a.Peers() && Feeds(a, t, p) {
      FeedTaskKeepsSys(a, z, z', t, p);
    } else if x :| x in a.Providers() && Drops(a, t, x) {
      DropTaskKeepsSys(a, z, z', t, x);
    } else {
      ElsewhereKeepsSys(a, z, z', t);
    }
  }

  lemma NextKeepsSys(a: Adding, z: Sys, z': Sys)
    requires a.Fresh() && SysInv(a, z) && SysNext(a, z, z')
    ensures SysInv(a, z')
  {
    if x, e :| EnvPart(z, z', x, e) {
      EnvKeepsSys(a, z, z', x, e);
    } else {
      var step :| ExecPart(a, z, z', step);
      if step.Succeed? { SuccessKeepsSys(a, z, z', step.t); } else { ControlKeepsSys(a, z, z', step); }
    }
  }

  lemma InitProvider(a: Adding, s: Exec, x: Name, v: Provider)
    requires a.Fresh() && ExecInit(a.Plan(), s) && x in a.Providers() && ProviderInit(a, x, v)
    ensures if Pending(a, s, x) then Broken(x == a.s, v) else ProviderInv(x == a.s, v)
    ensures x != a.s ==> TaskInv(a, s, x, v)
  {
    NothingDone(a, s);
    FreshFacts(a, x);
    InitValues(a, x, v);
    if x != a.s { InitTasks(a, s, x, v); }
  }

  lemma NothingDone(a: Adding, s: Exec)
    requires ExecInit(a.Plan(), s)
    ensures forall t :: !Done(s, t)
  {
  }

  lemma FreshFacts(a: Adding, x: Name)
    requires a.Fresh() && x in a.Providers()
    ensures !a.copied && Sub(x, a.m) in a.creates && (Sub(x, a.m) in a.deletes ==> x !in a.slots)
  {
    assert a.s in a.Providers() && a.Fits(a.slots, x, a.m);
  }

  lemma InitValues(a: Adding, x: Name, v: Provider)
    requires ProviderInit(a, x, v) && !a.copied && Sub(x, a.m) in a.creates
    requires Sub(x, a.m) in a.deletes ==> x !in a.slots
    ensures if Sub(x, a.m) in a.deletes then Broken(x == a.s, v) else ProviderInv(x == a.s, v)
  {
  }

  lemma InitTasks(a: Adding, s: Exec, x: Name, v: Provider)
    requires ProviderInit(a, x, v) && !a.copied && Sub(x, a.m) in a.creates && x != a.s
    requires (Sub(x, a.m) in a.deletes ==> x !in a.slots) && forall t :: !Done(s, t)
    ensures TaskInv(a, s, x, v)
  {
  }

  lemma InitSys(a: Adding, z: Sys)
    requires a.Fresh() && SysInit(a, z)
    ensures SysInv(a, z)
  {
    InitInv(a.Plan(), z.exec);
    forall x | x in z.world
      ensures if Pending(a, z.exec, x) then Broken(x == a.s, z.world[x]) else ProviderInv(x == a.s, z.world[x])
      ensures x != a.s ==> TaskInv(a, z.exec, x, z.world[x])
      ensures z.world[x].copy == None
    {
      InitProvider(a, z.exec, x, z.world[x]);
    }
    assert !Done(z.exec, Task(Create, Sub(a.s, a.m)));
  }

  lemma {:induction false} HistoryInv(a: Adding, run: seq<Sys>, i: nat)
    requires a.Fresh() && IsHistory(a, run) && i < |run|
    ensures SysInv(a, run[i])
  {
    if i == 0 {
      InitSys(a, run[0]);
    } else {
      HistoryInv(a, run, i - 1);
      NextKeepsSys(a, run[i - 1], run[i]);
    }
  }

  lemma ExecStepKept(a: Adding, z: Sys, z': Sys)
    requires a.Valid() && ExecInv(a.Plan(), z.exec) && SysNext(a, z, z')
    ensures ExecInv(a.Plan(), z'.exec) && z'.world.Keys == z.world.Keys
  {
    if x, e :| EnvPart(z, z', x, e) {
    } else {
      var step :| ExecPart(a, z, z', step);
      ExecKept(a, z.exec, z'.exec, step);
      if step.Succeed? { SameProviders(a, step.t, z.world, z'.world); }
    }
  }

  lemma SameProviders(a: Adding, t: Task, w: World, w': World)
    requires Effect(a, t, w, w')
    ensures w'.Keys == w.Keys
  {
  }

  /** The executor's own invariant needs no assumption on what m was left with. */
  lemma {:induction false} ExecHistory(a: Adding, run: seq<Sys>, h: nat)
    requires a.Valid() && IsHistory(a, run) && h < |run|
    ensures ExecInv(a.Plan(), run[h].exec) && run[h].world.Keys == a.Providers()
  {
    if h == 0 {
      InitInv(a.Plan(), run[0].exec);
    } else {
      var g := h - 1;
      ExecHistory(a, run, g);
      assert run[g + 1] == run[h] && SysNext(a, run[h - 1], run[h]);
      ExecStepKept(a, run[g], run[h]);
    }
  }

  lemma NextAt(a: Adding, run: seq<Sys>, i: nat)
    requires IsHistory(a, run) && 0 < i < |run|
    ensures SysNext(a, run[i - 1], run[i])
  {
  }

  lemma StepAt(a: Adding, run: seq<Sys>, h: nat) returns (z: Sys, z': Sys)
    requires a.Fresh() && IsHistory(a, run) && h + 1 < |run|
    ensures z == run[h] && z' == run[h + 1] && SysInv(a, z) && SysNext(a, z, z')
  {
    HistoryInv(a, run, h);
    NextAt(a, run, h + 1);
    z, z' := run[h], run[h + 1];
  }

  // ---------------------------------------------------------------------------------------
  // What a step can do to one peer
  // ---------------------------------------------------------------------------------------

  datatype Cause =
    | ByCluster(e: EnvStep)  // a move of the rest of the cluster on the peer
    | ByTask(t: Task)        // one of the chain's tasks on the peer, or its subscription into m
    | ByFeed(t: Task)        // its subscription into the source
    | ByCopy                 // the COPY
    | ByDrop(t: Task)        // its broken subscription into m is dropped
    | Elsewhere_             // something that leaves it alone

  /** t has just returned success. */
  ghost predicate Ended(z: Sys, z': Sys, t: Task) {
    t in z.exec.st && z.exec.st[t] == Running && z'.exec == AfterTask(z.exec, t)
  }

  ghost predicate Caused(a: Adding, z: Sys, z': Sys, p: Name, v: Provider, v': Provider, c: Cause) {
    match c
    case ByCluster(e) => z'.exec == z.exec && EnvMove(v, v', e)
    case ByTask(t) => Ended(z, z', t) && AboutTo(a, z.exec, t, p, v) && StepOf(t.id, v, v')
    case ByFeed(t) => Ended(z, z', t) && Feeds(a, t, p) && FeedMoved(t.action, v, v')
    case ByCopy => Ended(z, z', Task(Create, Sub(a.s, a.m))) && v' == v.(copy := v'.copy)
    case ByDrop(t) => Ended(z, z', t) && Drops(a, t, p) && SubDropped(v, v')
    case Elsewhere_ => v' == v
  }

  lemma Untouched(a: Adding, t: Task, w: World, w': World, p: Name)
    requires p in w && p in a.Peers() && Effect(a, t, w, w')
    requires !Concerns(a, t, p) && !Feeds(a, t, p) && !Drops(a, t, p)
    requires t != Task(Create, Sub(a.s, a.m)) && t != Task(Update, Sub(p, a.m))
    ensures p in w' && w'[p] == w[p]
  {
  }

  lemma CopyAt(a: Adding, s: Exec, w: World, w': World, p: Name)
    requires Guarantees(a, s, w) && !Pending(a, s, a.s) && a.s in w && p in w && p != a.s && CopyMade(w, w', a.s)
    ensures p in w' && w'[p] == w[p].(copy := w'[p].copy)
  {
    assert ProviderInv(true, w[a.s]);
  }

  lemma FeedOrDrop(a: Adding, t: Task, w: World, w': World, p: Name)
    requires p in w && a.m != a.s && Effect(a, t, w, w')
    ensures Feeds(a, t, p) && p != a.s ==> OnlyAt(w, w', p) && FeedMoved(t.action, w[p], w'[p])
    ensures Drops(a, t, p) ==> p in w' && SubDropped(w[p], w'[p])
  {
  }

  lemma TaskCause(a: Adding, z: Sys, z': Sys, p: Name, t: Task) returns (c: Cause)
    requires a.Fresh() && SysInv(a, z) && ExecPart(a, z, z', Succeed(t)) && p in a.Peers()
    ensures p in z.world && p in z'.world && Caused(a, z, z', p, z.world[p], z'.world[p], c)
  {
    PlannedTask(a, z.exec, t);
    if Concerns(a, t, p) {
      PeerIsAbout(a, z.exec, z.world, t, p);
      PeerEffect(a, z.world, z'.world, t, p);
      c := ByTask(t);
    } else if Feeds(a, t, p) {
      FeedOrDrop(a, t, z.world, z'.world, p);
      c := ByFeed(t);
    } else if Drops(a, t, p) {
      FeedOrDrop(a, t, z.world, z'.world, p);
      c := ByDrop(t);
    } else if t == Task(Create, Sub(a.s, a.m)) {
      CreatesComeLast(a, z.exec, t, Sub(a.s, a.m));
      CopyAt(a, z.exec, z.world, z'.world, p);
      c := ByCopy;
    } else {
      Untouched(a, t, z.world, z'.world, p);
      c := Elsewhere_;
    }
  }

  lemma CauseOf(a: Adding, z: Sys, z': Sys, p: Name) returns (c: Cause)
    requires a.Fresh() && SysInv(a, z) && SysNext(a, z, z') && p in a.Peers()
    ensures p in z.world && p in z'.world && Caused(a, z, z', p, z.world[p], z'.world[p], c)
  {
    c := Elsewhere_;
    if x, e :| EnvPart(z, z', x, e) {
      if x == p { c := ByCluster(e); }
    } else {
      var step :| ExecPart(a, z, z', step);
      if step.Succeed? { c := TaskCause(a, z, z', p, step.t); }
    }
  }

  lemma StaysDone(a: Adding, z: Sys, z': Sys, t: Task)
    requires SysNext(a, z, z') && Done(z.exec, t)
    ensures Done(z'.exec, t)
  {
    if x, e :| EnvPart(z, z', x, e) {
    } else {
      var step :| ExecPart(a, z, z', step);
    }
  }
}
