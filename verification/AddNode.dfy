/**
 Adding a node while every existing node keeps taking writes: Execute over the populate chain,
 interleaved with foreign commits, apply progress on the source, and delivery to the new node.

 LSNs are naturals; the k-th record of a provider's WAL is a transaction if k is among its
 commits, and otherwise a sync event.  The bodies of the Create methods appear as the effect of
 the step that completes them; module PopulateSteps proves that the bodies have these effects.
 */
module AddNode {
  import opened Resources
  import opened Layering
  import opened Planning
  import opened Executor
  import opened Desired
  import opened DesiredOrder

  // ---------------------------------------------------------------------------------------
  // State
  // ---------------------------------------------------------------------------------------

  datatype SlotPos = SlotPos(restart: nat, flushed: nat)

  datatype SubState = Absent | Disabled | Enabled(start: nat)

  /** The records after a, up to b. */
  function Span(a: nat, b: nat): (r: set<nat>)
    ensures forall k :: k in r <==> a < k <= b
  {
    if b <= a then {} else Span(a, b - 1) + {b}
  }

  /** Everything about replication from one existing node x into the new node m, and into the source. */
  datatype Provider = Provider(
    wal: nat,                 // end of x's WAL
    commits: set<nat>,        // which of its records are transactions
    applied: nat,             // how far the source has applied it (spock.progress.remote_lsn)
    toSource: bool,           // x→source is enabled
    feed: Option<nat>,        // x's slot for the source: the record the stream is at, None without a slot
    missed: set<nat>,         // records the source never gets, since a new slot began after them
    slot: Option<SlotPos>,    // x's slot for m
    sub: SubState,            // the subscription x→m on m
    active: bool,             // a worker of x→m holds the slot
    copy: Option<nat>,        // how far into x's WAL the COPY behind the present source→m reached
    origin: nat,              // pg_replication_origin of x on m, where the stream goes on
    streamed: set<nat>,       // records of x that x→m has delivered
    again: set<nat>,          // those delivered more than once
    mark: Option<nat>,        // SyncEvent.LSN of x
    target: Option<nat>,      // LSN of LagTracker.CommitTS, None without a timestamp
    advanced: Option<nat>)    // SlotAdvance.AdvancedToLSN, None when skipped
  {
    predicate Streaming() {
      sub.Enabled? && slot.Some?
    }

    /** The stream goes on after both the slot's confirmed position and the subscriber's origin. */
    function Position(): nat {
      Max(if slot.Some? then slot.value.flushed else 0, origin)
    }

    /** m holds record k from the COPY. */
    predicate Copied(k: nat) {
      copy.Some? && k <= copy.value && k !in missed
    }

    /** Between the end of the COPY and t nothing has been left out. */
    ghost predicate CoveredTo(t: nat)
      requires copy.Some?
    {
      forall k | copy.value < k <= t :: k in streamed
    }
  }

  type World = map<Name, Provider>

  function Max(a: nat, b: nat): nat {
    if a < b then b else a
  }

  // ---------------------------------------------------------------------------------------
  // Step contracts of the Create bodies, on the provider they concern
  // ---------------------------------------------------------------------------------------

  /** Idempotent creation: a new slot starts at the provider's current WAL position. */
  predicate SlotCreated(v: Provider, v': Provider) {
    if v.slot.Some? then v' == v
    else
      && v'.slot.Some? && v'.slot.value.restart <= v'.slot.value.flushed == v.wal
      && v' == v.(slot := v'.slot)
  }

  /** A WAL bookmark: the mark is a new record, past everything committed before. */
  predicate SyncMarked(v: Provider, v': Provider) {
    && v'.mark.Some? && v'.mark.value > v.wal
    && v' == v.(wal := v'.mark.value, mark := v'.mark)
  }

  /** Succeeds only with an LSN to wait for. */
  predicate SyncConfirmed(v: Provider, v': Provider) {
    v.mark.Some? && v' == v
  }

  predicate CaughtUp(v: Provider, v': Provider) {
    v.mark.Some? && v.applied >= v.mark.value && v' == v
  }

  predicate DisabledRegistered(v: Provider, v': Provider) {
    v' == if v.sub == Absent then v.(sub := Disabled) else v
  }

  /** The lag tracker reports a transaction that m has, and m gets them in order. */
  ghost predicate LagRead(v: Provider, v': Provider) {
    && (v'.target.Some? && v.copy.Some? ==> v.CoveredTo(v'.target.value))
    && v' == v.(target := v'.target)
  }

  /** Without a target, on an active slot, or at or behind restart_lsn, nothing is advanced. */
  predicate Skips(v: Provider)
    requires v.target.Some? ==> v.slot.Some?
  {
    v.target.None? || v.active || v.target.value <= v.slot.value.restart
  }

  /** The slot goes to the target unless it is there already; the target is recorded either way. */
  predicate SlotMoved(v: Provider, v': Provider) {
    && v.target.Some? && v.slot.Some? && !v.active
    && var target, pos := v.target.value, v.slot.value;
       && v'.slot.Some? && v'.slot.value.flushed == Max(pos.flushed, target)
       && pos.restart <= v'.slot.value.restart <= v'.slot.value.flushed
       && (target <= pos.flushed ==> v'.slot == v.slot)
       && v' == v.(slot := v'.slot, advanced := Some(target))
  }

  predicate SlotAdvanced(v: Provider, v': Provider) {
    && (v.target.Some? ==> v.slot.Some?)
    && if Skips(v) then v' == v.(advanced := None) else SlotMoved(v, v')
  }

  /** An origin that a worker is using cannot be moved. */
  predicate OriginAdvanced(v: Provider, v': Provider) {
    if v.advanced.Some? then !v.active && v' == v.(origin := v.advanced.value) else v' == v
  }

  /** sub_enable: from here on records past the present position are streamed. */
  function Enable(v: Provider): Provider {
    v.(sub := Enabled(v.Position()), origin := v.Position())
  }

  /** Subscription.Create without sync: enable a disabled one, else create it with its slot. */
  predicate SubEnabled(v: Provider, v': Provider) {
    match v.sub
    case Disabled => v' == Enable(v)
    case Absent => var u := v.(slot := v'.slot); SlotCreated(v, u) && v' == Enable(u)
    case Enabled(_) => v' == v
  }

  /** Subscription.Create with sync, on the source itself: COPY and stream meet at one snapshot. */
  predicate SourceCopied(v: Provider, v': Provider) {
    && v'.slot.Some?
    && (if v.slot.Some? then v'.slot == v.slot
        else v'.slot.value.restart <= v'.slot.value.flushed == v.wal)
    && v' == v.(slot := v'.slot, sub := Enabled(v.wal), origin := v.wal, copy := Some(v.wal))
  }

  /** sub_drop takes the subscription and its origin, and perhaps the provider's slot. */
  predicate SubDropped(v: Provider, v': Provider) {
    && v' == v.(sub := Absent, origin := 0, active := false, slot := v'.slot)
    && (v'.slot == v.slot || v'.slot == None)
  }

  /** The COPY contains what the source has applied of each peer. */
  predicate PeerCopied(v: Provider, v': Provider) {
    v' == v.(copy := Some(v.applied))
  }

  ghost predicate OnlyAt(w: World, w': World, p: Name) {
    && p in w && w'.Keys == w.Keys
    && forall x | x in w && x != p :: w'[x] == w[x]
  }

  ghost predicate CopyMade(w: World, w': World, s: Name) {
    s in w &&
    match w[s].sub
    case Disabled => OnlyAt(w, w', s) && w'[s] == Enable(w[s])
    case Enabled(_) => w' == w
    case Absent =>
      && w'.Keys == w.Keys && SourceCopied(w[s], w'[s])
      && forall x | x in w && x != s :: PeerCopied(w[x], w'[x])
  }

  /** The effect of a task that returns success. */
  ghost predicate Effect(a: Adding, t: Task, w: World, w': World) {
    match t
    case Task(Create, SlotCreate(p, _)) => OnlyAt(w, w', p) && SlotCreated(w[p], w'[p])
    case Task(Create, SyncEvent(p, _)) => OnlyAt(w, w', p) && SyncMarked(w[p], w'[p])
    case Task(Create, WaitEvent(p, _)) => OnlyAt(w, w', p) && SyncConfirmed(w[p], w'[p])
    case Task(Create, PeerCatchup(p, _)) => OnlyAt(w, w', p) && CaughtUp(w[p], w'[p])
    case Task(Create, DisabledSub(p, _)) => OnlyAt(w, w', p) && DisabledRegistered(w[p], w'[p])
    case Task(Create, LagTracker(p, _)) => OnlyAt(w, w', p) && LagRead(w[p], w'[p])
    case Task(Create, SlotAdvance(p, _)) => OnlyAt(w, w', p) && SlotAdvanced(w[p], w'[p])
    case Task(Create, OriginAdvance(p, _)) => OnlyAt(w, w', p) && OriginAdvanced(w[p], w'[p])
    case Task(Create, Sub(x, y)) =>
      if y == a.m then (if x == a.s then CopyMade(w, w', x) else OnlyAt(w, w', x) && SubEnabled(w[x], w'[x]))
      else Flow(a, Create, t.id, w, w')
    case Task(Update, Sub(x, y)) =>
      if y == a.m && x in w then OnlyAt(w, w', x) && w'[x] == Enable(w[x])
      else Flow(a, Update, t.id, w, w')
    case Task(Delete, Sub(x, y)) =>
      if y == a.m && x in w then OnlyAt(w, w', x) && SubDropped(w[x], w'[x])
      else Flow(a, Delete, t.id, w, w')
    case _ => w' == w
  }

  /**
   The subscription x→source is created, enabled or dropped.  A new slot begins at the present
   end of the WAL: what the source has not applied by then it never gets.
   */
  predicate FeedMoved(action: Action, v: Provider, v': Provider) {
    match action
    case Create =>
      v' == if v.feed.Some? then v.(toSource := true)
            else v.(toSource := true, feed := Some(v.wal), missed := v.missed + Span(v.applied, v.wal))
    case Update => v' == v.(toSource := true)
    case Delete => v' == v.(toSource := false, feed := v'.feed) && (v'.feed == v.feed || v'.feed == None)
  }

  /** A subscription between existing nodes matters only if it feeds the source. */
  ghost predicate Flow(a: Adding, action: Action, sub: Identifier, w: World, w': World)
    requires sub.Sub?
  {
    if sub.dst == a.s && sub.src != a.s && sub.src in w then
      OnlyAt(w, w', sub.src) && FeedMoved(action, w[sub.src], w'[sub.src])
    else w' == w
  }

  /** What the rest of the cluster does to one provider meanwhile. */
  datatype EnvStep =
    | Commit            // a transaction commits on x
    | Apply             // the source applies one more record of x, over x→source
    | Connect           // a worker of x→m takes the slot and goes on where the stream stood
    | Disconnect        // it goes down
    | Deliver           // m applies one more record streamed from x
    | Ack(pos: SlotPos) // m confirms; the slot moves forward

  predicate EnvMove(v: Provider, v': Provider, e: EnvStep) {
    match e
    case Commit => v' == v.(wal := v.wal + 1, commits := v.commits + {v.wal + 1})
    case Apply =>
      && v.toSource && v.feed.Some? && v.feed.value < v.wal
      && v' == v.(feed := Some(v.feed.value + 1), applied := v.feed.value + 1)
    case Connect => v.Streaming() && !v.active && v' == v.(active := true, origin := v.Position())
    case Disconnect => v' == v.(active := false)
    case Deliver =>
      && v.active && v.origin < v.wal
      && var k := v.origin + 1;
         v' == v.(origin := k, streamed := v.streamed + {k}, again := v.again + if k in v.streamed then {k} else {})
    case Ack(pos) =>
      && v.active && v.slot.Some?
      && v.slot.value.restart <= pos.restart <= pos.flushed
      && v.slot.value.flushed <= pos.flushed <= v.origin
      && v' == v.(slot := Some(pos))
  }

  // ---------------------------------------------------------------------------------------
  // The system
  // ---------------------------------------------------------------------------------------

  /**
   One run of the reconciler over a configuration that bootstraps m from s: the desired
   dependencies, those of everything planned (orphans included), what is planned, the nodes whose
   slot for m, and for the source, refresh saw, and whether the present source→m came with a COPY.
   */
  datatype Adding = Adding(cfg: Config, desired: Deps, deps: Deps, m: Name, s: Name,
                           deletes: set<Identifier>, updates: set<Identifier>, creates: set<Identifier>,
                           slots: set<Name>, feeds: set<Name>, copied: bool)
  {
    ghost function Providers(): set<Name> {
      NamesOf(cfg) - {m}
    }

    ghost function Peers(): set<Name> {
      NamesOf(cfg) - {m, s}
    }

    ghost function Plan(): seq<set<Task>> {
      PlanOf(deps, deletes, updates, creates)
    }

    /** One new node with another configured source; subscriptions are created, recreated, enabled, or left alone. */
    ghost predicate Valid() {
      && IsDesiredGraph(cfg, desired) && OnlyNew(cfg, m, s) && s in NamesOf(cfg) && s != m
      && desired.Keys <= deps.Keys && (forall id | id in desired :: deps[id] == desired[id])
      && creates <= desired.Keys && updates <= desired.Keys && (forall id | Populates(cfg, m, id) :: id in creates)
      && (forall x, y | x in NamesOf(cfg) && y in NamesOf(cfg) ::
            (Sub(x, y) in deletes ==> Sub(x, y) in creates) && (Sub(x, y) in updates ==> Sub(x, y) !in creates))
      && (forall x | x in Providers() :: Fits(slots, x, m)) && (forall x | x in Peers() :: Fits(feeds, x, s))
      && (copied ==> Sub(s, m) !in creates)
    }

    /** Only a subscription whose slot is there is left alone or enabled, only one whose slot is gone is dropped. */
    ghost predicate Fits(hosts: set<Name>, x: Name, y: Name) {
      && (Sub(x, y) !in creates ==> x in hosts)
      && (Sub(x, y) in deletes ==> x !in hosts)
    }

    /** No subscription into m is in working order or waiting to be enabled. */
    ghost predicate Fresh() {
      Valid() && forall x | x in Providers() :: Sub(x, m) in creates
    }

    /** An earlier run has made the COPY, and its subscription works or can be enabled. */
    ghost predicate Resumed() {
      Valid() && copied
    }

    /** Every peer still has its slot for the source. */
    ghost predicate Intact() {
      Peers() <= feeds
    }
  }

  datatype Sys = Sys(exec: Exec, world: World)

  /** What refresh must have seen of the subscription x→m to plan for it as it did. */
  ghost predicate SubFits(a: Adding, x: Name, v: Provider) {
    var id := Sub(x, a.m);
    if id in a.creates then
      if id in a.deletes then v.sub != Absent else v.sub == Absent && v.origin == 0
    else if id in a.updates then v.sub == Disabled else v.sub.Enabled?
  }

  /**
   Leftovers of an earlier add are allowed: slots, a subscription in any state, its origin.  If
   an earlier run made the COPY, nothing past it has been left out where the slot is still there;
   otherwise what m gets is counted from here.
   */
  ghost predicate ProviderInit(a: Adding, x: Name, v: Provider) {
    && v.mark == None && v.target == None && v.advanced == None
    && v.applied <= v.wal && v.origin <= v.wal && (forall k | k in v.commits :: k <= v.wal)
    && (v.slot.Some? <==> x in a.slots) && SubFits(a, x, v) && (v.active ==> v.Streaming())
    && (v.slot.Some? ==> v.slot.value.restart <= v.slot.value.flushed <= v.wal)
    && (x == a.s ==> v.missed == {})
    && (x != a.s ==> FeedFits(a, x, v))
    && if a.copied then v.copy.Some? && v.copy.value <= v.wal && (v.slot.Some? ==> v.CoveredTo(v.Position()))
       else v.copy == None && v.streamed == {} && v.again == {}
  }

  /** The stream into the source stands right after what has been applied, but for what the source never gets. */
  predicate SkippedIsMissed(v: Provider) {
    v.feed.Some? ==> Span(v.applied, v.feed.value) <= v.missed
  }

  /** What refresh must have seen of x→source, and how far the source has got. */
  ghost predicate FeedFits(a: Adding, x: Name, v: Provider) {
    && (v.feed.Some? <==> x in a.feeds) && (v.feed.Some? ==> v.applied <= v.feed.value <= v.wal) && SkippedIsMissed(v)
    && (Sub(x, a.s) !in a.deletes ==> (v.toSource <==> Sub(x, a.s) !in a.creates && Sub(x, a.s) !in a.updates))
  }

  ghost predicate SysInit(a: Adding, z: Sys) {
    && ExecInit(a.Plan(), z.exec) && z.world.Keys == a.Providers()
    && forall x | x in z.world :: ProviderInit(a, x, z.world[x])
  }

  ghost predicate ExecPart(a: Adding, z: Sys, z': Sys, step: ExecStep) {
    ExecNext(a.Plan(), z.exec, z'.exec, step)
    && if step.Succeed? then Effect(a, step.t, z.world, z'.world) else z'.world == z.world
  }

  ghost predicate EnvPart(z: Sys, z': Sys, x: Name, e: EnvStep) {
    z'.exec == z.exec && OnlyAt(z.world, z'.world, x) && EnvMove(z.world[x], z'.world[x], e)
  }

  ghost predicate SysNext(a: Adding, z: Sys, z': Sys) {
    (exists step :: ExecPart(a, z, z', step)) || (exists x, e :: EnvPart(z, z', x, e))
  }

  ghost predicate IsHistory(a: Adding, run: seq<Sys>) {
    |run| > 0 && SysInit(a, run[0]) && forall i | 0 < i < |run| :: SysNext(a, run[i - 1], run[i])
  }

  // ---------------------------------------------------------------------------------------
  // What must hold
  // ---------------------------------------------------------------------------------------

  /** Record k of x is in the COPY, has been streamed, or is still to be. */
  predicate Accounted(v: Provider, k: nat) {
    v.Copied(k) || k in v.streamed || (v.slot.Some? && v.Position() < k)
  }

  /** How often m has applied record k of x; more than twice counts as twice more. */
  function Applications(v: Provider, k: nat): nat {
    (if v.Copied(k) then 1 else 0) + (if k in v.streamed then 1 else 0) + (if k in v.again then 1 else 0)
  }

  // ---------------------------------------------------------------------------------------
  // Invariant
  // ---------------------------------------------------------------------------------------

  /** Before the COPY nothing streams, and a marked peer's slot lies behind its mark. */
  predicate BeforeCopy(source: bool, v: Provider) {
    && !v.sub.Enabled? && v.origin == 0 && v.target == None && v.advanced == None
    && v.streamed == {} && v.again == {}
    && (source ==> v.sub == Absent)
    && (!source && v.mark.Some? ==> v.slot.Some? && v.slot.value.flushed < v.mark.value)
  }

  /** From the COPY on, the slot (or where streaming began) never passes the watermark. */
  predicate AfterCopy(source: bool, v: Provider) {
    && v.copy.Some? && v.slot.Some? && v.copy.value <= v.wal && v.again == {}
    && match v.sub
       case Enabled(start) =>
         && start <= v.copy.value && start <= v.origin <= v.wal
         && v.slot.value.flushed <= v.origin && v.streamed == Span(start, v.origin)
         && (v.advanced.Some? ==> v.advanced.value <= start)
         && (source ==> start == v.copy.value)
       case _ =>
         && !source && v.streamed == {}
         && v.slot.value.flushed <= v.copy.value && v.origin <= v.slot.value.flushed
         && (v.target.Some? ==> v.target.value <= v.copy.value)
         && (v.advanced.Some? ==> v.advanced.value <= v.slot.value.flushed)
  }

  /** Where the stream into the source is: what it skipped, it skipped before reaching the end of the WAL. */
  predicate FeedInv(v: Provider) {
    v.applied <= v.wal && (v.feed.Some? ==> v.applied <= v.feed.value <= v.wal)
  }

  predicate ProviderInv(source: bool, v: Provider) {
    && (if source then v.missed == {} else FeedInv(v))
    && (v.mark.Some? ==> v.mark.value <= v.wal) && (v.active ==> v.Streaming())
    && (v.slot.Some? ==> v.slot.value.restart <= v.slot.value.flushed <= v.wal)
    && if v.copy.Some? then AfterCopy(source, v) else BeforeCopy(source, v)
  }

  /** A broken subscription into m, whose delete is still to come. */
  ghost predicate Pending(a: Adding, s: Exec, x: Name) {
    Sub(x, a.m) in a.deletes && !Done(s, Task(Delete, Sub(x, a.m)))
  }

  predicate Broken(source: bool, v: Provider) {
    && v.sub != Absent && v.slot == None && v.copy == None && v.mark == None && v.target == None && v.advanced == None
    && v.streamed == {} && v.again == {} && !v.active
    && if source then v.missed == {} else FeedInv(v)
  }

  /** What a completed task guarantees from then on. */
  ghost predicate TaskInv(a: Adding, s: Exec, p: Name, v: Provider) {
    && (Done(s, Task(Create, SlotCreate(p, a.m))) ==> v.slot.Some?)
    && (Done(s, Task(Create, SyncEvent(p, a.s))) ==> v.mark.Some?)
    && (Done(s, Task(Create, PeerCatchup(p, a.s))) ==> v.mark.Some? && v.applied >= v.mark.value)
    && (Done(s, Task(Create, DisabledSub(p, a.m))) ==> v.sub != Absent)
    && (v.Streaming() <==> Done(s, Task(Create, Sub(p, a.m))))
    && OriginInv(Done(s, Task(Create, OriginAdvance(p, a.m))), Pending(a, s, p), v)
  }

  /** Until streaming, the origin is what the advance recorded, once it has been taken over, and nothing before. */
  predicate OriginInv(taken: bool, pending: bool, v: Provider) {
    !pending && !v.sub.Enabled? ==> v.origin == if taken && v.advanced.Some? then v.advanced.value else 0
  }

  ghost predicate WorldInv(a: Adding, s: Exec, w: World) {
    && w.Keys == a.Providers()
    && (forall x | x in w :: if Pending(a, s, x) then Broken(x == a.s, w[x]) else ProviderInv(x == a.s, w[x]))
    && (forall x, y | x in w && y in w :: w[x].copy.Some? <==> w[y].copy.Some?)
  }

  /** The data side of the invariant: what holds of the providers, given which tasks are done. */
  ghost predicate Guarantees(a: Adding, s: Exec, w: World) {
    && WorldInv(a, s, w)
    && (forall p | p in a.Peers() :: TaskInv(a, s, p, w[p]))
    && (Done(s, Task(Create, Sub(a.s, a.m))) ==> a.s in w && w[a.s].copy.Some?)
  }

  ghost predicate SysInv(a: Adding, z: Sys) {
    ExecInv(a.Plan(), z.exec) && Guarantees(a, z.exec, z.world)
  }
}
