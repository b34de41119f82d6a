/**
 What adding a node guarantees: nothing lost, when something is applied twice, which orders and
 gates hold, and that nothing blocks.
 */
module AddNodeSafety {
  import opened Resources
  import opened Layering
  import opened Planning
  import opened Executor
  import opened Desired
  import opened DesiredOrder
  import opened AddNode
  import opened AddNodeInvariant

  // ---------------------------------------------------------------------------------------
  // Main results
  // ---------------------------------------------------------------------------------------

  /** In every reachable state a provider's broken subscription is still to be dropped, or it keeps the invariant. */
  lemma EitherWay(a: Adding, run: seq<Sys>, i: nat, x: Name)
    requires a.Fresh() && IsHistory(a, run) && i < |run| && x in a.Providers()
    ensures x in run[i].world
    ensures Broken(x == a.s, run[i].world[x]) || ProviderInv(x == a.s, run[i].world[x])
  {
    HistoryInv(a, run, i);
  }

  /** Where streaming began, or would begin. */
  function Began(v: Provider): nat {
    if v.sub.Enabled? then v.sub.start else v.Position()
  }

  /**
   No gap, exactly.  In every interleaving of the add with writes on all existing nodes, from the
   COPY on, record k of an existing node is in the COPY, streamed to the new node, or still to be
   streamed, unless the source itself never got it and streaming began after it.  The source's own
   records are all accounted for.  Until a peer's subscription is enabled its slot lies at or
   behind the COPY watermark.
   */
  lemma NoGap(a: Adding, run: seq<Sys>, i: nat, x: Name, k: nat)
    requires a.Fresh() && IsHistory(a, run) && i < |run| && x in a.Providers()
    ensures x in run[i].world
    ensures var v := run[i].world[x];
            v.copy.Some? ==>
              && (Accounted(v, k) <==> !(k in v.missed && k <= Began(v)))
              && (x == a.s ==> v.missed == {})
              && v.slot.Some? && Began(v) <= v.copy.value
              && (!v.sub.Enabled? ==> v.slot.value.flushed <= v.copy.value)
  {
    EitherWay(a, run, i, x);
  }

  /** No peer streams into the new node before the COPY is complete. */
  lemma NoStreamBeforeCopy(a: Adding, run: seq<Sys>, i: nat, x: Name)
    requires a.Fresh() && IsHistory(a, run) && i < |run| && x in a.Providers()
    ensures x in run[i].world
    ensures var v := run[i].world[x]; (v.Streaming() || v.streamed != {} ==> v.copy.Some?)
  {
    EitherWay(a, run, i, x);
  }

  /** Some transaction lies in the COPY although streaming began before it. */
  ghost predicate Overlaps(v: Provider, from: nat) {
    exists k :: k in v.commits && from < k && v.Copied(k)
  }

  /**
   Exactly once.  Once a node streams, every transaction it streams or copied is applied exactly
   once iff no transaction of the COPY lies after the point where streaming began and before the
   point it has reached; so always for the source, and for a peer whose slot was advanced to or
   past the last transaction of the COPY.
   */
  lemma ExactlyOnce(a: Adding, run: seq<Sys>, i: nat, x: Name)
    requires a.Fresh() && IsHistory(a, run) && i < |run| && x in a.Providers()
    requires x in run[i].world && run[i].world[x].Streaming()
    ensures var v := run[i].world[x];
            && ((forall k | k in v.commits && (v.Copied(k) || k in v.streamed) :: Applications(v, k) == 1)
                <==> !exists k :: k in v.commits && v.sub.start < k <= v.origin && v.Copied(k))
            && (x == a.s ==> !Overlaps(v, v.sub.start))
  {
    EitherWay(a, run, i, x);
    var v := run[i].world[x];
    if k :| k in v.commits && v.sub.start < k <= v.origin && v.Copied(k) {
      assert k in v.streamed && Applications(v, k) == 2;
    }
  }

  /**
   Emergent ordering.  Whenever the end-state p→m subscription runs, the disabled registration
   of the same subscription has completed, so it takes the enable branch, on a slot that
   exists, after the COPY and after both advances.
   */
  lemma EndStateSubEnables(a: Adding, run: seq<Sys>, i: nat, p: Name)
    requires a.Fresh() && IsHistory(a, run) && i < |run| && p in a.Peers()
    requires Started(run[i].exec, Task(Create, Sub(p, a.m)))
    ensures Done(run[i].exec, Task(Create, DisabledSub(p, a.m)))
    ensures Done(run[i].exec, Task(Create, SlotAdvance(p, a.m)))
            && Done(run[i].exec, Task(Create, OriginAdvance(p, a.m)))
    ensures p in run[i].world && run[i].world[p].slot.Some? && run[i].world[p].copy.Some?
    ensures !Done(run[i].exec, Task(Create, Sub(p, a.m))) ==> run[i].world[p].sub == Disabled
  {
    var s := run[i].exec;
    HistoryInv(a, run, i);
    BeforePeerSub(a, s, p);
    DisabledFirst(a, s, p);
    assert TaskInv(a, s, p, run[i].world[p]);
    assert ProviderInv(false, run[i].world[p]);
  }

  lemma DisabledFirst(a: Adding, s: Exec, p: Name)
    requires a.Fresh() && ExecInv(a.Plan(), s) && p in a.Peers() && Started(s, Task(Create, LagTracker(p, a.m)))
    ensures Done(s, Task(Create, DisabledSub(p, a.m)))
  {
    var j, k := DisabledBeforeLagTracker(a.cfg, a.desired, a.m, a.s, a.creates, p);
    SameLinks(a);
    InvRespectsLayers(a.deps, a.deletes, a.updates, a.creates, s, DisabledSub(p, a.m), LagTracker(p, a.m), j, k);
  }

  /** The resource whose output id reads through its struct reference. */
  function FeedOf(id: Identifier): Identifier
    requires id.WaitEvent? || id.PeerCatchup? || id.SlotAdvance? || id.OriginAdvance?
  {
    match id
    case WaitEvent(p, x) => SyncEvent(p, x)
    case PeerCatchup(p, x) => SyncEvent(p, x)
    case SlotAdvance(p, x) => LagTracker(p, x)
    case OriginAdvance(p, x) => SlotAdvance(p, x)
  }

  /** A resource that reads another's output begins only after that other has completed. */
  lemma FeedCompleted(a: Adding, s: Exec, id: Identifier)
    requires a.Valid() && ExecInv(a.Plan(), s) && Started(s, Task(Create, id))
    requires id.WaitEvent? || id.PeerCatchup? || id.SlotAdvance? || id.OriginAdvance?
    ensures Populates(a.cfg, a.m, id) && Done(s, Task(Create, FeedOf(id)))
  {
    PlannedTask(a, s, Task(Create, id));
    assert Populates(a.cfg, a.m, FeedOf(id));
    ChainDependency(a, s, FeedOf(id), id);
  }

  lemma MarkSticks(a: Adding, t: Task, w: World, w': World, x: Name)
    requires Effect(a, t, w, w') && x in w
    ensures x in w' && (w[x].mark.Some? ==> w'[x].mark.Some?)
    ensures t.action == Create && t.id.SyncEvent? && t.id.provider == x ==> w'[x].mark.Some?
  {
  }

  lemma StepMarks(a: Adding, z: Sys, z': Sys, x: Name, t: Task)
    requires SysNext(a, z, z') && x in z.world && t.action == Create && t.id.SyncEvent? && t.id.provider == x
    requires Done(z.exec, t) ==> z.world[x].mark.Some?
    ensures x in z'.world && (Done(z'.exec, t) ==> z'.world[x].mark.Some?)
  {
    if y, e :| EnvPart(z, z', y, e) {
    } else {
      var step :| ExecPart(a, z, z', step);
      if step.Succeed? { MarkSticks(a, step.t, z.world, z'.world, x); }
    }
  }

  lemma {:induction false} DoneIsMarked(a: Adding, run: seq<Sys>, i: nat, x: Name, y: Name)
    requires IsHistory(a, run) && i < |run| && x in a.Providers()
    ensures x in run[i].world
    ensures Done(run[i].exec, Task(Create, SyncEvent(x, y))) ==> run[i].world[x].mark.Some?
  {
    if i > 0 {
      DoneIsMarked(a, run, i - 1, x, y);
      StepMarks(a, run[i - 1], run[i], x, Task(Create, SyncEvent(x, y)));
    }
  }

  /**
   The "LSN not available" branches are unreachable: whenever a wait or a catch-up has begun,
   the event it points to has completed and its LSN is set.
   */
  lemma MarkAvailable(a: Adding, run: seq<Sys>, i: nat, id: Identifier)
    requires a.Valid() && IsHistory(a, run) && i < |run| && (id.WaitEvent? || id.PeerCatchup?)
    requires Started(run[i].exec, Task(Create, id))
    ensures ProviderOf(id) in run[i].world && run[i].world[ProviderOf(id)].mark.Some?
  {
    ExecHistory(a, run, i);
    FeedCompleted(a, run[i].exec, id);
    DoneIsMarked(a, run, i, ProviderOf(id), if id.WaitEvent? then id.subscriber else id.source);
  }

  /** Slot and origin stay in step: until enabled, the origin never passes the slot. */
  lemma OriginBehindSlot(a: Adding, run: seq<Sys>, i: nat, p: Name)
    requires a.Fresh() && IsHistory(a, run) && i < |run| && p in a.Peers()
    ensures p in run[i].world
    ensures var v := run[i].world[p];
            v.slot.Some? && !v.sub.Enabled? ==> v.origin <= v.slot.value.flushed
  {
    EitherWay(a, run, i, p);
  }

  // ---------------------------------------------------------------------------------------
  // The two gates are exactly what safety needs
  // ---------------------------------------------------------------------------------------

  /** All records the source has are accounted for after the COPY iff the slot was at or behind what it had applied. */
  lemma CopySafeIff(v: Provider, v': Provider)
    requires PeerCopied(v, v') && v.slot.Some? && v.origin <= v.slot.value.flushed && v.streamed == {}
    ensures (forall k: nat | k !in v.missed :: Accounted(v', k))
            <==> forall k | v.applied < k <= v.slot.value.flushed :: k in v.missed
  {
    forall k: nat ensures Accounted(v', k) <==> (k <= v.applied && k !in v.missed) || v.slot.value.flushed < k {}
  }

  /** Taking the advance keeps them accounted for iff the target is within the COPY or past no record the source has. */
  lemma AdvanceSafeIff(v: Provider, v': Provider)
    requires SlotAdvanced(v, v') && v'.advanced.Some? && v.streamed == {} && v.origin <= v.slot.value.flushed
    requires v.copy.Some? && v.slot.value.flushed <= v.copy.value
    ensures (forall k: nat | k !in v.missed :: Accounted(v', k))
            <==> forall k | v.copy.value < k <= v.target.value :: k in v.missed
  {
    forall k: nat
      ensures Accounted(v', k) <==> (k <= v.copy.value && k !in v.missed) || v'.slot.value.flushed < k
    {}
  }

  // ---------------------------------------------------------------------------------------
  // Nothing blocks for ever
  // ---------------------------------------------------------------------------------------

  /** What the body of id must find in order not to fail. */
  predicate Ready(id: Identifier, v: Provider) {
    && (id.WaitEvent? || id.PeerCatchup? ==> v.mark.Some?)
    && (id.PeerCatchup? ==> v.applied >= v.mark.value)
    && (id.SlotAdvance? && v.target.Some? ==> v.slot.Some? && v.slot.value.restart <= v.slot.value.flushed)
    && (id.OriginAdvance? && v.advanced.Some? ==> !v.active)
  }

  lemma StepPossible(id: Identifier, v: Provider) returns (v': Provider)
    requires Ready(id, v)
    ensures StepOf(id, v, v') && (id.LagTracker? ==> v'.target == None)
  {
    var created := v.(slot := Some(SlotPos(v.wal, v.wal)));
    match id
    case SlotCreate(_, _) => v' := if v.slot.Some? then v else created;
    case SyncEvent(_, _) => v' := v.(wal := v.wal + 1, mark := Some(v.wal + 1));
    case WaitEvent(_, _) => v' := v;
    case PeerCatchup(_, _) => v' := v;
    case DisabledSub(_, _) => v' := if v.sub == Absent then v.(sub := Disabled) else v;
    case LagTracker(_, _) => v' := v.(target := None);
    case SlotAdvance(_, _) => v' := AdvancePossible(v);
    case OriginAdvance(_, _) => v' := if v.advanced.Some? then v.(origin := v.advanced.value) else v;
    case _ =>
      var u := if v.slot.Some? then v else created;
      v' := if v.sub == Disabled then Enable(v) else if v.sub == Absent then Enable(u) else v;
  }

  lemma AdvancePossible(v: Provider) returns (v': Provider)
    requires v.target.Some? ==> v.slot.Some? && v.slot.value.restart <= v.slot.value.flushed
    ensures SlotAdvanced(v, v')
  {
    if Skips(v) {
      v' := v.(advanced := None);
    } else {
      var pos := SlotPos(v.slot.value.restart, Max(v.slot.value.flushed, v.target.value));
      v' := v.(slot := Some(pos), advanced := v.target);
    }
  }

  /**
   Whatever the interleaving, the body of a running peer task can complete: none of the states
   in which it would have to fail is reachable.  A catch-up first needs the source to apply.
   */
  lemma PeerTaskCanSucceed(a: Adding, run: seq<Sys>, i: nat, t: Task, p: Name) returns (w': World)
    requires a.Fresh() && IsHistory(a, run) && i < |run| && p in a.Peers() && Concerns(a, t, p)
    requires t in run[i].exec.st && run[i].exec.st[t] == Running
    requires t.id.PeerCatchup? ==> p in run[i].world
    requires t.id.PeerCatchup? && run[i].world[p].mark.Some? ==> run[i].world[p].applied >= run[i].world[p].mark.value
    ensures p in run[i].world && OnlyAt(run[i].world, w', p) && StepOf(t.id, run[i].world[p], w'[p])
  {
    var s, w := run[i].exec, run[i].world;
    HistoryInv(a, run, i);
    PeerIsAbout(a, s, w, t, p);
    if t.id.WaitEvent? || t.id.PeerCatchup? { MarkAvailable(a, run, i, t.id); }
    if t.id.SlotAdvance? {
      FeedCompleted(a, s, t.id);
      ExactAdvance(a, s, t, p);
      CopyBeforeLag(a, s, p);
    }
    if t.id.OriginAdvance? { NotYetEnabled(a, s, t, p, w[p]); }
    var v' := StepPossible(t.id, w[p]);
    w' := w[p := v'];
  }

  lemma ExactAdvance(a: Adding, s: Exec, t: Task, p: Name)
    requires a.Valid() && ExecInv(a.Plan(), s) && t in s.st && p in a.Peers() && Concerns(a, t, p) && t.id.SlotAdvance?
    ensures t.id == SlotAdvance(p, a.m)
  {
    PlannedTask(a, s, t);
  }

  lemma Extended(a: Adding, run: seq<Sys>, z: Sys)
    requires IsHistory(a, run) && SysNext(a, run[|run| - 1], z)
    ensures IsHistory(a, run + [z])
  {
  }

  /** The source goes on applying from a provider until its progress is at or past the target. */
  ghost predicate AppliedTo(z: Sys, z': Sys, p: Name, target: nat) {
    && z'.exec == z.exec && OnlyAt(z.world, z'.world, p)
    && z'.world[p] == z.world[p].(applied := z'.world[p].applied, feed := z'.world[p].feed)
    && z'.world[p].applied >= target
  }

  ghost predicate CanApplyTo(v: Provider, target: nat) {
    && target <= v.wal && v.toSource && v.feed.Some?
    && (v.applied < target ==> v.feed.value < target)
  }

  lemma {:induction false} ApplyUntil(a: Adding, run: seq<Sys>, p: Name, target: nat) returns (longer: seq<Sys>)
    requires IsHistory(a, run) && p in run[|run| - 1].world && CanApplyTo(run[|run| - 1].world[p], target)
    ensures IsHistory(a, longer) && run <= longer && AppliedTo(run[|run| - 1], longer[|longer| - 1], p, target)
    decreases if run[|run| - 1].world[p].applied >= target then 0 else target - run[|run| - 1].world[p].feed.value
  {
    var z := run[|run| - 1];
    var v := z.world[p];
    longer := run;
    if v.applied < target {
      var sent := v.feed.value + 1;
      var next := Sys(z.exec, z.world[p := v.(feed := Some(sent), applied := sent)]);
      assert EnvPart(z, next, p, Apply);
      Extended(a, run, next);
      longer := ApplyUntil(a, run + [next], p, target);
    }
  }
}
