/**
 The slot and origin advance, over whole histories: when a transaction can be applied twice, and
 when slot and origin are in lockstep.  Both are decided by what the advance finds: the slot's
 restart and confirmed positions, the target, and the COPY watermark.
 */
module AddNodeAdvance {
  import opened Resources
  import opened Planning
  import opened Executor
  import opened Desired
  import opened AddNode
  import opened AddNodeInvariant
  import opened AddNodeSafety

  function Advance(a: Adding, p: Name): Task {
    Task(Create, SlotAdvance(p, a.m))
  }

  function EndState(a: Adding, p: Name): Task {
    Task(Create, Sub(p, a.m))
  }

  // ---------------------------------------------------------------------------------------
  // After the advance
  // ---------------------------------------------------------------------------------------

  lemma AdvanceIsLate(a: Adding, s: Exec, p: Name)
    requires a.Fresh() && ExecInv(a.Plan(), s) && p in a.Peers() && Started(s, Advance(a, p))
    ensures Done(s, Task(Create, Sub(a.s, a.m))) && !Pending(a, s, p)
  {
    FeedCompleted(a, s, SlotAdvance(p, a.m));
    CopyBeforeLag(a, s, p);
    CreatesComeLast(a, s, Advance(a, p), Sub(p, a.m));
  }

  /**
   How a peer can change once its slot has been advanced: what the COPY brought stays, and which of
   the records there are transactions; until it is enabled, the slot and what the advance recorded
   stay; it starts to stream exactly where the slot stood, and that stays.
   */
  ghost predicate Carried(v: Provider, v': Provider) {
    && v.slot.Some? && v'.copy == v.copy && v'.missed == v.missed && v.wal <= v'.wal
    && (forall k | k <= v.wal :: k in v'.commits <==> k in v.commits)
    && (!v'.sub.Enabled? ==> !v.sub.Enabled? && v'.slot == v.slot && v'.advanced == v.advanced)
    && (v.sub.Enabled? ==> v'.sub == v.sub)
    && (!v.sub.Enabled? && v'.sub.Enabled? ==> v'.sub.start == v.slot.value.flushed)
  }

  lemma CarriedOn(u: Provider, v: Provider, w: Provider)
    requires Carried(u, v) && Carried(v, w)
    ensures Carried(u, w)
  {
  }

  lemma AtAdvance(a: Adding, z: Sys, p: Name)
    requires a.Fresh() && SysInv(a, z) && p in a.Peers() && Done(z.exec, Advance(a, p))
    ensures p in z.world && z.world[p].copy.Some? && ProviderInv(false, z.world[p])
    ensures Done(z.exec, Task(Create, Sub(a.s, a.m))) && Done(z.exec, Task(Create, SyncEvent(p, a.s)))
    ensures !Pending(a, z.exec, p)
  {
    AdvanceIsLate(a, z.exec, p);
    CatchupBeforeCopy(a, z.exec, p);
    MarkBeforeCatchup(a, z.exec, p);
    assert z.world[a.s].copy.Some? <==> z.world[p].copy.Some?;
  }

  lemma TaskAfterAdvance(a: Adding, s: Exec, t: Task, p: Name, v: Provider, v': Provider)
    requires AboutTo(a, s, t, p, v) && StepOf(t.id, v, v') && Done(s, Advance(a, p)) && v.copy.Some?
    ensures Carried(v, v')
  {
    ExactPair(a, s, t, p);
    if t.id.SlotAdvance? { ExactAdvance(a, s, t, p); }
    StepCarried(t.id, v, v');
  }

  lemma StepCarried(id: Identifier, v: Provider, v': Provider)
    requires ProviderInv(false, v) && v.copy.Some? && StepOf(id, v, v') && !id.SlotAdvance?
    ensures Carried(v, v')
  {
  }

  lemma EnvCarried(v: Provider, v': Provider, e: EnvStep)
    requires ProviderInv(false, v) && v.copy.Some? && EnvMove(v, v', e)
    ensures Carried(v, v')
  {
  }

  lemma CauseCarries(a: Adding, z: Sys, z': Sys, p: Name, v: Provider, v': Provider, c: Cause)
    requires Caused(a, z, z', p, v, v', c) && v.copy.Some? && ProviderInv(false, v)
    requires Done(z.exec, Advance(a, p)) && Done(z.exec, Task(Create, Sub(a.s, a.m)))
    requires Sub(p, a.m) in a.deletes ==> Done(z.exec, Task(Delete, Sub(p, a.m)))
    requires c.ByDrop? ==> Sub(p, a.m) in a.deletes
    requires c.ByFeed? ==> c.t.action != Create
    ensures Carried(v, v')
  {
    if c.ByTask? { TaskAfterAdvance(a, z.exec, c.t, p, v, v'); }
    if c.ByCluster? { EnvCarried(v, v', c.e); }
  }

  lemma StepCarries(a: Adding, z: Sys, z': Sys, p: Name)
    requires a.Fresh() && SysInv(a, z) && SysNext(a, z, z') && p in a.Peers() && Done(z.exec, Advance(a, p))
    ensures p in z.world && p in z'.world && Carried(z.world[p], z'.world[p]) && Done(z'.exec, Advance(a, p))
  {
    StaysDone(a, z, z', Advance(a, p));
    AtAdvance(a, z, p);
    var c := CauseOf(a, z, z', p);
    if c.ByDrop? { PlannedTask(a, z.exec, c.t); }
    if c.ByFeed? && c.t.action == Create { FeedOrder(a, z.exec, c.t, p); }
    CauseCarries(a, z, z', p, z.world[p], z'.world[p], c);
  }

  lemma HistoryCarries(a: Adding, run: seq<Sys>, h: nat, p: Name)
    requires a.Fresh() && IsHistory(a, run) && h + 1 < |run| && p in a.Peers() && Done(run[h].exec, Advance(a, p))
    ensures p in run[h].world && p in run[h + 1].world && Carried(run[h].world[p], run[h + 1].world[p])
    ensures Done(run[h + 1].exec, Advance(a, p))
  {
    var z, z' := StepAt(a, run, h);
    StepCarries(a, z, z', p);
  }

  lemma {:induction false} AllCarried(a: Adding, run: seq<Sys>, j: nat, h: nat, p: Name)
    requires a.Fresh() && IsHistory(a, run) && j <= h && h + 1 < |run| && p in a.Peers()
             && Done(run[j].exec, Advance(a, p))
    ensures p in run[j].world && p in run[h + 1].world && Carried(run[j].world[p], run[h + 1].world[p])
    ensures Done(run[h + 1].exec, Advance(a, p))
    decreases h
  {
    if j < h {
      var g := h - 1;
      AllCarried(a, run, j, g, p);
      assert run[g + 1] == run[h];
      HistoryCarries(a, run, h, p);
      CarriedOn(run[j].world[p], run[h].world[p], run[h + 1].world[p]);
    } else {
      HistoryCarries(a, run, h, p);
    }
  }

  lemma CarriedTo(a: Adding, run: seq<Sys>, j: nat, i: nat, p: Name)
    requires a.Fresh() && IsHistory(a, run) && j < i < |run| && p in a.Peers() && Done(run[j].exec, Advance(a, p))
    ensures p in run[j].world && p in run[i].world && Carried(run[j].world[p], run[i].world[p])
  {
    var h := i - 1;
    AllCarried(a, run, j, h, p);
    assert run[h + 1] == run[i];
  }

  // ---------------------------------------------------------------------------------------
  // Applied twice
  // ---------------------------------------------------------------------------------------

  ghost predicate AppliedTwice(run: seq<Sys>, p: Name)
    requires |run| > 0
  {
    p in run[|run| - 1].world && Twice(run[|run| - 1].world[p])
  }

  ghost predicate Twice(v: Provider) {
    exists k :: k in v.commits && Applications(v, k) >= 2
  }

  ghost predicate Continues(a: Adding, run: seq<Sys>, longer: seq<Sys>) {
    IsHistory(a, longer) && run <= longer
  }

  /** The end-state subscription of p is about to be enabled. */
  ghost predicate Enabling(a: Adding, run: seq<Sys>, p: Name) {
    && IsHistory(a, run) && p in a.Peers()
    && EndState(a, p) in run[|run| - 1].exec.st && run[|run| - 1].exec.st[EndState(a, p)] == Running
  }

  ghost predicate ReadyToEnable(v: Provider) {
    && v.sub == Disabled && v.slot.Some? && v.copy.Some? && v.streamed == {} && v.again == {} && !v.active
    && v.copy.value <= v.wal && v.origin <= v.slot.value.flushed
  }

  lemma BeforeEnabling(a: Adding, run: seq<Sys>, p: Name)
    requires a.Fresh() && Enabling(a, run, p)
    ensures var z := run[|run| - 1]; p in z.world && Done(z.exec, Advance(a, p)) && ReadyToEnable(z.world[p])
  {
    EndStateSubEnables(a, run, |run| - 1, p);
    EitherWay(a, run, |run| - 1, p);
  }

  /** A connected stream goes on until record k has been delivered. */
  lemma {:induction false} DeliverUntil(a: Adding, run: seq<Sys>, p: Name, k: nat) returns (longer: seq<Sys>)
    requires IsHistory(a, run) && p in run[|run| - 1].world && run[|run| - 1].world[p].active
    requires run[|run| - 1].world[p].origin < k <= run[|run| - 1].world[p].wal
    ensures Continues(a, run, longer) && p in longer[|longer| - 1].world
    ensures Later(run[|run| - 1].world[p], longer[|longer| - 1].world[p]) && k in longer[|longer| - 1].world[p].streamed
    decreases k - run[|run| - 1].world[p].origin
  {
    var z := run[|run| - 1];
    var v := z.world[p];
    var j := v.origin + 1;
    var v' := v.(origin := j, streamed := v.streamed + {j}, again := v.again + if j in v.streamed then {j} else {});
    var next := Sys(z.exec, z.world[p := v']);
    assert EnvPart(z, next, p, Deliver);
    Extended(a, run, next);
    longer := run + [next];
    if j < k { longer := DeliverUntil(a, longer, p, k); }
  }

  /** Only the stream has moved on. */
  predicate Later(v: Provider, v': Provider) {
    v' == v.(origin := v'.origin, streamed := v'.streamed, again := v'.again)
  }

  /** The subscription is enabled and its worker comes up. */
  lemma EnableAndConnect(a: Adding, run: seq<Sys>, p: Name) returns (longer: seq<Sys>)
    requires a.Fresh() && Enabling(a, run, p) && p in run[|run| - 1].world && ReadyToEnable(run[|run| - 1].world[p])
    ensures Continues(a, run, longer) && p in longer[|longer| - 1].world
    ensures var v := run[|run| - 1].world[p];
            longer[|longer| - 1].world[p] == Enable(v).(active := true) && v.Position() == v.slot.value.flushed
  {
    var z := run[|run| - 1];
    var v := z.world[p];
    var z1 := Sys(AfterTask(z.exec, EndState(a, p)), z.world[p := Enable(v)]);
    assert ExecPart(a, z, z1, Succeed(EndState(a, p)));
    Extended(a, run, z1);
    var z2 := Sys(z1.exec, z1.world[p := Enable(v).(active := true)]);
    assert EnvPart(z1, z2, p, Connect);
    Extended(a, run + [z1], z2);
    longer := run + [z1] + [z2];
  }

  /** One success, and deliveries up to a transaction that the COPY brought as well. */
  lemma DuplicateRun(a: Adding, run: seq<Sys>, p: Name, k: nat) returns (longer: seq<Sys>)
    requires a.Fresh() && Enabling(a, run, p)
    requires p in run[|run| - 1].world && run[|run| - 1].world[p].slot.Some?
    requires k in run[|run| - 1].world[p].commits && run[|run| - 1].world[p].Copied(k)
    requires run[|run| - 1].world[p].slot.value.flushed < k
    ensures Continues(a, run, longer) && AppliedTwice(longer, p)
  {
    BeforeEnabling(a, run, p);
    longer := EnableAndConnect(a, run, p);
    longer := DeliverUntil(a, longer, p, k);
    assert Applications(longer[|longer| - 1].world[p], k) >= 2;
  }

  /**
   Exactly when a transaction can be applied twice, on the state before the subscription is
   enabled: some continuation of the run applies one twice iff a transaction that the COPY brought
   lies past the slot's confirmed position.  (The sync event's own record is no transaction.)
   */
  lemma DuplicateIff(a: Adding, run: seq<Sys>, p: Name)
    requires a.Fresh() && Enabling(a, run, p)
    ensures var z := run[|run| - 1];
            && p in z.world && z.world[p].slot.Some? && z.world[p].copy.Some?
            && ((exists longer :: Continues(a, run, longer) && AppliedTwice(longer, p))
                <==> Overlaps(z.world[p], z.world[p].slot.value.flushed))
  {
    BeforeEnabling(a, run, p);
    var v := run[|run| - 1].world[p];
    if longer :| Continues(a, run, longer) && AppliedTwice(longer, p) {
      OverlapBefore(a, run, longer, p);
    }
    if k :| k in v.commits && v.slot.value.flushed < k && v.Copied(k) {
      var longer := DuplicateRun(a, run, p, k);
    }
  }

  lemma CarriedAlong(a: Adding, run: seq<Sys>, longer: seq<Sys>, p: Name)
    requires a.Fresh() && Enabling(a, run, p) && Continues(a, run, longer) && longer != run
    ensures p in run[|run| - 1].world && p in longer[|longer| - 1].world
    ensures Carried(run[|run| - 1].world[p], longer[|longer| - 1].world[p])
  {
    var j, i := |run| - 1, |longer| - 1;
    BeforeEnabling(a, run, p);
    assert longer[j] == run[j] && j < i;
    CarriedTo(a, longer, j, i, p);
  }

  lemma OverlapBefore(a: Adding, run: seq<Sys>, longer: seq<Sys>, p: Name)
    requires a.Fresh() && Enabling(a, run, p) && Continues(a, run, longer) && AppliedTwice(longer, p)
    ensures p in run[|run| - 1].world && run[|run| - 1].world[p].slot.Some?
    ensures Overlaps(run[|run| - 1].world[p], run[|run| - 1].world[p].slot.value.flushed)
  {
    BeforeEnabling(a, run, p);
    var v, v' := run[|run| - 1].world[p], longer[|longer| - 1].world[p];
    if longer != run {
      CarriedAlong(a, run, longer, p);
      CopyStays(a, longer, p, v');
    }
    TwiceMeans(v, v');
  }

  lemma CopyStays(a: Adding, run: seq<Sys>, p: Name, v: Provider)
    requires a.Fresh() && IsHistory(a, run) && p in a.Peers() && p in run[|run| - 1].world
             && v == run[|run| - 1].world[p]
    ensures v.copy.Some? ==> v.again == {}
    ensures v.copy.Some? ==> if v.sub.Enabled? then v.streamed == Span(v.sub.start, v.origin) else v.streamed == {}
  {
    EitherWay(a, run, |run| - 1, p);
  }

  lemma TwiceMeans(v: Provider, v': Provider)
    requires ReadyToEnable(v) && (v' == v || Carried(v, v')) && Twice(v')
    requires v'.again == {}
    requires if v'.sub.Enabled? then v'.streamed == Span(v'.sub.start, v'.origin) else v'.streamed == {}
    ensures Overlaps(v, v.slot.value.flushed)
  {
    var k :| k in v'.commits && Applications(v', k) >= 2;
    assert k in v'.streamed && v'.Copied(k);
    assert v.slot.value.flushed < k <= v.copy.value;
    assert v.Copied(k);
  }

  // ---------------------------------------------------------------------------------------
  // Back to the guards of the advance
  // ---------------------------------------------------------------------------------------

  /** The advance of p's slot returns success from step h to step h + 1. */
  ghost predicate AdvancedAt(a: Adding, run: seq<Sys>, h: nat, p: Name) {
    IsHistory(a, run) && p in a.Peers() && h + 1 < |run| && Ended(run[h], run[h + 1], Advance(a, p))
  }

  lemma EndedIs(a: Adding, z: Sys, z': Sys, t: Task)
    requires SysNext(a, z, z') && Ended(z, z', t)
    ensures ExecPart(a, z, z', Succeed(t))
  {
    assert Done(z'.exec, t) && !Done(z.exec, t);
    if x, e :| EnvPart(z, z', x, e) {
    } else {
      var step :| ExecPart(a, z, z', step);
      assert step.Succeed? && step.t == t;
    }
  }

  /** The state the advance found, and what it made of it. */
  lemma AdvanceStep(a: Adding, run: seq<Sys>, h: nat, p: Name)
    requires a.Fresh() && AdvancedAt(a, run, h, p)
    ensures p in run[h].world && p in run[h + 1].world && Done(run[h + 1].exec, Advance(a, p))
    ensures var v, v' := run[h].world[p], run[h + 1].world[p];
            && v.copy.Some? && v.slot.Some? && SlotAdvanced(v, v') && ProviderInv(false, v) && !v.sub.Enabled?
  {
    var t := Advance(a, p);
    HistoryInv(a, run, h);
    var z, z' := StepAt(a, run, h);
    EndedIs(a, z, z', t);
    PeerIsAbout(a, run[h].exec, run[h].world, t, p);
    PeerEffect(a, run[h].world, run[h + 1].world, t, p);
    AdvanceIsLate(a, run[h].exec, p);
    NotYetEnabled(a, run[h].exec, t, p, run[h].world[p]);
  }

  /** How far the advance will have taken the slot. */
  function Reached(v: Provider): nat
    requires v.slot.Some?
  {
    if Skips(v) then v.slot.value.flushed else Max(v.slot.value.flushed, v.target.value)
  }

  lemma ShortIff(v: Provider, v': Provider, v'': Provider)
    requires SlotAdvanced(v, v') && v.slot.Some? && v.copy.Some? && v.copy.value <= v.wal
    requires v''.slot == v'.slot && v''.copy == v'.copy && v''.missed == v'.missed
    requires forall k | k <= v.wal :: k in v''.commits <==> k in v'.commits
    ensures v''.slot.Some? && (Overlaps(v'', v''.slot.value.flushed) <==> Overlaps(v, Reached(v)))
  {
    assert v'.slot.value.flushed == Reached(v);
    forall k | v.Copied(k) || v''.Copied(k)
      ensures v.Copied(k) && v''.Copied(k) && (k in v''.commits <==> k in v.commits)
    {}
  }

  /**
   The same condition at the advance itself, several steps earlier: transactions can be applied
   twice iff a transaction of the COPY lies past the target, or past the slot's confirmed position
   if the advance is skipped or the slot is already further.
   */
  lemma DuplicateIffShort(a: Adding, run: seq<Sys>, h: nat, p: Name)
    requires a.Fresh() && AdvancedAt(a, run, h, p) && Enabling(a, run, p)
    ensures p in run[h].world && run[h].world[p].slot.Some?
    ensures (exists longer :: Continues(a, run, longer) && AppliedTwice(longer, p))
            <==> Overlaps(run[h].world[p], Reached(run[h].world[p]))
  {
    AdvanceStep(a, run, h, p);
    DuplicateIff(a, run, p);
    UntilEnabling(a, run, h + 1, p);
    ShortIff(run[h].world[p], run[h + 1].world[p], run[|run| - 1].world[p]);
  }

  lemma UntilEnabling(a: Adding, run: seq<Sys>, j: nat, p: Name)
    requires a.Fresh() && Enabling(a, run, p) && j < |run| && Done(run[j].exec, Advance(a, p))
    ensures p in run[j].world && p in run[|run| - 1].world
    ensures var v, v' := run[j].world[p], run[|run| - 1].world[p];
            && v'.slot == v.slot && v'.copy == v.copy && v'.missed == v.missed
            && forall k | k <= v.wal :: k in v'.commits <==> k in v.commits
  {
    BeforeEnabling(a, run, p);
    var i := |run| - 1;
    if j < i { CarriedTo(a, run, j, i, p); }
  }

  // ---------------------------------------------------------------------------------------
  // Lockstep
  // ---------------------------------------------------------------------------------------

  /** What the advance found: a target that moves the slot, or nothing to do on a slot still at 0. */
  predicate InStep(v: Provider)
    requires v.slot.Some?
  {
    if Skips(v) then v.slot.value.flushed == 0 else v.target.value >= v.slot.value.flushed
  }

  lemma InStepIff(v: Provider, v': Provider, origin: nat)
    requires SlotAdvanced(v, v') && v.slot.Some?
    requires origin == if v'.advanced.Some? then v'.advanced.value else 0
    ensures v'.slot.Some? && (origin == v'.slot.value.flushed <==> InStep(v))
  {
  }

  /**
   Lockstep, exactly: once the origin has followed the advance and until the subscription is
   enabled, origin and slot agree iff the advance found a target past the slot's restart
   position and at or past its confirmed position, or skipped on a slot still at 0.
   */
  lemma LockstepIff(a: Adding, run: seq<Sys>, h: nat, i: nat, p: Name)
    requires a.Fresh() && AdvancedAt(a, run, h, p) && h + 1 < i < |run|
    requires Done(run[i].exec, Task(Create, OriginAdvance(p, a.m)))
    requires p in run[i].world && !run[i].world[p].sub.Enabled?
    ensures p in run[h].world && run[h].world[p].slot.Some? && run[i].world[p].slot.Some?
    ensures run[i].world[p].origin == run[i].world[p].slot.value.flushed <==> InStep(run[h].world[p])
  {
    AdvanceStep(a, run, h, p);
    var j := h + 1;
    CarriedTo(a, run, j, i, p);
    OriginFollows(a, run, i, p);
    InStepIff(run[h].world[p], run[j].world[p], run[i].world[p].origin);
  }

  lemma OriginFollows(a: Adding, run: seq<Sys>, i: nat, p: Name)
    requires a.Fresh() && IsHistory(a, run) && i < |run| && p in a.Peers()
    requires Done(run[i].exec, Task(Create, OriginAdvance(p, a.m)))
    requires p in run[i].world && !run[i].world[p].sub.Enabled?
    ensures var v := run[i].world[p]; v.origin == if v.advanced.Some? then v.advanced.value else 0
  {
    HistoryInv(a, run, i);
    CreatesComeLast(a, run[i].exec, Task(Create, OriginAdvance(p, a.m)), Sub(p, a.m));
    assert TaskInv(a, run[i].exec, p, run[i].world[p]);
  }

  /** Out of step, on an input: a target between restart and confirmed position leaves the slot ahead of the origin. */
  lemma SlotAheadOfOrigin(v: Provider) returns (v': Provider, v'': Provider)
    requires v.sub == Disabled && !v.active && v.copy == Some(12) && v.slot == Some(SlotPos(0, 10))
             && v.target == Some(5)
    ensures SlotAdvanced(v, v') && OriginAdvanced(v', v'')
    ensures v''.slot == Some(SlotPos(0, 10)) && v''.origin == 5 && !InStep(v)
  {
    v' := v.(advanced := Some(5));
    v'' := v'.(origin := 5);
  }

  /** Twice, on an input: no target, slot at 3, watermark 8; transaction 4 was copied and is streamed again. */
  lemma FourthTwice(v: Provider) returns (v': Provider, v'': Provider, v3: Provider)
    requires v.sub == Disabled && v.copy == Some(8) && v.wal == 8 && v.slot == Some(SlotPos(0, 3)) && v.origin == 0
    requires v.target == None && v.advanced == None && !v.active && v.streamed == {} && v.again == {}
    requires 4 in v.commits && 4 !in v.missed
    ensures SlotAdvanced(v, v) && Overlaps(v, Reached(v))
    ensures SubEnabled(v, v') && EnvMove(v', v'', Connect) && EnvMove(v'', v3, Deliver) && Applications(v3, 4) == 2
  {
    v' := Enable(v);
    v'' := v'.(active := true);
    v3 := v''.(origin := 4, streamed := v''.streamed + {4});
    assert v.Copied(4);
  }

  /** An idle peer: slot before the sync event, watermark at it, no target; nothing is applied twice. */
  lemma IdlePeer(v: Provider, w: nat)
    requires v.slot.Some? && v.slot.value.flushed == w && v.copy == Some(w + 1) && v.target == None
    requires forall k | k in v.commits :: k <= w
    ensures v.slot.value.flushed < v.copy.value && !Overlaps(v, Reached(v))
  {
  }
}
