/**
 Running the add again after its COPY: a retry of an attempt that failed later, or a later run over
 the same configuration.  There is no second COPY, so everything past the first one has to come
 over the slots that are there.
 */
module AddNodeRetry {
  import opened Resources
  import opened Planning
  import opened Executor
  import opened Desired
  import opened AddNode
  import opened AddNodeInvariant
  import opened AddNodeSafety
  import opened AddNodeAdvance
  import opened AddNodeProgress
  import opened AddNodeLoss

  // ---------------------------------------------------------------------------------------
  // What a slot that is there guarantees
  // ---------------------------------------------------------------------------------------

  /** Past the COPY nothing has been left out, and nothing that is going to be taken over leaves anything out. */
  ghost predicate Kept(v: Provider) {
    && v.copy.Some? && v.slot.Some? && v.CoveredTo(v.Position())
    && (v.target.Some? ==> v.CoveredTo(v.target.value)) && (v.advanced.Some? ==> v.CoveredTo(v.advanced.value))
  }

  /** m has record k, as far as the COPY could bring it, or will get it. */
  predicate Held(v: Provider, k: nat) {
    || (v.copy.Some? && k <= v.copy.value) || k in v.streamed
    || (v.slot.Some? && v.Position() < k)
  }

  lemma KeptHolds(v: Provider, k: nat)
    requires Kept(v)
    ensures Held(v, k)
  {
  }

  lemma StepKeeps(id: Identifier, v: Provider, v': Provider)
    requires Kept(v) && StepOf(id, v, v') && (id.Ephemeral() || id.Sub?)
    ensures Kept(v')
  {
    if id.SlotAdvance? {
      AdvanceKeeps(v, v');
    } else if id.OriginAdvance? {
      OriginKeeps(v, v');
    } else if id.Sub? {
      SubStepKeeps(v, v');
    } else {
      OtherStepKeeps(id, v, v');
    }
  }

  lemma AdvanceKeeps(v: Provider, v': Provider)
    requires Kept(v) && SlotAdvanced(v, v')
    ensures Kept(v')
  {
  }

  lemma OriginKeeps(v: Provider, v': Provider)
    requires Kept(v) && OriginAdvanced(v, v')
    ensures Kept(v')
  {
  }

  lemma SubStepKeeps(v: Provider, v': Provider)
    requires Kept(v) && SubEnabled(v, v')
    ensures Kept(v')
  {
    assert v'.Position() == v.Position();
  }

  lemma OtherStepKeeps(id: Identifier, v: Provider, v': Provider)
    requires Kept(v) && StepOf(id, v, v') && id.Ephemeral() && !id.SlotAdvance? && !id.OriginAdvance?
    ensures Kept(v')
  {
    assert v'.Position() == v.Position() && v'.advanced == v.advanced;
  }

  lemma MoveKeeps(v: Provider, v': Provider, e: EnvStep)
    requires Kept(v) && EnvMove(v, v', e)
    ensures Kept(v')
  {
  }

  lemma FeedKeeps(action: Action, v: Provider, v': Provider)
    requires Kept(v) && FeedMoved(action, v, v')
    ensures Kept(v')
  {
  }

  lemma EffectKeeps(a: Adding, t: Task, w: World, w': World, x: Name)
    requires a.m != a.s && x in w && Effect(a, t, w, w') && Kept(w[x])
    requires t != Task(Create, Sub(a.s, a.m)) && t != Task(Delete, Sub(x, a.m))
    ensures x in w' && Kept(w'[x])
  {
    if t.id.Sub? {
      SubKeeps(a, t, w, w', x);
    } else if t.action == Create && t.id.Ephemeral() {
      assert OnlyAt(w, w', ProviderOf(t.id));
      if ProviderOf(t.id) == x { StepKeeps(t.id, w[x], w'[x]); }
    }
  }

  lemma SubKeeps(a: Adding, t: Task, w: World, w': World, x: Name)
    requires a.m != a.s && x in w && Effect(a, t, w, w') && t.id.Sub? && Kept(w[x])
    requires t != Task(Create, Sub(a.s, a.m)) && t != Task(Delete, Sub(x, a.m))
    ensures x in w' && Kept(w'[x])
  {
    if t.id == Sub(x, a.m) {
      if t.action == Create { StepKeeps(t.id, w[x], w'[x]); }
    } else if Feeds(a, t, x) && x != a.s {
      FeedOrDrop(a, t, w, w', x);
      FeedKeeps(t.action, w[x], w'[x]);
    } else {
      assert w'[x] == w[x];
    }
  }

  /** Without a second COPY, and with a slot that is there, neither is planned. */
  lemma NoCopyNoDrop(a: Adding, s: Exec, t: Task, x: Name)
    requires a.Resumed() && ExecInv(a.Plan(), s) && t in s.st && x in a.Providers() && x in a.slots
    ensures t != Task(Create, Sub(a.s, a.m)) && t != Task(Delete, Sub(x, a.m))
  {
    PlannedTask(a, s, t);
    assert a.Fits(a.slots, x, a.m);
  }

  lemma NextKeeps(a: Adding, z: Sys, z': Sys, x: Name)
    requires a.Resumed() && ExecInv(a.Plan(), z.exec) && SysNext(a, z, z') && x in a.Providers() && x in a.slots
    requires x in z.world && Kept(z.world[x])
    ensures x in z'.world && Kept(z'.world[x])
  {
    if y, e :| EnvPart(z, z', y, e) {
      if y == x { MoveKeeps(z.world[x], z'.world[x], e); }
    } else {
      var step :| ExecPart(a, z, z', step);
      if step.Succeed? {
        NoCopyNoDrop(a, z.exec, step.t, x);
        EffectKeeps(a, step.t, z.world, z'.world, x);
      }
    }
  }

  /** In every interleaving, a node whose slot for m is there keeps it, and leaves nothing out. */
  lemma {:induction false} KeptHistory(a: Adding, run: seq<Sys>, h: nat, x: Name)
    requires a.Resumed() && IsHistory(a, run) && h < |run| && x in a.Providers() && x in a.slots
    ensures x in run[h].world && Kept(run[h].world[x])
  {
    if h == 0 {
      assert ProviderInit(a, x, run[0].world[x]);
    } else {
      var g := h - 1;
      KeptHistory(a, run, g, x);
      ExecHistory(a, run, g);
      assert run[g + 1] == run[h];
      NextAt(a, run, h);
      NextKeeps(a, run[g], run[h], x);
    }
  }

  /** An attempt that fails after its COPY leaves every node in such a state, at whatever step. */
  lemma LeftAfterCopy(a: Adding, run: seq<Sys>, i: nat, x: Name)
    requires a.Fresh() && IsHistory(a, run) && i < |run| && x in a.Providers()
    ensures x in run[i].world
    ensures var v := run[i].world[x];
            v.copy.Some? ==> v.copy.value <= v.wal && v.slot.Some? && v.CoveredTo(v.Position())
  {
    EitherWay(a, run, i, x);
  }

  // ---------------------------------------------------------------------------------------
  // What a retry after the COPY can lose
  // ---------------------------------------------------------------------------------------

  lemma CopyStays(a: Adding, t: Task, w: World, w': World, x: Name)
    requires x in w && Effect(a, t, w, w') && t != Task(Create, Sub(a.s, a.m))
    ensures x in w' && w'[x].copy == w[x].copy
  {
    if t.action == Create && t.id.Ephemeral() {
      assert OnlyAt(w, w', ProviderOf(t.id));
      if ProviderOf(t.id) == x { StepKeepsCopy(t.id, w[x], w'[x]); }
    }
  }

  lemma {:induction false} CopyHistory(a: Adding, run: seq<Sys>, f: nat, h: nat, x: Name)
    requires a.Resumed() && IsHistory(a, run) && f <= h < |run| && x in run[f].world
    ensures x in run[h].world && run[h].world[x].copy == run[f].world[x].copy
    decreases h - f
  {
    if f < h {
      ExecHistory(a, run, f);
      NextAt(a, run, f + 1);
      CopyStep(a, run[f], run[f + 1], x);
      CopyHistory(a, run, f + 1, h, x);
    }
  }

  lemma CopyStep(a: Adding, z: Sys, z': Sys, x: Name)
    requires a.Resumed() && ExecInv(a.Plan(), z.exec) && SysNext(a, z, z') && x in z.world
    ensures x in z'.world && z'.world[x].copy == z.world[x].copy
  {
    if y, e :| EnvPart(z, z', y, e) {
    } else {
      var step :| ExecPart(a, z, z', step);
      if step.Succeed? {
        PlannedTask(a, z.exec, step.t);
        CopyStays(a, step.t, z.world, z'.world, x);
      }
    }
  }

  /** Some transaction past the COPY has not been streamed at the end, and the slot is past it. */
  ghost predicate LeavesOut(a: Adding, run: seq<Sys>, x: Name, k: nat) {
    && Completed(a, run) && x in a.Providers() && x in run[|run| - 1].world
    && k in run[|run| - 1].world[x].commits && !Held(run[|run| - 1].world[x], k)
  }

  /** A transaction commits before the slot is made anew. */
  lemma RetryLosingRun(a: Adding, p: Name) returns (run: seq<Sys>)
    requires a.Resumed() && p in a.Peers() && p !in a.slots
    ensures LeavesOut(a, run, p, 1)
  {
    var start := CommitFirst(a, p);
    run := AddCompletes(a, start);
    assert run[0] == start[0] && run[1] == start[1];
    var h := |run| - 1;
    StaysBehind(a, run, h, p, 1);
    CopyHistory(a, run, 0, h, p);
  }

  lemma CommitFirst(a: Adding, p: Name) returns (run: seq<Sys>)
    requires a.Resumed() && p in a.Peers() && p !in a.slots
    ensures |run| == 2 && Promising(a, run) && Able(a, run)
    ensures p in run[0].world && run[0].world[p].copy == Some(0) && p in run[1].world && Behind(run[1].world[p], 1)
  {
    var z := InitialSys(a, 0);
    var v := z.world[p];
    assert v == Initial(a, p, 0);
    var v' := FirstCommit(a, p, v);
    run := Second(a, z, p, v');
    QuietAfter(z.world, p, v');
  }

  lemma Second(a: Adding, z: Sys, p: Name, v': Provider) returns (run: seq<Sys>)
    requires SysInit(a, z) && p in z.world && EnvMove(z.world[p], v', Commit)
    ensures IsHistory(a, run) && run == [z, Sys(z.exec, z.world[p := v'])]
  {
    var z' := Sys(z.exec, z.world[p := v']);
    assert EnvPart(z, z', p, Commit);
    run := [z, z'];
  }

  lemma QuietAfter(w: World, p: Name, v': Provider)
    requires Quiet(w) && v'.target == None && v'.advanced == None
    ensures Quiet(w[p := v'])
  {
  }

  lemma FirstCommit(a: Adding, p: Name, v: Provider) returns (v': Provider)
    requires a.copied && p !in a.slots && v == Initial(a, p, 0)
    ensures EnvMove(v, v', Commit) && Behind(v', 1) && v.copy == Some(0) && v'.target == None && v'.advanced == None
  {
    v' := v.(wal := 1, commits := v.commits + {1});
  }

  lemma {:induction false} StaysBehind(a: Adding, run: seq<Sys>, h: nat, p: Name, k: nat)
    requires a.m != a.s && p != a.s && IsHistory(a, run) && 1 <= h < |run|
    requires p in run[1].world && Behind(run[1].world[p], k)
    ensures p in run[h].world && Behind(run[h].world[p], k)
  {
    if h > 1 {
      var g := h - 1;
      StaysBehind(a, run, g, p, k);
      assert run[g + 1] == run[h];
      NextAt(a, run, h);
      NextDooms(a, run[g], run[h], p, k);
    }
  }

  /**
   A retry after the COPY can leave out a transaction iff some node's slot for the new one is gone:
   the slot is made anew past it, and there is no second COPY.
   */
  lemma RetryLosesIff(a: Adding)
    requires a.Resumed()
    ensures (exists run, x, k :: LeavesOut(a, run, x, k)) <==> !(a.Providers() <= a.slots)
  {
    assert a.s in a.Providers() && a.Fits(a.slots, a.s, a.m);
    if a.Providers() <= a.slots {
      forall run: seq<Sys>, x, k ensures !LeavesOut(a, run, x, k) {
        if LeavesOut(a, run, x, k) {
          KeptHistory(a, run, |run| - 1, x);
          KeptHolds(run[|run| - 1].world[x], k);
        }
      }
    } else {
      var p :| p in a.Providers() && p !in a.slots;
      var run := RetryLosingRun(a, p);
    }
  }

  // ---------------------------------------------------------------------------------------
  // A later run on a node that has joined
  // ---------------------------------------------------------------------------------------

  /** The configuration still bootstraps m, and every subscription into m is enabled and has its slot. */
  ghost predicate Rerun(a: Adding) {
    a.Resumed() && forall x | x in a.Providers() ::
      Sub(x, a.m) !in a.creates && Sub(x, a.m) !in a.updates && Sub(x, a.m) !in a.deletes
  }

  /** t is one of the two bodies that move a slot or an origin of x. */
  predicate Advances(t: Task, x: Name) {
    t.action == Create && ((t.id.SlotAdvance? && t.id.provider == x) || (t.id.OriginAdvance? && t.id.provider == x))
  }

  predicate LeftAlone(v: Provider, v': Provider) {
    v'.sub == v.sub && v'.slot == v.slot && v'.origin == v.origin && v'.active == v.active && v'.advanced == v.advanced
  }

  lemma StepLeavesAlone(id: Identifier, v: Provider, v': Provider)
    requires StepOf(id, v, v') && v.Streaming() && !id.SlotAdvance? && !id.OriginAdvance?
    ensures LeftAlone(v, v')
  {
  }

  /** What any step of the run does to a node that streams into m: only the two advances touch it. */
  lemma EffectOnJoined(a: Adding, t: Task, w: World, w': World, x: Name)
    requires a.m != a.s && x in w && Effect(a, t, w, w') && w[x].Streaming() && !(t.id.Sub? && t.id == Sub(x, a.m))
    requires t != Task(Create, Sub(a.s, a.m))
    ensures x in w' && (!Advances(t, x) ==> LeftAlone(w[x], w'[x]))
    ensures Advances(t, x) ==> StepOf(t.id, w[x], w'[x])
  {
    if t.id.Sub? {
      if Feeds(a, t, x) && x != a.s { FeedOrDrop(a, t, w, w', x); }
    } else if t.action == Create && t.id.Ephemeral() {
      assert OnlyAt(w, w', ProviderOf(t.id));
      if ProviderOf(t.id) == x && !Advances(t, x) { StepLeavesAlone(t.id, w[x], w'[x]); }
    }
  }

  lemma NotIntoJoined(a: Adding, s: Exec, t: Task, x: Name)
    requires Rerun(a) && ExecInv(a.Plan(), s) && t in s.st && x in a.Providers()
    ensures t.id != Sub(x, a.m) && t != Task(Create, Sub(a.s, a.m))
  {
    PlannedTask(a, s, t);
    assert a.s in a.Providers();
  }

  /** In every interleaving every subscription into m stays enabled, on its slot. */
  lemma {:induction false} StaysJoined(a: Adding, run: seq<Sys>, h: nat, x: Name)
    requires Rerun(a) && IsHistory(a, run) && h < |run| && x in a.Providers()
    ensures x in run[0].world && x in run[h].world && run[h].world[x].Streaming()
    ensures run[h].world[x].sub == run[0].world[x].sub
  {
    ExecHistory(a, run, 0);
    if h == 0 {
      assert ProviderInit(a, x, run[0].world[x]) && a.Fits(a.slots, x, a.m);
    } else {
      var g := h - 1;
      StaysJoined(a, run, g, x);
      ExecHistory(a, run, g);
      assert run[g + 1] == run[h];
      NextAt(a, run, h);
      JoinedStep(a, run[g], run[h], x);
    }
  }

  lemma JoinedStep(a: Adding, z: Sys, z': Sys, x: Name)
    requires Rerun(a) && ExecInv(a.Plan(), z.exec) && SysNext(a, z, z') && x in a.Providers()
    requires x in z.world && z.world[x].Streaming()
    ensures x in z'.world && z'.world[x].Streaming() && z'.world[x].sub == z.world[x].sub
  {
    if y, e :| EnvPart(z, z', y, e) {
    } else {
      var step :| ExecPart(a, z, z', step);
      if step.Succeed? {
        NotIntoJoined(a, z.exec, step.t, x);
        EffectOnJoined(a, step.t, z.world, z'.world, x);
      }
    }
  }

  /** A later run loses nothing, whether or not the workers are up: everything past the COPY comes or has come. */
  lemma RerunLosesNothing(a: Adding, run: seq<Sys>, h: nat, x: Name, k: nat)
    requires Rerun(a) && IsHistory(a, run) && h < |run| && x in a.Providers()
    ensures x in run[0].world && x in run[h].world
    ensures run[h].world[x].Streaming() && run[h].world[x].sub == run[0].world[x].sub && Held(run[h].world[x], k)
  {
    assert a.Fits(a.slots, x, a.m);
    StaysJoined(a, run, h, x);
    KeptHistory(a, run, h, x);
    KeptHolds(run[h].world[x], k);
  }

  /** Task t returns success from step h to step h + 1. */
  ghost predicate EndsAt(a: Adding, run: seq<Sys>, h: nat, t: Task) {
    IsHistory(a, run) && h + 1 < |run| && Ended(run[h], run[h + 1], t)
  }

  lemma RerunAdvances(a: Adding, run: seq<Sys>, h: nat, p: Name, t: Task)
    requires Rerun(a) && EndsAt(a, run, h, t) && p in a.Peers() && Advances(t, p)
    ensures p in run[h].world && p in run[h + 1].world && StepOf(t.id, run[h].world[p], run[h + 1].world[p])
  {
    ExecHistory(a, run, h);
    NextAt(a, run, h + 1);
    StaysJoined(a, run, h, p);
    EndedIs(a, run[h], run[h + 1], t);
    EffectOnJoined(a, t, run[h].world, run[h + 1].world, p);
  }

  /** What the slot advance recorded is what the origin advance finds. */
  ghost predicate Recorded(a: Adding, z: Sys, p: Name, r: Option<nat>) {
    p in z.world && z.world[p].Streaming() && z.world[p].advanced == r && Done(z.exec, Advance(a, p))
  }

  lemma {:induction false} RecordedStays(a: Adding, run: seq<Sys>, f: nat, g: nat, p: Name, r: Option<nat>)
    requires Rerun(a) && IsHistory(a, run) && p in a.Peers() && f <= g < |run| && Recorded(a, run[f], p, r)
    ensures Recorded(a, run[g], p, r)
    decreases g - f
  {
    if f < g {
      RecordedNext(a, run, f, p, r);
      RecordedStays(a, run, f + 1, g, p, r);
    }
  }

  lemma RecordedNext(a: Adding, run: seq<Sys>, e: nat, p: Name, r: Option<nat>)
    requires Rerun(a) && IsHistory(a, run) && p in a.Peers() && e + 1 < |run| && Recorded(a, run[e], p, r)
    ensures Recorded(a, run[e + 1], p, r)
  {
    ExecHistory(a, run, e);
    NextAt(a, run, e + 1);
    RecordedStep(a, run[e], run[e + 1], p, r);
  }

  lemma RecordedStep(a: Adding, z: Sys, z': Sys, p: Name, r: Option<nat>)
    requires Rerun(a) && ExecInv(a.Plan(), z.exec) && SysNext(a, z, z') && p in a.Peers() && Recorded(a, z, p, r)
    ensures Recorded(a, z', p, r)
  {
    StaysDone(a, z, z', Advance(a, p));
    JoinedStep(a, z, z', p);
    RecordStays(a, z, z', p);
  }

  lemma RecordStays(a: Adding, z: Sys, z': Sys, p: Name)
    requires Rerun(a) && ExecInv(a.Plan(), z.exec) && SysNext(a, z, z') && p in a.Peers()
    requires p in z.world && z.world[p].Streaming() && Done(z.exec, Advance(a, p))
    ensures p in z'.world && z'.world[p].advanced == z.world[p].advanced
  {
    if y, e :| EnvPart(z, z', y, e) {
      if y == p { assert EnvMove(z.world[p], z'.world[p], e); }
    } else {
      var step :| ExecPart(a, z, z', step);
      if step.Succeed? { RecordedTask(a, z.exec, step.t, z.world, z'.world, p); }
    }
  }

  lemma RecordedTask(a: Adding, s: Exec, t: Task, w: World, w': World, p: Name)
    requires Rerun(a) && ExecInv(a.Plan(), s) && t in s.st && s.st[t] == Running && p in a.Peers()
    requires p in w && w[p].Streaming() && Done(s, Advance(a, p)) && Effect(a, t, w, w')
    ensures p in w' && w'[p].advanced == w[p].advanced
  {
    NotIntoJoined(a, s, t, p);
    EffectOnJoined(a, t, w, w', p);
    if Advances(t, p) && t.id.SlotAdvance? { OnlyOneAdvance(a, s, t, p); }
  }

  lemma OnlyOneAdvance(a: Adding, s: Exec, t: Task, p: Name)
    requires a.Valid() && ExecInv(a.Plan(), s) && t in s.st && Advances(t, p) && t.id.SlotAdvance? && p in a.Peers()
    ensures t == Advance(a, p)
  {
    PlannedTask(a, s, t);
  }

  /**
   A later run leaves slot and origin of a streaming peer alone iff the advance finds the slot
   active, no target, or a target at or behind the slot's restart position; or, by coincidence, a
   target that the slot has passed and that is just where the origin stands.
   */
  lemma LeavesAloneIff(a: Adding, run: seq<Sys>, h: nat, j: nat, p: Name)
    requires Rerun(a) && p in a.Peers() && h < j
    requires EndsAt(a, run, h, Advance(a, p)) && EndsAt(a, run, j, Task(Create, OriginAdvance(p, a.m)))
    ensures p in run[h].world && p in run[h + 1].world && p in run[j].world && p in run[j + 1].world
    ensures run[h].world[p].slot.Some?
    ensures var v := run[h].world[p];
            (run[h + 1].world[p].slot == v.slot && run[j + 1].world[p].origin == run[j].world[p].origin)
            <==> Skips(v) || (v.target.value <= v.slot.value.flushed && v.target.value == run[j].world[p].origin)
  {
    var v, v' := BeforeAndAfter(a, run, h, p, Advance(a, p));
    var u, u' := BeforeAndAfter(a, run, j, p, Task(Create, OriginAdvance(p, a.m)));
    var f := h + 1;
    RecordedStays(a, run, f, j, p, v'.advanced);
    AloneValues(v, v', u, u');
  }

  lemma BeforeAndAfter(a: Adding, run: seq<Sys>, h: nat, p: Name, t: Task) returns (v: Provider, v': Provider)
    requires Rerun(a) && EndsAt(a, run, h, t) && p in a.Peers() && Advances(t, p)
    ensures p in run[h].world && p in run[h + 1].world && v == run[h].world[p] && v' == run[h + 1].world[p]
    ensures v.slot.Some? && StepOf(t.id, v, v')
            && Recorded(a, run[h + 1], p, v'.advanced) == Done(run[h + 1].exec, Advance(a, p))
    ensures Done(run[h + 1].exec, t)
  {
    var f := h + 1;
    StaysJoined(a, run, h, p);
    StaysJoined(a, run, f, p);
    RerunAdvances(a, run, h, p, t);
    v, v' := run[h].world[p], run[h + 1].world[p];
  }

  lemma AloneValues(v: Provider, v': Provider, u: Provider, u': Provider)
    requires v.slot.Some? && SlotAdvanced(v, v') && OriginAdvanced(u, u') && u.advanced == v'.advanced
    ensures (v'.slot == v.slot && u'.origin == u.origin)
            <==> Skips(v) || (v.target.value <= v.slot.value.flushed && v.target.value == u.origin)
  {
  }

  /** Every other step of the run leaves them alone. */
  lemma OthersLeaveAlone(a: Adding, run: seq<Sys>, h: nat, p: Name, t: Task)
    requires Rerun(a) && p in a.Peers() && EndsAt(a, run, h, t) && !Advances(t, p)
    ensures p in run[h].world && p in run[h + 1].world && LeftAlone(run[h].world[p], run[h + 1].world[p])
  {
    ExecHistory(a, run, h);
    NextAt(a, run, h + 1);
    StaysJoined(a, run, h, p);
    EndedIs(a, run[h], run[h + 1], t);
    NotIntoJoined(a, run[h].exec, t, p);
    EffectOnJoined(a, t, run[h].world, run[h + 1].world, p);
  }

  /** The stream goes back iff the advance is not skipped and ends short of what m has got. */
  lemma GoesBackIff(v: Provider, v': Provider, v'': Provider)
    requires v.slot.Some? && SlotAdvanced(v, v') && OriginAdvanced(v', v'')
    ensures v''.Position() < v.Position() <==> !Skips(v) && Max(v.slot.value.flushed, v.target.value) < v.origin
  {
  }

  /** On an input: a worker that is down, slot at 3, origin at 10, target 5; record 6 is streamed again. */
  lemma SixthAgain(v: Provider) returns (v1: Provider, v2: Provider, v3: Provider, v4: Provider)
    requires v.sub == Enabled(0) && !v.active && v.slot == Some(SlotPos(0, 3)) && v.origin == 10 && v.wal == 10
    requires v.streamed == Span(0, 10) && v.again == {} && v.target == Some(5) && v.copy == Some(0) && 6 in v.commits
    ensures SlotAdvanced(v, v1) && OriginAdvanced(v1, v2) && EnvMove(v2, v3, Connect) && EnvMove(v3, v4, Deliver)
    ensures Applications(v, 6) == 1 && Applications(v4, 6) == 2
  {
    v1 := v.(slot := Some(SlotPos(0, 5)), advanced := Some(5));
    v2 := v1.(origin := 5);
    v3 := v2.(active := true);
    v4 := v3.(origin := 6, streamed := v3.streamed + {6}, again := {6});
    assert v3.again + {6} == {6};
  }
}
