/**
 When an add can lose transactions: exactly when a peer's slot for the source was gone, so that the
 same run makes it anew.  What the source had not applied by then reaches neither the COPY nor,
 if the peer's slot for the new node begins later, the new node.
 */
module AddNodeLoss {
  import opened Resources
  import opened Planning
  import opened Executor
  import opened Desired
  import opened AddNode
  import opened AddNodeInvariant
  import opened AddNodeSafety
  import opened AddNodeFeeds
  import opened AddNodeProgress

  // ---------------------------------------------------------------------------------------
  // What the source misses
  // ---------------------------------------------------------------------------------------

  /** p's subscription into the source is being made on a missing slot, from step h to step h + 1. */
  ghost predicate FeedMade(a: Adding, run: seq<Sys>, h: nat, p: Name)
    requires h + 1 < |run| && p in run[h].world
  {
    MadeNow(a, run[h], run[h + 1], p, run[h].world[p])
  }

  /** Exactly then does the source miss something: what it has not applied of the WAL so far. */
  lemma MissedExactly(a: Adding, run: seq<Sys>, h: nat, p: Name)
    requires a.Valid() && IsHistory(a, run) && h + 1 < |run| && p in a.Peers()
    ensures p in run[h].world && p in run[h + 1].world
    ensures var v := run[h].world[p];
            run[h + 1].world[p].missed
            == v.missed + if FeedMade(a, run, h, p) then Span(v.applied, v.wal) else {}
  {
    ExecHistory(a, run, h);
    NextAt(a, run, h + 1);
    MissedNow(a, run[h], run[h + 1], p);
  }

  ghost predicate MadeNow(a: Adding, z: Sys, z': Sys, p: Name, v: Provider) {
    v.feed == None && Ended(z, z', Task(Create, Sub(p, a.s)))
  }

  lemma MissedNow(a: Adding, z: Sys, z': Sys, p: Name)
    requires a.Valid() && SysNext(a, z, z') && p in a.Peers() && p in z.world
    ensures p in z'.world
    ensures var v := z.world[p];
            z'.world[p].missed == v.missed + if MadeNow(a, z, z', p, v) then Span(v.applied, v.wal) else {}
  {
    if x, e :| EnvPart(z, z', x, e) {
      assert z'.exec == z.exec;
    } else {
      var step :| ExecPart(a, z, z', step);
      EndsOnly(a, z, z', step);
      if step.Succeed? { MissedBy(a, step.t, z.world, z'.world, p); }
    }
  }

  lemma MissedBy(a: Adding, t: Task, w: World, w': World, p: Name)
    requires a.m != a.s && p in w && p != a.s && Effect(a, t, w, w')
    ensures p in w'
    ensures w'[p].missed
            == w[p].missed
               + if w[p].feed == None && t == Task(Create, Sub(p, a.s)) then Span(w[p].applied, w[p].wal) else {}
  {
    EffectOnFeed(a, t, w, w', p);
  }

  /** The task that returns is the only one that has ended. */
  lemma EndsOnly(a: Adding, z: Sys, z': Sys, step: ExecStep)
    requires ExecPart(a, z, z', step)
    ensures forall u :: Ended(z, z', u) <==> step.Succeed? && step.t == u
  {
    forall u | Ended(z, z', u) ensures step.Succeed? && step.t == u {
      assert z'.exec.st[u] == Ok && z.exec.st[u] == Running;
    }
  }

  lemma {:induction false} IntactHistory(a: Adding, run: seq<Sys>, h: nat, p: Name)
    requires a.Valid() && a.Intact() && IsHistory(a, run) && h < |run| && p in a.Peers()
    ensures p in run[0].world && p in run[h].world
    ensures run[h].world[p].feed.Some? && run[h].world[p].missed == run[0].world[p].missed
  {
    if h == 0 {
      assert ProviderInit(a, p, run[0].world[p]) && FeedFits(a, p, run[0].world[p]);
    } else {
      var g := h - 1;
      IntactHistory(a, run, g, p);
      ExecHistory(a, run, g);
      assert run[g + 1] == run[h];
      NextAt(a, run, h);
      IntactStep(a, run[g], run[h], p);
    }
  }

  lemma IntactStep(a: Adding, z: Sys, z': Sys, p: Name)
    requires a.Valid() && a.Intact() && ExecInv(a.Plan(), z.exec) && SysNext(a, z, z') && p in a.Peers()
    requires p in z.world && z.world[p].feed.Some?
    ensures p in z'.world && z'.world[p].feed.Some? && z'.world[p].missed == z.world[p].missed
  {
    if x, e :| EnvPart(z, z', x, e) {
    } else {
      var step :| ExecPart(a, z, z', step);
      if step.Succeed? {
        NotDropped(a, z.exec, step.t, p);
        FeedStays(a, step.t, z.world, z'.world, p);
      }
    }
  }

  lemma NotDropped(a: Adding, s: Exec, t: Task, p: Name)
    requires a.Valid() && a.Intact() && ExecInv(a.Plan(), s) && t in s.st && p in a.Peers()
    ensures t != Task(Delete, Sub(p, a.s))
  {
    PlannedTask(a, s, t);
    assert a.Fits(a.feeds, p, a.s);
  }

  lemma FeedStays(a: Adding, t: Task, w: World, w': World, p: Name)
    requires a.m != a.s && p in w && p != a.s && Effect(a, t, w, w') && w[p].feed.Some?
             && t != Task(Delete, Sub(p, a.s))
    ensures p in w' && w'[p].feed.Some? && w'[p].missed == w[p].missed
  {
    EffectOnFeed(a, t, w, w', p);
  }

  /** With every peer's slot for the source in place, nothing the source had or gets is lost. */
  lemma NoLoss(a: Adding, run: seq<Sys>, i: nat, x: Name, k: nat)
    requires a.Fresh() && a.Intact() && IsHistory(a, run) && i < |run| && x in a.Providers()
    ensures x in run[0].world && x in run[i].world
    ensures run[i].world[x].copy.Some? && k !in run[0].world[x].missed ==> Accounted(run[i].world[x], k)
  {
    ExecHistory(a, run, 0);
    NoGap(a, run, i, x, k);
    if x != a.s { IntactHistory(a, run, i, x); }
  }

  // ---------------------------------------------------------------------------------------
  // A run that loses a transaction
  // ---------------------------------------------------------------------------------------

  /** Record k lies behind the slot for m and has not been streamed, so it never will be. */
  predicate Behind(v: Provider, k: nat) {
    && k in v.commits && 0 < k <= v.wal && k !in v.streamed
    && (v.slot.Some? ==> k <= v.slot.value.flushed) && (v.active ==> v.slot.Some? && k <= v.origin)
  }

  /** Nor will it reach the new node with the COPY. */
  predicate Doomed(v: Provider, k: nat) {
    && Behind(v, k)
    && (k in v.missed || (v.feed == None && v.applied < k && (v.copy.Some? ==> v.copy.value < k)))
  }

  lemma MoveDooms(v: Provider, v': Provider, e: EnvStep, k: nat)
    requires Behind(v, k) && EnvMove(v, v', e)
    ensures Behind(v', k) && (Doomed(v, k) ==> Doomed(v', k))
  {
  }

  lemma StepDooms(id: Identifier, v: Provider, v': Provider, k: nat)
    requires Behind(v, k) && StepOf(id, v, v')
    ensures Behind(v', k) && (Doomed(v, k) ==> Doomed(v', k))
  {
  }

  lemma FeedDooms(action: Action, v: Provider, v': Provider, k: nat)
    requires Behind(v, k) && FeedMoved(action, v, v')
    ensures Behind(v', k) && (Doomed(v, k) ==> Doomed(v', k))
  {
  }

  lemma EffectDooms(a: Adding, t: Task, w: World, w': World, p: Name, k: nat)
    requires a.m != a.s && p in w && p != a.s && Effect(a, t, w, w') && Behind(w[p], k)
    ensures p in w' && Behind(w'[p], k) && (Doomed(w[p], k) ==> Doomed(w'[p], k))
  {
    if t.id.Sub? {
      SubDooms(a, t, w, w', p, k);
    } else if t.action == Create && t.id.Ephemeral() {
      assert OnlyAt(w, w', ProviderOf(t.id));
      if ProviderOf(t.id) == p { StepDooms(t.id, w[p], w'[p], k); }
    }
  }

  lemma SubDooms(a: Adding, t: Task, w: World, w': World, p: Name, k: nat)
    requires a.m != a.s && p in w && p != a.s && Effect(a, t, w, w') && t.id.Sub? && Behind(w[p], k)
    ensures p in w' && Behind(w'[p], k) && (Doomed(w[p], k) ==> Doomed(w'[p], k))
  {
    if t.id.dst == a.m && t.id.src == p && t.action == Create { StepDooms(t.id, w[p], w'[p], k); }
    if Feeds(a, t, p) { FeedOrDrop(a, t, w, w', p); FeedDooms(t.action, w[p], w'[p], k); }
  }

  lemma NextDooms(a: Adding, z: Sys, z': Sys, p: Name, k: nat)
    requires a.m != a.s && p != a.s && SysNext(a, z, z') && p in z.world && Behind(z.world[p], k)
    ensures p in z'.world && Behind(z'.world[p], k) && (Doomed(z.world[p], k) ==> Doomed(z'.world[p], k))
  {
    if x, e :| EnvPart(z, z', x, e) {
      if x == p { MoveDooms(z.world[p], z'.world[p], e, k); }
    } else {
      var step :| ExecPart(a, z, z', step);
      if step.Succeed? { EffectDooms(a, step.t, z.world, z'.world, p, k); }
    }
  }

  lemma {:induction false} StaysDoomed(a: Adding, run: seq<Sys>, h: nat, p: Name, k: nat)
    requires a.m != a.s && p != a.s && IsHistory(a, run) && h < |run|
    requires p in run[0].world && Doomed(run[0].world[p], k)
    ensures p in run[h].world && Doomed(run[h].world[p], k)
  {
    if h > 0 {
      var g := h - 1;
      StaysDoomed(a, run, g, p, k);
      assert run[g + 1] == run[h];
      NextAt(a, run, h);
      NextDooms(a, run[g], run[h], p, k);
    }
  }

  /** A transaction that the source had not missed before is not accounted for at the end. */
  ghost predicate Loses(a: Adding, run: seq<Sys>, x: Name, k: nat) {
    && Completed(a, run) && x in a.Providers() && x in run[0].world && x in run[|run| - 1].world
    && k in run[|run| - 1].world[x].commits && k !in run[0].world[x].missed
    && !Accounted(run[|run| - 1].world[x], k)
  }

  /** One transaction that the source has not applied, and that lies behind the peer's slot for m or precedes it. */
  lemma LosingRun(a: Adding, p: Name) returns (run: seq<Sys>)
    requires a.Fresh() && p in a.Peers() && p !in a.feeds
    ensures Loses(a, run, p, 1)
  {
    var z := InitialSys(a, 1);
    assert z.world[p] == Initial(a, p, 1) && Doomed(z.world[p], 1);
    assert Able(a, [z]) && Promising(a, [z]);
    run := AddCompletes(a, [z]);
    assert run[0] == z;
    var h := |run| - 1;
    StaysDoomed(a, run, h, p, 1);
    FeedAtEnd(a, run, p);
    CompletedStreams(a, run, p, 1);
  }

  lemma FeedAtEnd(a: Adding, run: seq<Sys>, p: Name)
    requires a.Valid() && Completed(a, run) && p in a.Peers()
    ensures p in run[|run| - 1].world && run[|run| - 1].world[p].feed.Some?
  {
    FeedHistory(a, run, |run| - 1, p);
    if Sub(p, a.s) in a.creates { CompletedIsDone(a, run, Sub(p, a.s)); }
  }

  /** A completed add can lose a transaction iff some peer's slot for the source was gone when it began. */
  lemma LossIff(a: Adding)
    requires a.Fresh()
    ensures (exists run, x, k :: Loses(a, run, x, k)) <==> !a.Intact()
  {
    if a.Intact() {
      forall run, x, k ensures !Loses(a, run, x, k) {
        if Loses(a, run, x, k) {
          CompletedStreams(a, run, x, k);
          NoLoss(a, run, |run| - 1, x, k);
        }
      }
    } else {
      var p :| p in a.Peers() && p !in a.feeds;
      var run := LosingRun(a, p);
    }
  }
}
