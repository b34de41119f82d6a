/**
 The streams from the peers into the source during an add: when the source gets what it needs,
 and what it never gets because a peer's slot for it was gone.  None of this depends on what an
 earlier run left of the subscriptions into the new node.
 */
module AddNodeFeeds {
  import opened Resources
  import opened Planning
  import opened Executor
  import opened Desired
  import opened AddNode
  import opened AddNodeInvariant
  import opened AddNodeSafety

  // ---------------------------------------------------------------------------------------
  // Invariant
  // ---------------------------------------------------------------------------------------

  /** x→source works: it did from the start, or has been created or enabled. */
  ghost predicate Flows(a: Adding, s: Exec, x: Name) {
    && (Sub(x, a.s) in a.creates ==> Done(s, Task(Create, Sub(x, a.s))))
    && (Sub(x, a.s) in a.updates ==> Done(s, Task(Update, Sub(x, a.s))))
  }

  ghost predicate FeedSide(a: Adding, s: Exec, p: Name, v: Provider) {
    && FeedInv(v) && SkippedIsMissed(v) && (v.mark.Some? ==> v.mark.value <= v.wal)
    && (Done(s, Task(Create, SyncEvent(p, a.s))) <==> v.mark.Some?)
    && (Flows(a, s, p) ==> v.toSource && v.feed.Some?)
    && (Sub(p, a.s) !in a.creates || Done(s, Task(Create, Sub(p, a.s))) ==> v.feed.Some?)
    && (v.feed.Some? && v.mark.Some? && v.applied < v.mark.value ==> v.feed.value < v.mark.value)
  }

  /** Everything FeedSide looks at, and what the source has missed. */
  predicate SameFeed(v: Provider, v': Provider) {
    && v'.wal == v.wal && v'.applied == v.applied && v'.toSource == v.toSource && v'.feed == v.feed
    && v'.mark == v.mark && v'.missed == v.missed && v'.commits == v.commits
  }

  /** Only the peer's sync event and its subscription into the source matter here. */
  lemma EffectOnFeed(a: Adding, t: Task, w: World, w': World, p: Name)
    requires a.m != a.s && p in w && p != a.s && Effect(a, t, w, w')
    ensures p in w'
    ensures Feeds(a, t, p) ==> FeedMoved(t.action, w[p], w'[p])
    ensures t.action == Create && t.id.SyncEvent? && t.id.provider == p ==> SyncMarked(w[p], w'[p])
    ensures !Feeds(a, t, p) && !(t.action == Create && t.id.SyncEvent? && t.id.provider == p) ==> SameFeed(w[p], w'[p])
  {
    if t.id.Sub? {
      SubOnFeed(a, t, w, w', p);
    } else if t.action == Create && t.id.Ephemeral() {
      assert OnlyAt(w, w', ProviderOf(t.id));
      if ProviderOf(t.id) == p && !t.id.SyncEvent? { StepOnFeed(t.id, w[p], w'[p]); }
    }
  }

  lemma StepOnFeed(id: Identifier, v: Provider, v': Provider)
    requires id.Ephemeral() && StepOf(id, v, v') && !id.SyncEvent?
    ensures SameFeed(v, v')
  {
  }

  lemma SubOnFeed(a: Adding, t: Task, w: World, w': World, p: Name)
    requires a.m != a.s && p in w && p != a.s && Effect(a, t, w, w') && t.id.Sub?
    ensures p in w'
    ensures if Feeds(a, t, p) then FeedMoved(t.action, w[p], w'[p]) else SameFeed(w[p], w'[p])
  {
  }

  lemma FeedAfter(a: Adding, s: Exec, t: Task, p: Name, v: Provider, v': Provider)
    requires a.Valid() && ExecInv(a.Plan(), s) && p in a.Peers() && t in s.st && s.st[t] == Running
    requires Feeds(a, t, p) && FeedMoved(t.action, v, v') && FeedSide(a, s, p, v)
    ensures FeedSide(a, AfterTask(s, t), p, v')
  {
    PlannedTask(a, s, t);
    if t.action == Create { FeedOrder(a, s, t, p); }
    if t.action == Delete { DeletesComeFirst(a, s, t, t.id); }
  }

  lemma MarkAfter(a: Adding, s: Exec, t: Task, p: Name, v: Provider, v': Provider)
    requires t == Task(Create, SyncEvent(p, a.s)) && SyncMarked(v, v') && FeedSide(a, s, p, v)
    ensures FeedSide(a, AfterTask(s, t), p, v')
  {
  }

  lemma OtherAfter(a: Adding, s: Exec, t: Task, p: Name, v: Provider, v': Provider)
    requires !Feeds(a, t, p) && t != Task(Create, SyncEvent(p, a.s)) && SameFeed(v, v') && FeedSide(a, s, p, v)
    ensures FeedSide(a, AfterTask(s, t), p, v')
  {
  }

  lemma SuccessKeepsFeed(a: Adding, z: Sys, z': Sys, t: Task, p: Name)
    requires a.Valid() && ExecInv(a.Plan(), z.exec) && ExecPart(a, z, z', Succeed(t)) && p in a.Peers() && p in z.world
    requires FeedSide(a, z.exec, p, z.world[p])
    ensures p in z'.world && FeedSide(a, z'.exec, p, z'.world[p])
  {
    EffectOnFeed(a, t, z.world, z'.world, p);
    PlannedTask(a, z.exec, t);
    if Feeds(a, t, p) {
      FeedAfter(a, z.exec, t, p, z.world[p], z'.world[p]);
    } else if t.action == Create && t.id.SyncEvent? && t.id.provider == p {
      ExactPair(a, z.exec, t, p);
      MarkAfter(a, z.exec, t, p, z.world[p], z'.world[p]);
    } else {
      OtherAfter(a, z.exec, t, p, z.world[p], z'.world[p]);
    }
  }

  lemma MoveKeepsFeed(a: Adding, s: Exec, p: Name, v: Provider, v': Provider, e: EnvStep)
    requires FeedSide(a, s, p, v) && EnvMove(v, v', e)
    ensures FeedSide(a, s, p, v') && v'.missed == v.missed && v'.feed.Some? == v.feed.Some?
  {
  }

  lemma SameDoneFeed(a: Adding, s: Exec, s': Exec, p: Name, v: Provider)
    requires FeedSide(a, s, p, v) && forall t :: Done(s', t) <==> Done(s, t)
    ensures FeedSide(a, s', p, v)
  {
  }

  lemma ControlKeepsFeed(a: Adding, z: Sys, z': Sys, step: ExecStep, p: Name)
    requires ExecPart(a, z, z', step) && !step.Succeed? && p in z.world && FeedSide(a, z.exec, p, z.world[p])
    ensures p in z'.world && FeedSide(a, z'.exec, p, z'.world[p])
  {
    assert forall t :: Done(z'.exec, t) <==> Done(z.exec, t);
    SameDoneFeed(a, z.exec, z'.exec, p, z.world[p]);
  }

  lemma NextKeepsFeed(a: Adding, z: Sys, z': Sys, p: Name)
    requires a.Valid() && ExecInv(a.Plan(), z.exec) && SysNext(a, z, z') && p in a.Peers() && p in z.world
    requires FeedSide(a, z.exec, p, z.world[p])
    ensures p in z'.world && FeedSide(a, z'.exec, p, z'.world[p])
  {
    if x, e :| EnvPart(z, z', x, e) {
      if x == p { MoveKeepsFeed(a, z.exec, p, z.world[p], z'.world[p], e); }
    } else {
      var step :| ExecPart(a, z, z', step);
      if step.Succeed? { SuccessKeepsFeed(a, z, z', step.t, p); } else { ControlKeepsFeed(a, z, z', step, p); }
    }
  }

  lemma InitFeed(a: Adding, s: Exec, p: Name, v: Provider)
    requires a.Valid() && ExecInit(a.Plan(), s) && p in a.Peers() && ProviderInit(a, p, v)
    ensures FeedSide(a, s, p, v)
  {
    NothingDone(a, s);
    assert a.Fits(a.feeds, p, a.s);
    assert FeedFits(a, p, v);
  }

  lemma {:induction false} FeedHistory(a: Adding, run: seq<Sys>, h: nat, p: Name)
    requires a.Valid() && IsHistory(a, run) && h < |run| && p in a.Peers()
    ensures p in run[h].world && FeedSide(a, run[h].exec, p, run[h].world[p])
  {
    if h == 0 {
      InitFeed(a, run[0].exec, p, run[0].world[p]);
    } else {
      var g := h - 1;
      FeedHistory(a, run, g, p);
      ExecHistory(a, run, g);
      assert run[g + 1] == run[h];
      NextAt(a, run, h);
      NextKeepsFeed(a, run[g], run[h], p);
    }
  }

  // ---------------------------------------------------------------------------------------
  // The gates open
  // ---------------------------------------------------------------------------------------

  /** Once a peer's sync event has begun, the peer's subscription into the source works and stays up. */
  lemma FlowsBeforeMark(a: Adding, run: seq<Sys>, i: nat, p: Name)
    requires a.Valid() && IsHistory(a, run) && i < |run| && p in a.Peers()
    requires Started(run[i].exec, Task(Create, SyncEvent(p, a.s)))
    ensures p in run[i].world && run[i].world[p].toSource && run[i].world[p].feed.Some?
  {
    FeedHistory(a, run, i, p);
    ExecHistory(a, run, i);
    FeedBeforeMark(a, run[i].exec, p);
  }

  lemma CatchupReady(a: Adding, run: seq<Sys>, i: nat, p: Name)
    requires a.Valid() && IsHistory(a, run) && i < |run| && p in a.Peers()
    requires Started(run[i].exec, Task(Create, PeerCatchup(p, a.s)))
    ensures p in run[i].world && run[i].world[p].mark.Some?
    ensures CanApplyTo(run[i].world[p], run[i].world[p].mark.value)
  {
    MarkAvailable(a, run, i, PeerCatchup(p, a.s));
    ExecHistory(a, run, i);
    MarkBeforeCatchup(a, run[i].exec, p);
    FlowsBeforeMark(a, run, i, p);
    FeedHistory(a, run, i, p);
  }

  /**
   The catch-up gate opens: when a catch-up has begun, its mark is set, the peer replicates into
   the source, and some continuation of the run has the source apply up to the mark.
   */
  lemma CatchupOpens(a: Adding, run: seq<Sys>, p: Name) returns (longer: seq<Sys>)
    requires a.Valid() && IsHistory(a, run) && p in a.Peers()
    requires Started(run[|run| - 1].exec, Task(Create, PeerCatchup(p, a.s)))
    ensures p in run[|run| - 1].world && run[|run| - 1].world[p].mark.Some?
    ensures IsHistory(a, longer) && run <= longer
    ensures AppliedTo(run[|run| - 1], longer[|longer| - 1], p, run[|run| - 1].world[p].mark.value)
  {
    CatchupReady(a, run, |run| - 1, p);
    longer := ApplyUntil(a, run, p, run[|run| - 1].world[p].mark.value);
  }
}
