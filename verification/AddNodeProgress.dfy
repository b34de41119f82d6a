/**
 An add can always be completed: as long as nothing has failed, some continuation of the run, in
 which the source applies what a catch-up waits for, executes the whole plan; and then every
 existing node streams into the new one.
 */
module AddNodeProgress {
  import opened Resources
  import opened Planning
  import opened Executor
  import opened Desired
  import opened DesiredOrder
  import opened AddNode
  import opened AddNodeInvariant
  import opened AddNodeSafety
  import opened AddNodeAdvance
  import opened AddNodeFeeds

  // ---------------------------------------------------------------------------------------
  // One task
  // ---------------------------------------------------------------------------------------

  ghost predicate TaskReady(a: Adding, t: Task, w: World) {
    && (t.action == Create && t.id.Ephemeral() ==> ProviderOf(t.id) in w && Ready(t.id, w[ProviderOf(t.id)]))
    && (t.action == Create && t.id.Sub? && t.id.dst == a.m ==> t.id.src in w)
  }

  /** No lag tracker has reported anything. */
  ghost predicate Quiet(w: World) {
    forall p | p in w :: w[p].target == None && w[p].advanced == None
  }

  lemma EffectPossible(a: Adding, t: Task, w: World) returns (w': World)
    requires TaskReady(a, t, w)
    ensures Effect(a, t, w, w') && (Quiet(w) ==> Quiet(w'))
  {
    w' := w;
    if t.action == Create && t.id.Ephemeral() {
      var p := ProviderOf(t.id);
      var v' := StepPossible(t.id, w[p]);
      QuietStep(t.id, w[p], v');
      w' := w[p := v'];
    } else if t.id.Sub? {
      w' := SubPossible(a, t, w);
    }
  }

  lemma QuietStep(id: Identifier, v: Provider, v': Provider)
    requires StepOf(id, v, v') && (id.LagTracker? ==> v'.target == None)
    ensures v.target == None && v.advanced == None ==> v'.target == None && v'.advanced == None
  {
  }

  lemma SubPossible(a: Adding, t: Task, w: World) returns (w': World)
    requires t.id.Sub? && TaskReady(a, t, w)
    ensures Effect(a, t, w, w') && (Quiet(w) ==> Quiet(w'))
  {
    var x := t.id.src;
    w' := w;
    if t.id.dst != a.m || x !in w {
      if t.id.dst == a.s && x != a.s && x in w {
        var v' := FeedPossible(t.action, w[x]);
        w' := w[x := v'];
      }
    } else if t.action == Update {
      w' := w[x := Enable(w[x])];
    } else if t.action == Delete {
      w' := w[x := w[x].(sub := Absent, origin := 0, active := false)];
    } else if x == a.s {
      w' := CopyPossible(w, x);
    } else {
      var v' := StepPossible(t.id, w[x]);
      w' := w[x := v'];
    }
  }

  lemma FeedPossible(action: Action, v: Provider) returns (v': Provider)
    ensures FeedMoved(action, v, v')
  {
    match action
    case Create =>
      v' := if v.feed.Some? then v.(toSource := true)
            else v.(toSource := true, feed := Some(v.wal), missed := v.missed + Span(v.applied, v.wal));
    case Update => v' := v.(toSource := true);
    case Delete => v' := v.(toSource := false);
  }

  lemma CopyPossible(w: World, s: Name) returns (w': World)
    requires s in w
    ensures CopyMade(w, w', s) && (Quiet(w) ==> Quiet(w'))
  {
    var v := w[s];
    match v.sub
    case Disabled => w' := w[s := Enable(v)];
    case Enabled(_) => w' := w;
    case Absent =>
      var slot := if v.slot.Some? then v.slot else Some(SlotPos(v.wal, v.wal));
      var copied := v.(slot := slot, sub := Enabled(v.wal), origin := v.wal, copy := Some(v.wal));
      w' := map x | x in w :: if x == s then copied else w[x].(copy := Some(w[x].applied));
  }

  // ---------------------------------------------------------------------------------------
  // In a reachable state
  // ---------------------------------------------------------------------------------------

  /** An add onto a clean node, or one in which no lag tracker has reported yet. */
  ghost predicate Able(a: Adding, run: seq<Sys>)
    requires |run| > 0
  {
    a.Fresh() || (a.Valid() && Quiet(run[|run| - 1].world))
  }

  ghost predicate RunningAt(a: Adding, run: seq<Sys>, t: Task) {
    IsHistory(a, run) && t in run[|run| - 1].exec.st && run[|run| - 1].exec.st[t] == Running
  }

  lemma ProviderIsThere(a: Adding, run: seq<Sys>, t: Task)
    requires a.Valid() && RunningAt(a, run, t) && t.action == Create
    ensures t.id.Ephemeral() ==> ProviderOf(t.id) in run[|run| - 1].world
    ensures t.id.Sub? && t.id.dst == a.m ==> t.id.src in run[|run| - 1].world
  {
    ExecHistory(a, run, |run| - 1);
    PlannedTask(a, run[|run| - 1].exec, t);
    TargetsProvider(a, t.id);
  }

  lemma TargetsProvider(a: Adding, id: Identifier)
    requires a.Valid()
    ensures id.Ephemeral() && Populates(a.cfg, a.m, id) ==> ProviderOf(id) in a.Providers()
    ensures id.Sub? && id.dst == a.m && InMesh(NamesOf(a.cfg), id) ==> id.src in a.Providers()
  {
    NewIsConfigured(a.cfg, a.m);
  }

  lemma AdvancesReady(a: Adding, run: seq<Sys>, t: Task)
    requires a.Fresh() && RunningAt(a, run, t) && t.action == Create && (t.id.SlotAdvance? || t.id.OriginAdvance?)
    ensures ProviderOf(t.id) in run[|run| - 1].world && Ready(t.id, run[|run| - 1].world[ProviderOf(t.id)])
  {
    var z := run[|run| - 1];
    var p := ProviderOf(t.id);
    HistoryInv(a, run, |run| - 1);
    FeedCompleted(a, z.exec, t.id);
    AdvanceOfChain(a, t.id);
    PeerIsAbout(a, z.exec, z.world, t, p);
    ReadyToAdvance(a, z.exec, t, p, z.world[p]);
  }

  lemma AdvanceOfChain(a: Adding, id: Identifier)
    requires a.Valid() && (id.SlotAdvance? || id.OriginAdvance?) && Populates(a.cfg, a.m, id)
    ensures ProviderOf(id) in a.Peers() && Concerns(a, Task(Create, id), ProviderOf(id))
  {
  }

  lemma ReadyToAdvance(a: Adding, s: Exec, t: Task, p: Name, v: Provider)
    requires AboutTo(a, s, t, p, v) && (t.id.SlotAdvance? || t.id.OriginAdvance?)
    ensures Ready(t.id, v)
  {
    NotYetEnabled(a, s, t, p, v);
    if t.id.SlotAdvance? {
      FeedCompleted(a, s, t.id);
      ExactAdvance(a, s, t, p);
      CopyBeforeLag(a, s, p);
    }
    ReadyOnce(t.id, v);
  }

  lemma ReadyOnce(id: Identifier, v: Provider)
    requires ProviderInv(false, v) && !v.sub.Enabled? && ((id.SlotAdvance? && v.copy.Some?) || id.OriginAdvance?)
    ensures Ready(id, v)
  {
  }

  /** Every running task but a catch-up can return success at once. */
  lemma NowReady(a: Adding, run: seq<Sys>, t: Task)
    requires RunningAt(a, run, t) && Able(a, run) && !(t.action == Create && t.id.PeerCatchup?)
    ensures TaskReady(a, t, run[|run| - 1].world)
  {
    if t.action == Create {
      ProviderIsThere(a, run, t);
      if t.id.WaitEvent? { MarkAvailable(a, run, |run| - 1, t.id); }
      if a.Fresh() && (t.id.SlotAdvance? || t.id.OriginAdvance?) { AdvancesReady(a, run, t); }
    }
  }

  lemma CatchupIsOfPeer(a: Adding, run: seq<Sys>, t: Task)
    requires a.Valid() && RunningAt(a, run, t) && t.action == Create && t.id.PeerCatchup?
    ensures t.id.peer in a.Peers() && t.id == PeerCatchup(t.id.peer, a.s)
  {
    ExecHistory(a, run, |run| - 1);
    PlannedTask(a, run[|run| - 1].exec, t);
    CatchupOfChain(a, t.id);
  }

  lemma CatchupOfChain(a: Adding, id: Identifier)
    requires a.Valid() && id.PeerCatchup? && Populates(a.cfg, a.m, id)
    ensures id.peer in a.Peers() && id == PeerCatchup(id.peer, a.s)
  {
  }

  lemma AppliedIsReady(a: Adding, z: Sys, z': Sys, t: Task)
    requires t.action == Create && t.id.PeerCatchup? && t.id.peer in z.world && z.world[t.id.peer].mark.Some?
    requires AppliedTo(z, z', t.id.peer, z.world[t.id.peer].mark.value)
    ensures TaskReady(a, t, z'.world)
  {
  }

  lemma AppliedIsQuiet(z: Sys, z': Sys, p: Name, target: nat)
    requires p in z.world && AppliedTo(z, z', p, target)
    ensures Quiet(z.world) ==> Quiet(z'.world)
  {
  }

  lemma ApplyForCatchup(a: Adding, run: seq<Sys>, t: Task) returns (longer: seq<Sys>)
    requires RunningAt(a, run, t) && a.Valid() && t.action == Create && t.id.PeerCatchup?
    ensures IsHistory(a, longer) && run <= longer && longer[|longer| - 1].exec == run[|run| - 1].exec
    ensures TaskReady(a, t, longer[|longer| - 1].world)
    ensures Quiet(run[|run| - 1].world) ==> Quiet(longer[|longer| - 1].world)
  {
    CatchupIsOfPeer(a, run, t);
    longer := CatchupOpens(a, run, t.id.peer);
    var z, z' := run[|run| - 1], longer[|longer| - 1];
    AppliedIsReady(a, z, z', t);
    AppliedIsQuiet(z, z', t.id.peer, z.world[t.id.peer].mark.value);
  }

  /** A catch-up can once the source has applied up to the mark; nothing else needs to move. */
  lemma LetApply(a: Adding, run: seq<Sys>, t: Task) returns (longer: seq<Sys>)
    requires RunningAt(a, run, t) && Able(a, run)
    ensures IsHistory(a, longer) && run <= longer && longer[|longer| - 1].exec == run[|run| - 1].exec
    ensures TaskReady(a, t, longer[|longer| - 1].world) && Able(a, longer)
  {
    if t.action == Create && t.id.PeerCatchup? {
      longer := ApplyForCatchup(a, run, t);
    } else {
      longer := run;
      NowReady(a, run, t);
    }
  }

  // ---------------------------------------------------------------------------------------
  // The whole plan
  // ---------------------------------------------------------------------------------------

  ghost predicate Promising(a: Adding, run: seq<Sys>) {
    IsHistory(a, run) && NoFailure(run[|run| - 1].exec) && run[|run| - 1].exec.phase <= |a.Plan()|
  }

  ghost function Left(a: Adding, run: seq<Sys>): nat
    requires Promising(a, run)
  {
    StepsLeft(a.Plan(), run[|run| - 1].exec)
  }

  ghost predicate Completed(a: Adding, run: seq<Sys>) {
    Promising(a, run) && run[|run| - 1].exec.phase == |a.Plan()|
  }

  lemma StepOn(a: Adding, run: seq<Sys>) returns (longer: seq<Sys>)
    requires Promising(a, run) && Able(a, run) && !Completed(a, run)
    ensures Promising(a, longer) && Able(a, longer) && run <= longer && Left(a, longer) < Left(a, run)
  {
    var s := run[|run| - 1].exec;
    ExecHistory(a, run, |run| - 1);
    var step, s' := GoesOn(a.Plan(), s);
    StepCosts(a.Plan(), s, s', step);
    longer := Follow(a, run, step, s');
  }

  /** Any step but a failure of what runs can be taken in the whole system. */
  lemma Follow(a: Adding, run: seq<Sys>, step: ExecStep, s': Exec) returns (longer: seq<Sys>)
    requires IsHistory(a, run) && Able(a, run) && ExecNext(a.Plan(), run[|run| - 1].exec, s', step)
    ensures IsHistory(a, longer) && run <= longer && longer[|longer| - 1].exec == s' && Able(a, longer)
  {
    longer := run;
    var w' := run[|run| - 1].world;
    if step.Succeed? {
      assert RunningAt(a, run, step.t);
      longer := LetApply(a, run, step.t);
      w' := EffectPossible(a, step.t, longer[|longer| - 1].world);
    }
    longer := Appended(a, longer, step, s', w');
  }

  lemma Appended(a: Adding, run: seq<Sys>, step: ExecStep, s': Exec, w': World) returns (longer: seq<Sys>)
    requires IsHistory(a, run) && ExecNext(a.Plan(), run[|run| - 1].exec, s', step)
    requires if step.Succeed? then Effect(a, step.t, run[|run| - 1].world, w') else w' == run[|run| - 1].world
    ensures IsHistory(a, longer) && run <= longer && longer[|longer| - 1] == Sys(s', w')
  {
    var next := Sys(s', w');
    assert ExecPart(a, run[|run| - 1], next, step);
    Extended(a, run, next);
    longer := run + [next];
  }

  /**
   From every reachable state without a failure the add can be completed: onto a clean node
   always, otherwise as long as no lag tracker has reported.
   */
  lemma {:induction false} AddCompletes(a: Adding, run: seq<Sys>) returns (longer: seq<Sys>)
    requires Promising(a, run) && Able(a, run)
    ensures Completed(a, longer) && run <= longer
    decreases Left(a, run)
  {
    longer := run;
    if !Completed(a, run) {
      longer := StepOn(a, run);
      longer := AddCompletes(a, longer);
    }
  }

  lemma CompletedIsDone(a: Adding, run: seq<Sys>, id: Identifier)
    requires a.Valid() && Completed(a, run) && id in a.creates
    ensures Done(run[|run| - 1].exec, Task(Create, id))
  {
    ExecHistory(a, run, |run| - 1);
    PlannedIff(a.deps, a.deletes, a.updates, a.creates, Task(Create, id));
    var k :| Planned(a.Plan(), k, Task(Create, id));
    PastIsDone(a.Plan(), run[|run| - 1].exec, k, Task(Create, id));
  }

  lemma PastIsDone(plan: seq<set<Task>>, s: Exec, k: nat, t: Task)
    requires ExecInv(plan, s) && Planned(plan, k, t) && k < s.phase
    ensures Done(s, t)
  {
  }

  /**
   A completed add streams from every existing node, after the COPY, and accounts for every record
   but those the source never got and streaming began after.
   */
  lemma CompletedStreams(a: Adding, run: seq<Sys>, x: Name, k: nat)
    requires a.Fresh() && Completed(a, run) && x in a.Providers()
    ensures x in run[|run| - 1].world
    ensures var v := run[|run| - 1].world[x];
            v.Streaming() && v.copy.Some? && (Accounted(v, k) <==> !(k in v.missed && k <= v.sub.start))
  {
    var h := |run| - 1;
    HistoryInv(a, run, h);
    CompletedIsDone(a, run, Sub(x, a.m));
    CompletedIsDone(a, run, Sub(a.s, a.m));
    DoneStreams(a, run[h].exec, run[h].world, x);
    NoGap(a, run, h, x, k);
  }

  lemma DoneStreams(a: Adding, s: Exec, w: World, x: Name)
    requires Guarantees(a, s, w) && x in a.Providers() && Done(s, Task(Create, Sub(a.s, a.m)))
    requires Done(s, Task(Create, Sub(x, a.m)))
    ensures x in w && w[x].Streaming() && w[x].copy.Some?
  {
    assert w[x].copy.Some? <==> w[a.s].copy.Some?;
    if x != a.s { assert TaskInv(a, s, x, w[x]); } else { assert AfterCopy(true, w[x]); }
  }

  // ---------------------------------------------------------------------------------------
  // Where a run can begin
  // ---------------------------------------------------------------------------------------

  /** An initial state of provider x that fits the plan, with w transactions that the source has not applied. */
  function Initial(a: Adding, x: Name, w: nat): Provider {
    var id := Sub(x, a.m);
    var sub := if id in a.creates then (if id in a.deletes then Enabled(0) else Absent)
               else if id in a.updates then Disabled else Enabled(0);
    Provider(w, Span(0, w), 0, Sub(x, a.s) !in a.creates && Sub(x, a.s) !in a.updates,
             if x in a.feeds then Some(0) else None, {}, if x in a.slots then Some(SlotPos(0, w)) else None, sub, false,
             if a.copied then Some(w) else None, 0, {}, {}, None, None, None)
  }

  lemma InitialFits(a: Adding, x: Name, w: nat)
    ensures ProviderInit(a, x, Initial(a, x, w))
  {
  }

  ghost function InitialSys(a: Adding, w: nat): (z: Sys)
    ensures SysInit(a, z) && NoFailure(z.exec) && Quiet(z.world)
  {
    forall x { InitialFits(a, x, w); }
    Sys(Exec(0, map t | t in AllTasks(a.Plan()) :: Waiting, false), map x | x in a.Providers() :: Initial(a, x, w))
  }

  // ---------------------------------------------------------------------------------------
  // Every peer's subscription gets its turn
  // ---------------------------------------------------------------------------------------

  lemma BecameDone(a: Adding, z: Sys, z': Sys, t: Task)
    requires SysNext(a, z, z') && Done(z'.exec, t) && !Done(z.exec, t)
    ensures t in z.exec.st && z.exec.st[t] == Running
  {
    if x, e :| EnvPart(z, z', x, e) {
    } else {
      var step :| ExecPart(a, z, z', step);
    }
  }

  lemma Prefix(a: Adding, run: seq<Sys>, n: nat)
    requires IsHistory(a, run) && 0 < n <= |run|
    ensures IsHistory(a, run[..n]) && run[..n][n - 1] == run[n - 1]
  {
  }

  lemma ItsTurn(a: Adding, run: seq<Sys>, g: nat, p: Name)
    requires IsHistory(a, run) && g + 1 < |run| && p in a.Peers()
    requires Done(run[g + 1].exec, EndState(a, p)) && !Done(run[g].exec, EndState(a, p))
    ensures Enabling(a, run[..g + 1], p)
  {
    var h := g + 1;
    assert SysNext(a, run[h - 1], run[h]);
    BecameDone(a, run[g], run[h], EndState(a, p));
    Prefix(a, run, h);
  }

  lemma {:induction false} WasEnabling(a: Adding, run: seq<Sys>, h: nat, p: Name) returns (early: seq<Sys>)
    requires IsHistory(a, run) && h < |run| && p in a.Peers() && Done(run[h].exec, EndState(a, p))
    ensures Enabling(a, early, p) && early <= run
  {
    var g := h - 1;
    if Done(run[g].exec, EndState(a, p)) {
      early := WasEnabling(a, run, g, p);
    } else {
      ItsTurn(a, run, g, p);
      early := run[..g + 1];
    }
  }

  /** From the start of a fresh add, every peer's end-state subscription can come to be enabled. */
  lemma EnablingIsReached(a: Adding, z: Sys, p: Name) returns (run: seq<Sys>)
    requires a.Fresh() && SysInit(a, z) && NoFailure(z.exec) && p in a.Peers()
    ensures Enabling(a, run, p) && run[0] == z
  {
    assert IsHistory(a, [z]);
    var longer := AddCompletes(a, [z]);
    CompletedIsDone(a, longer, Sub(p, a.m));
    run := WasEnabling(a, longer, |longer| - 1, p);
    assert longer[0] == z;
  }
}
