/**
 The Create bodies of the populate chain, statement by statement, with everything else moving
 between any two statements: the rest of the cluster and the other goroutines of the run.

 Each body is proved to behave as a single atomic step with the effect AddNode gives it: there
 is a moment u before it and u' after it such that the cluster moved to u, the effect happened
 from u to u', and the cluster moved on.  SQL failures are arbitrary choices, recorded in the link,
 and a body reports an SQL error exactly if one occurred; ctx counts the polls before the deadline.
 */
module PopulateSteps {
  import opened Resources
  import opened Planning
  import opened Executor
  import opened Desired
  import opened AddNode
  import opened AddNodeInvariant
  import opened AddNodeSafety
  import opened AddNodeRetry

  datatype Outcome = Success | NoLsn | Cancelled | Unhealthy | SqlError

  /** spock.sub_show_status, or the query failing. */
  datatype SubStatus = Initializing | Replicating | Unknown | DisabledStatus | Down | Other | QueryFailed

  // ---------------------------------------------------------------------------------------
  // Interference
  // ---------------------------------------------------------------------------------------

  /**
   What may happen to the provider between two statements of the body of id.  WAL, apply progress
   and slots move forward only; what the body itself decides on stays.  Everything else is free; in
   particular the worker of an enabled subscription comes, goes, and streams.
   */
  predicate Rely(id: Identifier, v: Provider, v': Provider) {
    && v.wal <= v'.wal && v.applied <= v'.applied && (v.applied <= v.wal ==> v'.applied <= v'.wal)
    && (v.slot.Some? ==> v'.slot.Some? && Forward(v.slot.value, v'.slot.value))
    && match id
       case SlotCreate(_, _) => v'.slot.Some? == v.slot.Some?
       case SyncEvent(_, _) => v'.mark == v.mark
       case WaitEvent(_, _) => v'.mark == v.mark
       case PeerCatchup(_, _) => v'.mark == v.mark
       case DisabledSub(_, _) => v'.sub == v.sub
       case LagTracker(_, _) => v'.target == v.target && v'.copy == v.copy && v.streamed <= v'.streamed
       case SlotAdvance(_, _) =>
         && v'.target == v.target && v'.advanced == v.advanced && v'.sub == v.sub && v'.slot.Some? == v.slot.Some?
         && (!v.sub.Enabled? ==> v'.slot == v.slot && v'.active == v.active)
       case OriginAdvance(_, _) =>
         && v'.advanced == v.advanced && v'.sub == v.sub
         && (!v.sub.Enabled? ==> v'.origin == v.origin && v'.active == v.active)
       case _ => v'.sub == v.sub && v'.slot.Some? == v.slot.Some?
  }

  predicate Forward(a: SlotPos, b: SlotPos) {
    a.restart <= b.restart && a.flushed <= b.flushed && (a.restart <= a.flushed ==> b.restart <= b.flushed)
  }

  /** Two stretches of interference are one. */
  lemma RelyCompose(id: Identifier, a: Provider, b: Provider, c: Provider)
    requires Rely(id, a, b) && Rely(id, b, c)
    ensures Rely(id, a, c)
  {
  }

  // ---------------------------------------------------------------------------------------
  // The rest of the system does no more than that
  // ---------------------------------------------------------------------------------------

  /** The resource of that kind in the chain of peer p. */
  function Exactly(m: Name, s: Name, id: Identifier, p: Name): Identifier {
    match id
    case SlotCreate(_, _) => SlotCreate(p, m)
    case DisabledSub(_, _) => DisabledSub(p, m)
    case SyncEvent(_, _) => SyncEvent(p, s)
    case WaitEvent(_, _) => WaitEvent(p, s)
    case PeerCatchup(_, _) => Identifier.PeerCatchup(p, s)
    case LagTracker(_, _) => LagTracker(p, m)
    case SlotAdvance(_, _) => SlotAdvance(p, m)
    case OriginAdvance(_, _) => OriginAdvance(p, m)
    case _ => Sub(p, m)
  }

  lemma IsExactly(a: Adding, s: Exec, id: Identifier, p: Name)
    requires a.Fresh() && ExecInv(a.Plan(), s) && Task(Create, id) in s.st && p in a.Peers()
             && Concerns(a, Task(Create, id), p)
    ensures id == Exactly(a.m, a.s, id, p)
  {
    PlannedTask(a, s, Task(Create, id));
  }

  /** What has completed before the body of id runs. */
  ghost predicate EarlierDone(m: Name, src: Name, s: Exec, id: Identifier, p: Name) {
    && (id.WaitEvent? || id.PeerCatchup? ==> Done(s, Task(Create, SyncEvent(p, src))))
    && (id.SlotAdvance? ==> Done(s, Task(Create, LagTracker(p, m))) && Done(s, Task(Create, DisabledSub(p, m))))
    && (id.OriginAdvance? ==> Done(s, Task(Create, SlotAdvance(p, m))) && Done(s, Task(Create, DisabledSub(p, m))))
    && (id.Sub? ==> Done(s, Task(Create, SlotAdvance(p, m))) && Done(s, Task(Create, OriginAdvance(p, m)))
                    && Done(s, Task(Create, DisabledSub(p, m))))
  }

  lemma AfterLagTracker(a: Adding, s: Exec, p: Name, id: Identifier)
    requires a.Valid() && ExecInv(a.Plan(), s) && p in a.Peers() && Started(s, Task(Create, id))
    requires id == SlotAdvance(p, a.m) || id == OriginAdvance(p, a.m)
    ensures Done(s, Task(Create, LagTracker(p, a.m)))
  {
    FeedCompleted(a, s, id);
    if id.OriginAdvance? { FeedCompleted(a, s, SlotAdvance(p, a.m)); }
  }

  lemma Earlier(a: Adding, s: Exec, id: Identifier, p: Name)
    requires a.Fresh() && ExecInv(a.Plan(), s) && p in a.Peers()
    requires Concerns(a, Task(Create, id), p) && Started(s, Task(Create, id))
    ensures EarlierDone(a.m, a.s, s, id, p)
  {
    IsExactly(a, s, id, p);
    if id.WaitEvent? || id.PeerCatchup? || id.SlotAdvance? || id.OriginAdvance? { FeedCompleted(a, s, id); }
    if id.SlotAdvance? || id.OriginAdvance? { AfterLagTracker(a, s, p, id); DisabledFirst(a, s, p); }
    if id.Sub? { BeforePeerSub(a, s, p); DisabledFirst(a, s, p); }
  }

  /** Bodies on one peer that can be running at the same time, as far as one writes what the other decides on. */
  predicate Compatible(id: Identifier, other: Identifier) {
    && (other.SyncEvent? ==> !id.WaitEvent? && !id.PeerCatchup? && !id.SyncEvent?)
    && (other.Sub? ==> !id.DisabledSub? && !id.SlotAdvance? && !id.OriginAdvance? && !id.Sub?)
    && (other.DisabledSub? ==> !id.DisabledSub? && !id.SlotAdvance? && !id.OriginAdvance? && !id.Sub?)
    && (other.LagTracker? ==> !id.LagTracker? && !id.SlotAdvance?)
    && (other.SlotAdvance? ==> !id.SlotAdvance? && !id.OriginAdvance?)
    && (other.OriginAdvance? ==> !id.OriginAdvance?)
    && (other.SlotCreate? ==> !id.SlotCreate?)
  }

  lemma RunningTogether(m: Name, src: Name, s: Exec, id: Identifier, other: Identifier, p: Name)
    requires id == Exactly(m, src, id, p) && other == Exactly(m, src, other, p) && id != other
    requires Task(Create, id) in s.st && s.st[Task(Create, id)] == Running
    requires Task(Create, other) in s.st && s.st[Task(Create, other)] == Running
    requires EarlierDone(m, src, s, id, p) && EarlierDone(m, src, s, other, p)
    ensures Compatible(id, other)
  {
  }

  lemma StepIsRely(id: Identifier, other: Identifier, v: Provider, v': Provider)
    requires StepOf(other, v, v') && Compatible(id, other) && ProviderInv(false, v)
    requires (id.Ephemeral() || id.Sub?) && (other.Ephemeral() || other.Sub?)
    requires other.Sub? || id.SlotAdvance? || id.Sub? ==> v.copy.Some?
    ensures Rely(id, v, v')
  {
  }

  lemma TaskIsRely(a: Adding, s: Exec, id: Identifier, t: Task, p: Name, v: Provider, v': Provider)
    requires AboutTo(a, s, t, p, v) && StepOf(t.id, v, v') && Concerns(a, Task(Create, id), p) && t != Task(Create, id)
    requires Task(Create, id) in s.st && s.st[Task(Create, id)] == Running
    ensures Rely(id, v, v')
  {
    IsExactly(a, s, id, p);
    IsExactly(a, s, t.id, p);
    Earlier(a, s, id, p);
    Earlier(a, s, t.id, p);
    RunningTogether(a.m, a.s, s, id, t.id, p);
    CopiedByThen(a, s, id, p);
    CopiedByThen(a, s, t.id, p);
    StepIsRely(id, t.id, v, v');
  }

  lemma CopiedByThen(a: Adding, s: Exec, id: Identifier, p: Name)
    requires a.Fresh() && ExecInv(a.Plan(), s) && p in a.Peers() && EarlierDone(a.m, a.s, s, id, p)
    ensures id.SlotAdvance? || id.Sub? ==> Done(s, Task(Create, Sub(a.s, a.m)))
  {
    if id.SlotAdvance? || id.Sub? {
      if id.Sub? { FeedCompleted(a, s, SlotAdvance(p, a.m)); }
      CopyBeforeLag(a, s, p);
    }
  }

  lemma FeedIsRely(id: Identifier, action: Action, v: Provider, v': Provider)
    requires FeedMoved(action, v, v')
    ensures Rely(id, v, v')
  {
  }

  lemma CopyIsRely(id: Identifier, v: Provider, v': Provider)
    requires v' == v.(copy := v'.copy) && !id.LagTracker?
    ensures Rely(id, v, v')
  {
  }

  /** No lag tracker is being read when the COPY returns, and no subscription is being dropped. */
  lemma NotMeanwhile(a: Adding, s: Exec, id: Identifier, p: Name, t: Task)
    requires a.Fresh() && ExecInv(a.Plan(), s) && p in a.Peers() && Concerns(a, Task(Create, id), p)
    requires Task(Create, id) in s.st && s.st[Task(Create, id)] == Running && t in s.st && s.st[t] == Running
    ensures t == Task(Create, Sub(a.s, a.m)) ==> !id.LagTracker?
    ensures !Drops(a, t, p)
  {
    PlannedTask(a, s, t);
    ExactPair(a, s, Task(Create, id), p);
    if id.LagTracker? { CopyBeforeLag(a, s, p); }
    if Drops(a, t, p) { CreatesComeLast(a, s, Task(Create, id), Sub(p, a.m)); }
  }

  lemma CauseIsRely(a: Adding, z: Sys, z': Sys, id: Identifier, p: Name, v: Provider, v': Provider, c: Cause)
    requires AboutTo(a, z.exec, Task(Create, id), p, v) && Caused(a, z, z', p, v, v', c)
    requires !Ended(z, z', Task(Create, id))
    ensures Rely(id, v, v')
  {
    match c
    case ByTask(t) => TaskIsRely(a, z.exec, id, t, p, v, v');
    case ByCluster(e) => ClusterIsRely(a, z.exec, Task(Create, id), p, v, v', e);
    case ByFeed(t) => FeedIsRely(id, t.action, v, v');
    case ByCopy =>
      NotMeanwhile(a, z.exec, id, p, Task(Create, Sub(a.s, a.m)));
      CopyIsRely(id, v, v');
    case ByDrop(t) => NotMeanwhile(a, z.exec, id, p, t);
    case Elsewhere_ =>
  }

  /**
   While the body of id runs on a peer, every step of the whole system - a move of the cluster,
   or another goroutine returning - is interference the body tolerates.
   */
  lemma EveryStepIsRely(a: Adding, z: Sys, z': Sys, id: Identifier, p: Name)
    requires a.Fresh() && SysInv(a, z) && SysNext(a, z, z') && p in a.Peers() && Concerns(a, Task(Create, id), p)
    requires Task(Create, id) in z.exec.st && z.exec.st[Task(Create, id)] == Running
    requires !Ended(z, z', Task(Create, id))
    ensures p in z.world && p in z'.world && Rely(id, z.world[p], z'.world[p])
  {
    PeerIsAbout(a, z.exec, z.world, Task(Create, id), p);
    var c := CauseOf(a, z, z', p);
    CauseIsRely(a, z, z', id, p, z.world[p], z'.world[p], c);
  }

  ghost predicate IsRunning(z: Sys, id: Identifier) {
    Task(Create, id) in z.exec.st && z.exec.st[Task(Create, id)] == Running
  }

  lemma HistoryStepIsRely(a: Adding, run: seq<Sys>, h: nat, id: Identifier, p: Name)
    requires a.Fresh() && IsHistory(a, run) && h + 1 < |run| && p in a.Peers() && Concerns(a, Task(Create, id), p)
    requires IsRunning(run[h], id) && IsRunning(run[h + 1], id)
    ensures p in run[h].world && p in run[h + 1].world && Rely(id, run[h].world[p], run[h + 1].world[p])
  {
    var z, z' := StepAt(a, run, h);
    EveryStepIsRely(a, z, z', id, p);
  }

  /** So is everything that happens in any history between two moments of the body. */
  lemma {:induction false} SpanIsRely(a: Adding, run: seq<Sys>, j: nat, h: nat, id: Identifier, p: Name)
    requires a.Fresh() && IsHistory(a, run) && j < h < |run| && p in a.Peers() && Concerns(a, Task(Create, id), p)
    requires forall i | j <= i <= h :: IsRunning(run[i], id)
    ensures p in run[j].world && p in run[h].world && Rely(id, run[j].world[p], run[h].world[p])
    decreases h - j
  {
    HistoryStepIsRely(a, run, j, id, p);
    if j + 1 < h {
      SpanIsRely(a, run, j + 1, h, id, p);
      RelyCompose(id, run[j].world[p], run[j + 1].world[p], run[h].world[p]);
    }
  }

  lemma ClusterIsRely(a: Adding, s: Exec, t: Task, p: Name, v: Provider, v': Provider, e: EnvStep)
    requires AboutTo(a, s, t, p, v) && EnvMove(v, v', e)
    ensures Rely(t.id, v, v')
  {
    assert v.active ==> v.Streaming();
    MoveIsRely(t.id, v, v', e);
  }

  lemma MoveIsRely(id: Identifier, v: Provider, v': Provider, e: EnvStep)
    requires EnvMove(v, v', e) && FeedInv(v) && (v.active ==> v.Streaming())
    ensures Rely(id, v, v')
  {
  }

  // ---------------------------------------------------------------------------------------
  // One provider's side of the databases
  // ---------------------------------------------------------------------------------------

  /** An arbitrary natural number. */
  method AnyNat() returns (n: nat) {
    var x: int := *;
    n := if x < 0 then 0 else x;
  }

  /** The provider, as the SQL statements of the body of id see it. */
  class Link {
    const id: Identifier
    var v: Provider
    var heard: nat         // how far the subscriber of the pair being waited on has heard the provider
    ghost var failed: bool // a statement has failed

    constructor (id: Identifier, v: Provider)
      ensures this.id == id && this.v == v && heard == 0 && !failed
    {
      this.id, this.v, heard, failed := id, v, 0, false;
    }

    /** A statement is sent: it goes through, or fails. */
    method Statement() returns (fails: bool)
      modifies this`failed
      ensures failed <==> old(failed) || fails
    {
      fails := *;
      failed := failed || fails;
    }

    /** A statement about the slot's row finds none. */
    method NoRow()
      requires v.slot.None?
      modifies this`failed
      ensures failed
    {
      failed := true;
    }

    /** Postgres does not move what a worker is using. */
    method InUse()
      requires v.active
      modifies this`failed
      ensures failed
    {
      failed := true;
    }

    /** Anything Rely allows happens, or nothing. */
    method Interfere()
      modifies this`v, this`heard
      ensures Rely(id, old(v), v) && heard >= old(heard)
    {
      var next: Provider := *;
      var hears := AnyNat();
      if Rely(id, v, next) { v := next; }
      heard := heard + hears;
    }
  }

  // ---------------------------------------------------------------------------------------
  // ReplicationSlotCreate.Create
  // ---------------------------------------------------------------------------------------

  method CreateSlot(l: Link) returns (out: Outcome, ghost u: Provider, ghost u': Provider)
    requires l.id.SlotCreate? && !l.failed
    modifies l
    ensures Rely(l.id, old(l.v), u) && Rely(l.id, u', l.v)
    ensures out in {Success, SqlError} && (out == SqlError <==> l.failed)
    ensures if out == Success then SlotCreated(u, u') else u' == u
  {
    l.Interfere();
    u, u' := l.v, l.v;
    var queryFails := l.Statement();
    if queryFails { out := SqlError; return; }
    var exists_ := l.v.slot.Some?;
    if exists_ { out := Success; return; }
    l.Interfere();
    u, u' := l.v, l.v;
    var createFails := l.Statement();
    if createFails { out := SqlError; return; }
    var restart := AnyNat();
    l.v := l.v.(slot := Some(SlotPos(if restart <= l.v.wal then restart else l.v.wal, l.v.wal)));
    u' := l.v;
    l.Interfere();
    out := Success;
  }

  // ---------------------------------------------------------------------------------------
  // SyncEvent.Create
  // ---------------------------------------------------------------------------------------

  method CreateSyncEvent(l: Link) returns (out: Outcome, ghost u: Provider, ghost u': Provider)
    requires l.id.SyncEvent? && !l.failed
    modifies l
    ensures Rely(l.id, old(l.v), u) && Rely(l.id, u', l.v)
    ensures out in {Success, SqlError} && (out == SqlError <==> l.failed)
    ensures if out == Success then SyncMarked(u, u') else u' == u
  {
    l.Interfere();
    u, u' := l.v, l.v;
    var fails := l.Statement();
    if fails { out := SqlError; return; }
    var gap := AnyNat();
    var lsn := l.v.wal + 1 + gap;
    l.v := l.v.(wal := lsn, mark := Some(lsn));
    u' := l.v;
    l.Interfere();
    out := Success;
  }

  // ---------------------------------------------------------------------------------------
  // WaitForSyncEvent.Create
  // ---------------------------------------------------------------------------------------

  /** What the CALL said, if it was made. */
  datatype Answer = NotCalled | CallFailed | NotYet | Synced

  /** One round of the loop: the status that was read, and the answer. */
  datatype Poll = Poll(status: SubStatus, answer: Answer)

  /** A worker that is not up, or an event that has not arrived, is waited for. */
  predicate WaitsOn(p: Poll) {
    p.status in {DisabledStatus, Down} || p.answer == NotYet
  }

  /** The CALL is made unless the worker is not up or the status is none of the known ones. */
  predicate Sane(p: Poll) {
    p.answer == NotCalled <==> p.status in {DisabledStatus, Down, Other}
  }

  /** CALL spock.wait_for_sync_event: reports true only if the subscriber has heard the mark. */
  method CallWait(l: Link, lsn: nat) returns (answer: Answer)
    modifies l`failed
    ensures answer != NotCalled && (answer == Synced ==> l.heard >= lsn)
    ensures l.failed <==> old(l.failed) || answer == CallFailed
  {
    var fails := l.Statement();
    if fails { return CallFailed; }
    var timesOut: bool := *;
    answer := if !timesOut && l.heard >= lsn then Synced else NotYet;
  }

  /**
   Success means the mark was set and has been heard; it never moves anything itself.  What it returns
   is decided by its last round: an unknown status ends it at once as unhealthy, a failing CALL as an
   error, and it gives up only when no polls are left, with the worker down or the event still to come.
   */
  method WaitForSyncEvent(l: Link, ctx: nat) returns (out: Outcome, ghost u: Provider, ghost polls: seq<Poll>)
    requires l.id.WaitEvent? && !l.failed
    modifies l
    ensures Rely(l.id, old(l.v), u) && Rely(l.id, u, l.v)
    ensures out == NoLsn <==> old(l.v).mark.None?
    ensures out == Success ==> SyncConfirmed(u, u) && l.heard >= old(l.v).mark.value
    ensures |polls| <= ctx && forall i | 0 <= i < |polls| :: Sane(polls[i]) && (i < |polls| - 1 ==> WaitsOn(polls[i]))
    ensures out == Unhealthy <==> polls != [] && polls[|polls| - 1].status == Other
    ensures out == SqlError <==> polls != [] && polls[|polls| - 1].answer == CallFailed
    ensures out == Success <==> polls != [] && polls[|polls| - 1].answer == Synced
    ensures out == Cancelled <==>
            old(l.v).mark.Some? && |polls| == ctx && (polls == [] || WaitsOn(polls[|polls| - 1]))
    ensures out == SqlError <==> l.failed
  {
    u, polls := l.v, [];
    if l.v.mark.None? { out := NoLsn; return; }
    var lsn, left: nat := l.v.mark.value, ctx;
    while true
      invariant Rely(l.id, old(l.v), l.v) && u == l.v && l.v.mark == Some(lsn) && !l.failed
      invariant left + |polls| == ctx && forall i | 0 <= i < |polls| :: Sane(polls[i]) && WaitsOn(polls[i])
      decreases left
    {
      if left == 0 { out := Cancelled; return; }
      left := left - 1;
      l.Interfere();
      u := l.v;
      var status: SubStatus := *;
      match status {
        case Initializing | Replicating | Unknown | QueryFailed =>
        case DisabledStatus | Down =>
          polls := polls + [Poll(status, NotCalled)];
          continue;
        case Other =>
          polls := polls + [Poll(status, NotCalled)];
          out := Unhealthy;
          return;
      }
      var answer := CallWait(l, lsn);
      polls := polls + [Poll(status, answer)];
      if answer == CallFailed { out := SqlError; return; }
      if answer == Synced { out := Success; return; }
    }
  }

  // ---------------------------------------------------------------------------------------
  // PeerCatchup.Create
  // ---------------------------------------------------------------------------------------

  /**
   Success as soon as the source's apply progress is seen at or past the mark, and only then: seen is
   the progress each round read.  It gives up only when no polls are left.
   */
  method PeerCatchup(l: Link, ctx: nat) returns (out: Outcome, ghost u: Provider, ghost seen: seq<nat>)
    requires l.id.PeerCatchup? && !l.failed
    modifies l
    ensures Rely(l.id, old(l.v), u) && Rely(l.id, u, l.v)
    ensures out == NoLsn <==> old(l.v).mark.None?
    ensures out == Success ==> CaughtUp(u, u) && l.v.applied >= old(l.v).mark.value
    ensures out in {NoLsn, Cancelled, SqlError, Success} && |seen| <= ctx && (seen != [] ==> old(l.v).mark.Some?)
    ensures forall i | 0 <= i < |seen| - 1 :: seen[i] < old(l.v).mark.value
    ensures out == Success <==> seen != [] && seen[|seen| - 1] >= old(l.v).mark.value
    ensures out == Success ==> seen[|seen| - 1] == u.applied
    ensures out == Cancelled ==> |seen| == ctx
    ensures out == SqlError <==> l.failed
  {
    u, seen := l.v, [];
    if l.v.mark.None? { out := NoLsn; return; }
    var lsn, left: nat := l.v.mark.value, ctx;
    while true
      invariant Rely(l.id, old(l.v), l.v) && u == l.v && l.v.mark == Some(lsn) && !l.failed
      invariant left + |seen| == ctx && forall i | 0 <= i < |seen| :: seen[i] < lsn
      decreases left
    {
      if left == 0 { out := Cancelled; return; }
      left := left - 1;
      l.Interfere();
      u := l.v;
      var fails := l.Statement();
      if fails { out := SqlError; return; }
      var reached := l.v.applied >= lsn;
      seen := seen + [l.v.applied];
      if reached { out := Success; return; }
    }
  }

  // ---------------------------------------------------------------------------------------
  // LagTrackerCommitTimestamp.Create
  // ---------------------------------------------------------------------------------------

  /** entry is what spock.lag_tracker holds, as an LSN: a transaction that m has, hence everything up to it. */
  method ReadLagTracker(l: Link, entry: Option<nat>) returns (out: Outcome, ghost u: Provider, ghost u': Provider)
    requires entry.Some? && l.v.copy.Some? ==> l.v.CoveredTo(entry.value)
    requires l.id.LagTracker? && !l.failed
    modifies l
    ensures Rely(l.id, old(l.v), u) && Rely(l.id, u', l.v)
    ensures out in {Success, SqlError} && (out == SqlError <==> l.failed)
    ensures if out == Success then LagRead(u, u') && u'.target == entry else u' == u
  {
    l.Interfere();
    u, u' := l.v, l.v;
    var fails := l.Statement();
    if fails { out := SqlError; return; }
    l.v := l.v.(target := entry);
    u' := l.v;
    out := Success;
  }

  // ---------------------------------------------------------------------------------------
  // ReplicationSlotAdvanceFromCTS.Create
  // ---------------------------------------------------------------------------------------

  /** The last query on its own: a slot that is already further is left as it is, even while a worker holds it. */
  predicate SlotTaken(v: Provider, v': Provider) {
    && v.target.Some? && v.slot.Some?
    && var target, pos := v.target.value, v.slot.value;
       && v'.slot.Some? && v'.slot.value.flushed == Max(pos.flushed, target)
       && pos.restart <= v'.slot.value.restart <= v'.slot.value.flushed
       && (if target <= pos.flushed then v'.slot == v.slot else !v.active)
       && v' == v.(slot := v'.slot, advanced := Some(target))
  }

  /** Taken late, it still leaves nothing out. */
  lemma TakenKeeps(v: Provider, v': Provider)
    requires SlotTaken(v, v') && Kept(v)
    ensures Kept(v')
  {
  }

  /**
   The four separate queries of the advance, each on its own state: asked finds the slot inactive,
   read finds its restart position before the target, and u is what the last query moves.  Under any
   interference the slot never goes back, the recorded LSN is absent on every skip path, and when
   present it is the target and lies at or behind the slot.  A skip is one atomic step; so is the
   advance of a subscription that is not enabled.
   */
  method AdvanceSlot(l: Link)
    returns (out: Outcome, ghost asked: Provider, ghost read: Provider, ghost u: Provider, ghost u': Provider)
    requires l.v.slot.Some? ==> l.v.slot.value.restart <= l.v.slot.value.flushed
    requires l.id.SlotAdvance? && !l.failed
    modifies l
    ensures out in {Success, SqlError} && (out == SqlError <==> l.failed)
    ensures l.v.slot.Some? == old(l.v).slot.Some? && l.v.target == old(l.v).target
    ensures old(l.v).slot.Some? ==> Forward(old(l.v).slot.value, l.v.slot.value)
    ensures l.v.advanced.Some? ==> l.v.slot.Some? && l.v.advanced == old(l.v).target
                                   && l.v.advanced.value <= l.v.slot.value.flushed
    ensures out == SqlError ==> l.v.advanced.None?
    ensures old(l.v).target.None? ==> out == Success && l.v.advanced.None?
    ensures out == Success ==>
              && Rely(l.id, old(l.v), asked) && Rely(l.id, asked, read) && Rely(l.id, read, u) && Rely(l.id, u', l.v)
              && (u'.advanced.None? || old(l.v).target.None? ==> SlotAdvanced(u, u'))
              && (u'.advanced.Some? ==>
                    SlotTaken(u, u') && !asked.active && read.slot.Some?
                    && u.target.value > read.slot.value.restart)
              && (!old(l.v).sub.Enabled? ==> SlotAdvanced(u, u'))
  {
    ghost var was := l.v.advanced;
    l.v := l.v.(advanced := None);
    asked := l.v.(advanced := was);
    read, u, u' := asked, asked, l.v;
    if l.v.target.None? { out := Success; return; }
    var lookupFails := l.Statement();
    if lookupFails { out := SqlError; return; }
    var target := l.v.target.value;

    l.Interfere();
    asked := l.v.(advanced := was);
    read, u, u' := asked, asked, l.v;
    var activeFails := l.Statement();
    if activeFails { out := SqlError; return; }
    var isActive := l.v.slot.Some? && l.v.active;
    if isActive { out := Success; return; }

    out, read, u, u' := AdvanceFree(l, target, was);
  }

  /** The queries after the slot was found inactive. */
  method AdvanceFree(l: Link, target: nat, ghost was: Option<nat>)
    returns (out: Outcome, ghost read: Provider, ghost u: Provider, ghost u': Provider)
    requires l.v.slot.Some? ==> l.v.slot.value.restart <= l.v.slot.value.flushed && !l.v.active
    requires l.v.advanced.None? && l.v.target == Some(target) && l.id.SlotAdvance? && !l.failed
    modifies l
    ensures out in {Success, SqlError} && (out == SqlError <==> l.failed)
    ensures l.v.slot.Some? == old(l.v).slot.Some? && l.v.target == old(l.v).target
    ensures old(l.v).slot.Some? ==> Forward(old(l.v).slot.value, l.v.slot.value)
    ensures l.v.advanced.Some? ==>
              l.v.slot.Some? && l.v.advanced == Some(target) && target <= l.v.slot.value.flushed
    ensures out == SqlError ==> l.v.advanced.None?
    ensures out == Success ==>
              && Rely(l.id, old(l.v).(advanced := was), read) && Rely(l.id, read, u) && Rely(l.id, u', l.v)
              && (u'.advanced.None? ==> SlotAdvanced(u, u'))
              && (u'.advanced.Some? ==>
                    SlotTaken(u, u') && read.slot.Some? && u.target.value > read.slot.value.restart)
              && (!old(l.v).sub.Enabled? ==> SlotAdvanced(u, u'))
  {
    l.Interfere();
    read := l.v.(advanced := was);
    u, u' := read, l.v;
    var readFails := l.Statement();
    if readFails { out := SqlError; return; }
    if l.v.slot.None? { l.NoRow(); out := SqlError; return; }
    if target <= l.v.slot.value.restart { out := Success; return; }

    out, u, u' := MoveSlot(l, target, was);
  }

  /** The last query: pg_replication_slot_advance, which only moves a slot forward, and not one in use. */
  method MoveSlot(l: Link, target: nat, ghost was: Option<nat>)
    returns (out: Outcome, ghost u: Provider, ghost u': Provider)
    requires l.v.slot.Some? && l.v.slot.value.restart <= l.v.slot.value.flushed
    requires l.v.advanced.None? && l.v.target == Some(target) && l.id.SlotAdvance? && !l.failed
    modifies l
    ensures out in {Success, SqlError} && (out == SqlError <==> l.failed)
    ensures l.v.slot.Some? && l.v.target == old(l.v).target && Forward(old(l.v).slot.value, l.v.slot.value)
    ensures if out == Success then l.v.advanced == Some(target) && target <= l.v.slot.value.flushed
            else l.v.advanced.None?
    ensures Rely(l.id, old(l.v).(advanced := was), u)
    ensures out == Success ==> SlotTaken(u, u') && Rely(l.id, u', l.v)
  {
    l.Interfere();
    u, u' := l.v.(advanced := was), l.v;
    var advanceFails := l.Statement();
    var pos := l.v.slot.value;
    if advanceFails { out := SqlError; return; }
    if target > pos.flushed && l.v.active { l.InUse(); out := SqlError; return; }
    if target > pos.flushed {
      var lifts := AnyNat();
      var restart := if pos.restart + lifts <= target then pos.restart + lifts else pos.restart;
      l.v := l.v.(slot := Some(SlotPos(restart, target)));
    }
    l.v := l.v.(advanced := Some(target));
    u' := l.v;
    l.Interfere();
    out := Success;
  }

  // ---------------------------------------------------------------------------------------
  // ReplicationOriginAdvance.Create
  // ---------------------------------------------------------------------------------------

  /** The origin follows the recorded LSN unless a worker is using it, and stays put when there is none. */
  method AdvanceOrigin(l: Link) returns (out: Outcome, ghost u: Provider, ghost u': Provider)
    requires l.id.OriginAdvance? && !l.failed
    modifies l
    ensures Rely(l.id, old(l.v), u) && Rely(l.id, u', l.v)
    ensures out in {Success, SqlError} && (out == SqlError <==> l.failed)
    ensures if out == Success then OriginAdvanced(u, u') else u' == u
  {
    u, u' := l.v, l.v;
    if l.v.advanced.None? { out := Success; return; }
    var target := l.v.advanced.value;
    l.Interfere();
    u, u' := l.v, l.v;
    var ensureFails := l.Statement();
    if ensureFails { out := SqlError; return; }
    l.Interfere();
    u, u' := l.v, l.v;
    var advanceFails := l.Statement();
    if advanceFails { out := SqlError; return; }
    if l.v.active { l.InUse(); out := SqlError; return; }
    l.v := l.v.(origin := target);
    u' := l.v;
    l.Interfere();
    out := Success;
  }

  // ---------------------------------------------------------------------------------------
  // DisabledSubscription.Create, Subscription.Create (sync = false)
  // ---------------------------------------------------------------------------------------

  method CreateDisabledSubscription(l: Link) returns (out: Outcome, ghost u: Provider, ghost u': Provider)
    requires l.id.DisabledSub? && !l.failed
    modifies l
    ensures Rely(l.id, old(l.v), u) && Rely(l.id, u', l.v)
    ensures out in {Success, SqlError} && (out == SqlError <==> l.failed)
    ensures if out == Success then DisabledRegistered(u, u') else u' == u
  {
    l.Interfere();
    u, u' := l.v, l.v;
    var fails := l.Statement();
    if fails { out := SqlError; return; }
    if l.v.sub == Absent { l.v := l.v.(sub := Disabled); }
    u' := l.v;
    l.Interfere();
    out := Success;
  }

  method CreateSubscription(l: Link) returns (out: Outcome, ghost u: Provider, ghost u': Provider)
    requires l.id.Sub? && !l.failed
    modifies l
    ensures Rely(l.id, old(l.v), u) && Rely(l.id, u', l.v)
    ensures out in {Success, SqlError} && (out == SqlError <==> l.failed)
    ensures if out == Success then SubEnabled(u, u') else u' == u
    ensures out == Success ==> u'.sub.Enabled?
  {
    l.Interfere();
    u, u' := l.v, l.v;
    var fails := l.Statement();
    if fails { out := SqlError; return; }
    var existsDisabled := l.v.sub == Disabled;
    if existsDisabled {
      l.v := Enable(l.v);
    } else if l.v.sub == Absent {
      if l.v.slot.None? {
        var restart := AnyNat();
        l.v := l.v.(slot := Some(SlotPos(if restart <= l.v.wal then restart else l.v.wal, l.v.wal)));
      }
      l.v := Enable(l.v);
    }
    u' := l.v;
    l.Interfere();
    out := Success;
  }
}
