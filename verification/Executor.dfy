/**
 Execute (internal/resource/executor.go:13-49) as a transition system.

 Phases run one after the other; inside a phase every task has its own goroutine, so tasks
 begin and finish in any interleaving.  A phase is left only once all its goroutines have
 returned: forward when all succeeded, with an error when one failed.
 */
module Executor {
  import opened Resources
  import opened Layering
  import opened Sorting
  import opened Planning

  datatype TaskState = Waiting | Running | Ok | Failed

  datatype Exec = Exec(phase: nat, st: map<Task, TaskState>, halted: bool)

  datatype ExecStep = Begin(t: Task) | Succeed(t: Task) | Fail(t: Task) | NextPhase | Abort

  ghost function AllTasks(plan: seq<set<Task>>): set<Task> {
    set k, t | 0 <= k < |plan| && t in plan[k] :: t
  }

  ghost predicate ExecInit(plan: seq<set<Task>>, s: Exec) {
    s.phase == 0 && !s.halted && s.st.Keys == AllTasks(plan) && forall t | t in s.st :: s.st[t] == Waiting
  }

  ghost predicate ExecNext(plan: seq<set<Task>>, s: Exec, s': Exec, step: ExecStep) {
    match step
    case Begin(t) =>
      !s.halted && Planned(plan, s.phase, t) && t in s.st && s.st[t] == Waiting
      && s' == s.(st := s.st[t := Running])
    case Succeed(t) =>
      t in s.st && s.st[t] == Running && s' == s.(st := s.st[t := Ok])
    case Fail(t) =>
      t in s.st && s.st[t] == Running && s' == s.(st := s.st[t := Failed])
    case NextPhase =>
      !s.halted && s.phase < |plan|
      && (forall t | t in plan[s.phase] :: t in s.st && s.st[t] == Ok)
      && s' == s.(phase := s.phase + 1)
    case Abort =>
      !s.halted && s.phase < |plan|
      && (forall t | t in plan[s.phase] :: t in s.st && s.st[t] in {Ok, Failed})
      && (exists t | t in plan[s.phase] :: s.st[t] == Failed)
      && s' == s.(halted := true)
  }

  /** Every task of an earlier phase succeeded, and no task of a later phase has begun. */
  ghost predicate ExecInv(plan: seq<set<Task>>, s: Exec) {
    && s.phase <= |plan|
    && s.st.Keys == AllTasks(plan)
    && (forall k, t :: Planned(plan, k, t) && k < s.phase ==> s.st[t] == Ok)
    && (forall k, t :: Planned(plan, k, t) && k > s.phase ==> s.st[t] == Waiting)
  }

  ghost predicate Started(s: Exec, t: Task) {
    t in s.st && s.st[t] != Waiting
  }

  ghost predicate Done(s: Exec, t: Task) {
    t in s.st && s.st[t] == Ok
  }

  lemma InitInv(plan: seq<set<Task>>, s: Exec)
    requires ExecInit(plan, s)
    ensures ExecInv(plan, s)
  {
  }

  lemma NextInv(plan: seq<set<Task>>, s: Exec, s': Exec, step: ExecStep)
    requires OncePerTask(plan) && ExecInv(plan, s) && ExecNext(plan, s, s', step)
    ensures ExecInv(plan, s')
  {
    match step
    case Begin(t) =>
    case Succeed(t) => RunningIsCurrent(plan, s, t);
    case Fail(t) => RunningIsCurrent(plan, s, t);
    case NextPhase =>
      forall k, t | Planned(plan, k, t) && k < s'.phase ensures s'.st[t] == Ok {}
    case Abort =>
  }

  lemma PhaseOf(plan: seq<set<Task>>, t: Task) returns (k: nat)
    requires t in AllTasks(plan)
    ensures Planned(plan, k, t)
  {
    k :| k < |plan| && t in plan[k];
  }

  /** Only tasks of the current phase are running or have failed. */
  lemma RunningIsCurrent(plan: seq<set<Task>>, s: Exec, t: Task)
    requires ExecInv(plan, s) && t in s.st && s.st[t] in {Running, Failed}
    ensures Planned(plan, s.phase, t)
  {
    var k := PhaseOf(plan, t);
  }

  /** A task begins only after every task of an earlier phase has returned success. */
  lemma StartedAfter(plan: seq<set<Task>>, s: Exec, first: Task, second: Task, j: int, k: int)
    requires ExecInv(plan, s) && Planned(plan, j, first) && Planned(plan, k, second) && j < k
    requires Started(s, second)
    ensures Done(s, first)
  {
  }

  // ---------------------------------------------------------------------------------------
  // Whole runs
  // ---------------------------------------------------------------------------------------

  ghost predicate IsRun(plan: seq<set<Task>>, run: seq<Exec>) {
    && |run| > 0 && ExecInit(plan, run[0])
    && forall i | 0 <= i < |run| - 1 :: StepsTo(plan, run[i], run[i + 1])
  }

  ghost predicate StepsTo(plan: seq<set<Task>>, s: Exec, s': Exec) {
    exists step :: ExecNext(plan, s, s', step)
  }

  lemma {:induction false} RunInv(plan: seq<set<Task>>, run: seq<Exec>, i: nat)
    requires OncePerTask(plan) && IsRun(plan, run) && i < |run|
    ensures ExecInv(plan, run[i])
  {
    if i == 0 {
      InitInv(plan, run[0]);
    } else {
      RunInv(plan, run, i - 1);
      assert StepsTo(plan, run[i - 1], run[i - 1 + 1]);
      var step :| ExecNext(plan, run[i - 1], run[i], step);
      NextInv(plan, run[i - 1], run[i], step);
    }
  }

  /** Once a task has failed, it stays failed and its phase is never left. */
  lemma {:induction false} FailureSticks(plan: seq<set<Task>>, run: seq<Exec>, i: nat, j: nat, t: Task)
    requires OncePerTask(plan) && IsRun(plan, run) && i <= j < |run|
    requires t in run[i].st && run[i].st[t] == Failed
    ensures t in run[j].st && run[j].st[t] == Failed && run[j].phase == run[i].phase
    decreases j
  {
    RunInv(plan, run, i);
    RunningIsCurrent(plan, run[i], t);
    if i < j {
      FailureSticks(plan, run, i, j - 1, t);
      assert StepsTo(plan, run[j - 1], run[j - 1 + 1]);
    }
  }

  /** After a failure no task of a later phase ever begins. */
  lemma NothingAfterFailure(plan: seq<set<Task>>, run: seq<Exec>, i: nat, j: nat, failed: Task, k: int, later: Task,
                            m: int)
    requires OncePerTask(plan) && IsRun(plan, run) && i <= j < |run|
    requires failed in run[i].st && run[i].st[failed] == Failed
    requires Planned(plan, k, failed) && Planned(plan, m, later) && k < m
    ensures !Started(run[j], later)
  {
    RunInv(plan, run, i);
    RunningIsCurrent(plan, run[i], failed);
    FailureSticks(plan, run, i, j, failed);
    RunInv(plan, run, j);
  }

  /**
   An error is returned only once every goroutine of its phase has returned, and then for good: nothing
   is running, some task of the phase has failed, and no later phase has begun.
   */
  lemma {:induction false} HaltedIsQuiet(plan: seq<set<Task>>, run: seq<Exec>, i: nat)
    requires OncePerTask(plan) && IsRun(plan, run) && i < |run| && run[i].halted
    ensures forall t | t in run[i].st :: run[i].st[t] != Running
    ensures exists t :: Planned(plan, run[i].phase, t) && t in run[i].st && run[i].st[t] == Failed
    ensures forall k, t :: Planned(plan, k, t) && k > run[i].phase ==> !Started(run[i], t)
    ensures i + 1 == |run|
  {
    RunInv(plan, run, i);
    var j := i - 1;
    assert StepsTo(plan, run[j], run[j + 1]);
    RunInv(plan, run, j);
    if run[j].halted {
      HaltedIsQuiet(plan, run, j);
    } else {
      var s := run[j];
      forall t | t in run[i].st ensures run[i].st[t] != Running {
        if s.st[t] == Running { RunningIsCurrent(plan, s, t); }
      }
      var t :| t in plan[s.phase] && s.st[t] == Failed;
      assert Planned(plan, run[i].phase, t);
    }
    if i + 1 < |run| {
      assert StepsTo(plan, run[i], run[i + 1]);
    }
  }

  /** The edge a dependency imposes: x first, then y. */
  ghost predicate MustWait(deps: Deps, ids: set<Identifier>, action: Action, x: Identifier, y: Identifier) {
    && x in ids && y in ids
    && (if action == Delete then x in deps && y in deps[x] else y in deps && x in deps[y])
    && !AfterCycle(y, ids, LinksOn(ids, deps, action == Delete))
  }

  lemma InvRespectsDependencies(deps: Deps, d: set<Identifier>, u: set<Identifier>, c: set<Identifier>,
                                s: Exec, action: Action, x: Identifier, y: Identifier)
    requires ExecInv(PlanOf(deps, d, u, c), s)
    requires MustWait(deps, TargetsOf(action, d, u, c), action, x, y)
    requires Started(s, Task(action, y))
    ensures Done(s, Task(action, x))
  {
    var ids := TargetsOf(action, d, u, c);
    if action == Delete {
      assert Link(x, y, true) in LinksOn(ids, deps, true);
    } else {
      assert Link(y, x, false) in LinksOn(ids, deps, false);
    }
    var j, k := PlanOrder(deps, d, u, c, action, x, y);
    StartedAfter(PlanOf(deps, d, u, c), s, Task(action, x), Task(action, y), j, k);
  }

  /** An earlier create layer completes before a later one begins, with or without an edge. */
  lemma InvRespectsLayers(deps: Deps, d: set<Identifier>, u: set<Identifier>, c: set<Identifier>,
                          s: Exec, x: Identifier, y: Identifier, j: nat, k: nat)
    requires ExecInv(PlanOf(deps, d, u, c), s) && j < k
    requires InLayer(x, j, Layers(c, LinksOn(c, deps, false))) && InLayer(y, k, Layers(c, LinksOn(c, deps, false)))
    requires Started(s, Task(Create, y))
    ensures Done(s, Task(Create, x))
  {
    var o := Offset(Create, deps, d, u);
    PlannedWhere(deps, d, u, c, j + o, Task(Create, x));
    PlannedWhere(deps, d, u, c, k + o, Task(Create, y));
    StartedAfter(PlanOf(deps, d, u, c), s, Task(Create, x), Task(Create, y), j + o, k + o);
  }

  /**
   Whole-run safety of Execute over Plan: in every interleaving, whatever failed or is still
   running, a task off every cycle has begun only if each in-set task it must wait for has
   succeeded: a create after the creates it depends on, a delete after the deletes of its
   dependents.  The executed set is therefore dependency-closed.
   */
  lemma RunRespectsDependencies(deps: Deps, d: set<Identifier>, u: set<Identifier>, c: set<Identifier>,
                                run: seq<Exec>, i: nat, action: Action, x: Identifier, y: Identifier)
    requires IsRun(PlanOf(deps, d, u, c), run) && i < |run|
    requires MustWait(deps, TargetsOf(action, d, u, c), action, x, y)
    requires Started(run[i], Task(action, y))
    ensures Done(run[i], Task(action, x))
  {
    PlanIsPartition(deps, d, u, c);
    RunInv(PlanOf(deps, d, u, c), run, i);
    InvRespectsDependencies(deps, d, u, c, run[i], action, x, y);
  }

  lemma InvDeletesFirst(deps: Deps, d: set<Identifier>, u: set<Identifier>, c: set<Identifier>, s: Exec,
                        first: Task, second: Task)
    requires ExecInv(PlanOf(deps, d, u, c), s)
    requires first.id in TargetsOf(first.action, d, u, c) && Started(s, second)
    requires (first.action == Delete && second.action != Delete) || (first.action == Update && second.action == Create)
    ensures Done(s, first)
  {
    var plan := PlanOf(deps, d, u, c);
    PlanIsPartition(deps, d, u, c);
    var j :| Planned(plan, j, first);
    var k := PhaseOf(plan, second);
    StartedAfter(plan, s, first, second, j, k);
  }

  /** A recreated resource is deleted, successfully, before its create begins; updates come in between. */
  lemma RunDeletesFirst(deps: Deps, d: set<Identifier>, u: set<Identifier>, c: set<Identifier>,
                        run: seq<Exec>, i: nat, first: Task, second: Task)
    requires IsRun(PlanOf(deps, d, u, c), run) && i < |run|
    requires first.id in TargetsOf(first.action, d, u, c) && Started(run[i], second)
    requires (first.action == Delete && second.action != Delete) || (first.action == Update && second.action == Create)
    ensures Done(run[i], first)
  {
    PlanIsPartition(deps, d, u, c);
    RunInv(PlanOf(deps, d, u, c), run, i);
    InvDeletesFirst(deps, d, u, c, run[i], first, second);
  }

  // ---------------------------------------------------------------------------------------
  // Every run ends
  // ---------------------------------------------------------------------------------------

  ghost function In(st: map<Task, TaskState>, state: TaskState): set<Task> {
    set t | t in st && st[t] == state
  }

  /** Goroutines still to begin count twice, running ones once; phases still to leave, and the error exit, once. */
  ghost function StepsLeft(plan: seq<set<Task>>, s: Exec): nat
    requires s.phase <= |plan|
  {
    2 * |In(s.st, Waiting)| + |In(s.st, Running)| + (|plan| - s.phase) + (if s.halted then 0 else 1)
  }

  lemma Moved(st: map<Task, TaskState>, t: Task, to: TaskState)
    requires t in st && st[t] != to
    ensures |In(st[t := to], st[t])| == |In(st, st[t])| - 1
    ensures |In(st[t := to], to)| == |In(st, to)| + 1
    ensures forall x | x != to && x != st[t] :: |In(st[t := to], x)| == |In(st, x)|
  {
    assert In(st[t := to], st[t]) == In(st, st[t]) - {t};
    assert In(st[t := to], to) == In(st, to) + {t};
    forall x | x != to && x != st[t] ensures |In(st[t := to], x)| == |In(st, x)| {
      assert In(st[t := to], x) == In(st, x);
    }
  }

  lemma StepCosts(plan: seq<set<Task>>, s: Exec, s': Exec, step: ExecStep)
    requires ExecNext(plan, s, s', step) && s.phase <= |plan|
    ensures s'.phase <= |plan| && StepsLeft(plan, s') + 1 == StepsLeft(plan, s)
  {
    match step
    case Begin(t) => Moved(s.st, t, Running);
    case Succeed(t) => Moved(s.st, t, Ok);
    case Fail(t) => Moved(s.st, t, Failed);
    case NextPhase =>
    case Abort =>
  }

  lemma {:induction false} RunCosts(plan: seq<set<Task>>, run: seq<Exec>, i: nat)
    requires IsRun(plan, run) && i < |run|
    ensures run[i].phase <= |plan| && i + StepsLeft(plan, run[i]) == 2 * |AllTasks(plan)| + |plan| + 1
  {
    if i == 0 {
      assert In(run[0].st, Waiting) == AllTasks(plan) && In(run[0].st, Running) == {};
    } else {
      RunCosts(plan, run, i - 1);
      assert StepsTo(plan, run[i - 1], run[i - 1 + 1]);
      var step :| ExecNext(plan, run[i - 1], run[i], step);
      StepCosts(plan, run[i - 1], run[i], step);
    }
  }

  /** No interleaving goes on for ever: two steps per task, one per phase, and one to stop. */
  lemma RunsAreBounded(plan: seq<set<Task>>, run: seq<Exec>)
    requires IsRun(plan, run)
    ensures |run| <= 2 * |AllTasks(plan)| + |plan| + 2
  {
    RunCosts(plan, run, |run| - 1);
  }

  ghost predicate NoFailure(s: Exec) {
    !s.halted && forall t | t in s.st :: s.st[t] != Failed
  }

  /** As long as nothing has failed, the run can go on without a failure. */
  lemma GoesOn(plan: seq<set<Task>>, s: Exec) returns (step: ExecStep, s': Exec)
    requires ExecInv(plan, s) && NoFailure(s) && s.phase < |plan|
    ensures ExecNext(plan, s, s', step) && NoFailure(s') && (step.Begin? || step.Succeed? || step.NextPhase?)
    ensures step.Succeed? ==> Planned(plan, s.phase, step.t)
  {
    forall t | t in plan[s.phase] ensures t in s.st {
      assert t in AllTasks(plan);
    }
    if t :| t in plan[s.phase] && s.st[t] == Waiting {
      step, s' := Begin(t), s.(st := s.st[t := Running]);
    } else if t :| t in plan[s.phase] && s.st[t] == Running {
      step, s' := Succeed(t), s.(st := s.st[t := Ok]);
    } else {
      step, s' := NextPhase, s.(phase := s.phase + 1);
    }
  }

  /** Execute never deadlocks: before the end, and unless it has stopped with an error, some step is possible. */
  lemma NeverStuck(plan: seq<set<Task>>, s: Exec) returns (step: ExecStep, s': Exec)
    requires ExecInv(plan, s) && !s.halted && s.phase < |plan|
    ensures ExecNext(plan, s, s', step)
  {
    forall t | t in plan[s.phase] ensures t in s.st {
      assert t in AllTasks(plan);
    }
    if t :| t in plan[s.phase] && s.st[t] == Waiting {
      step, s' := Begin(t), s.(st := s.st[t := Running]);
    } else if t :| t in plan[s.phase] && s.st[t] == Running {
      step, s' := Succeed(t), s.(st := s.st[t := Ok]);
    } else if t :| t in plan[s.phase] && s.st[t] == Failed {
      step, s' := Abort, s.(halted := true);
    } else {
      step, s' := NextPhase, s.(phase := s.phase + 1);
    }
  }

  ghost predicate CanStep(plan: seq<set<Task>>, s: Exec) {
    exists s' :: StepsTo(plan, s, s')
  }

  /** A run that cannot be extended has either left every phase, with all tasks done, or stopped on a failed task. */
  lemma MaximalRunEnds(plan: seq<set<Task>>, run: seq<Exec>, t: Task)
    requires OncePerTask(plan) && IsRun(plan, run) && t in AllTasks(plan)
    requires !CanStep(plan, run[|run| - 1])
    ensures var s := run[|run| - 1];
            if s.halted then exists f :: f in s.st && s.st[f] == Failed else s.phase == |plan| && Done(s, t)
  {
    var s := run[|run| - 1];
    RunInv(plan, run, |run| - 1);
    if s.halted {
      HaltedOnFailure(plan, run, |run| - 1);
    } else if s.phase < |plan| {
      var step, s' := NeverStuck(plan, s);
      assert StepsTo(plan, s, s') && CanStep(plan, s);
    } else {
      var k := PhaseOf(plan, t);
      assert Planned(plan, k, t);
    }
  }

  lemma {:induction false} HaltedOnFailure(plan: seq<set<Task>>, run: seq<Exec>, i: nat)
    requires OncePerTask(plan) && IsRun(plan, run) && i < |run| && run[i].halted
    ensures exists f :: f in run[i].st && run[i].st[f] == Failed
  {
    if i > 0 {
      assert StepsTo(plan, run[i - 1], run[i - 1 + 1]);
      var step :| ExecNext(plan, run[i - 1], run[i], step);
      if run[i - 1].halted {
        HaltedOnFailure(plan, run, i - 1);
        var f :| f in run[i - 1].st && run[i - 1].st[f] == Failed;
        assert f in run[i].st && run[i].st[f] == Failed;
      } else {
        RunInv(plan, run, i - 1);
        var f :| f in plan[run[i - 1].phase] && run[i - 1].st[f] == Failed;
        assert f in run[i].st && run[i].st[f] == Failed;
      }
    }
  }
}
