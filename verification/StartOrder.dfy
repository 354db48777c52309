/** The order in which processes are started: dependencies first. */
module StartOrder {
  import opened States
  import opened Counting
  import opened Engine
  import opened EngineInvariant
  import opened Runs

  /** A process that is starting has not failed. */
  ghost predicate StartingNotFailed(e: Engine) {
    forall i :: 0 <= i < |e.procs| && e.procs[i] == Starting ==> i !in e.failed
  }

  /** While in transition, every entry naming a process that has not let its dependents go
      is still counted. */
  ghost predicate Outstanding(c: Config, e: Engine)
    requires Sized(c, e)
  {
    forall i: nat :: i in e.included ==> e.counters[i] >= CountOutside(c.deps[i], e.released)
  }

  /** While in transition, a node of the phase lets its dependents go only with its own job, whose
      attempt is then over for good. */
  ghost predicate ReleasedOnce(e: Engine) {
    && (forall i: nat :: i in e.included && i in e.released ==> i in e.leaving || i in e.done || i in e.executed)
    && (forall i: nat :: i in e.leaving && i in e.released && i < |e.procs| ==>
          i !in e.failed && (e.procs[i] == Running || e.procs[i] == Terminated))
  }

  /** Whoever is being started had all its dependencies let go. */
  ghost predicate StartersReady(c: Config, e: Engine) {
    forall i: nat, d: nat :: (i in e.starters || i in e.leaving) && i < |c.deps| && d in c.deps[i] ==> d in e.released
  }

  ghost predicate StartPart(c: Config, e: Engine)
    requires Sized(c, e)
  {
    && StartingNotFailed(e)
    && (e.starting ==>
          && StartersReady(c, e)
          && (e.state == InTransition ==> Outstanding(c, e) && ReleasedOnce(e)))
  }

  lemma StartPhaseBegins(c: Config, e: Engine)
    requires Sized(c, e) && JobCount(e) == 0 && StartingNotFailed(e)
    ensures var e1 := QueueStartJobs(c, e); Sized(c, e1) && StartPart(c, e1)
  {
    assert e.starters == e.leaving == e.done == multiset{};
  }

  lemma NoStopHeads(c: Config, e: Engine)
    requires Sized(c, e) && JobCount(e) == 0
    ensures var e1 := QueueHeadNodes(c, e, false);
            Sized(c, e1) && (e1.inFlight <= 0 ==> JobCount(e1) == 0)
  {
    var e1 := QueueHeadNodes(c, e, false);
    if e1.inFlight <= 0 && e.state == InTransition {
      assert Heads(e1.included, e1.counters) == {};
    }
  }

  lemma StartTransitionPart(c: Config, e: Engine, indexes: seq<nat>)
    requires Sized(c, e) && StartPart(c, e) && JobCount(e) == 0
    requires e.state == Success || e.state == Undefined
    ensures var e1 := StartTransition(c, e, indexes); Sized(c, e1) && StartPart(c, e1)
  {
    var e0 := e.(state := InTransition, requested := set i | i in indexes && i < |c.deps|);
    NoStopHeads(c, e0);
    var e1 := QueueHeadNodes(c, e0, false);
    StopPhasePart(c, e0);
    assert StartTransition(c, e, indexes) == if e1.inFlight > 0 then e1 else QueueStartJobs(c, e1);
    hide QueueHeadNodes, QueueStartJobs, StartPart, JobCount, StartingNotFailed, StartTransition;
    if e1.inFlight <= 0 {
      StartPhaseBegins(c, e1);
    }
  }

  lemma StopPhasePart(c: Config, e: Engine)
    requires Sized(c, e) && StartingNotFailed(e)
    ensures var e1 := QueueHeadNodes(c, e, false); Sized(c, e1) && StartingNotFailed(e1) && StartPart(c, e1)
  {
  }

  lemma StartBegin(c: Config, e: Engine, i: nat)
    requires Sized(c, e) && StartPart(c, e) && i in e.queued && i < |e.procs|
    requires i in e.included && e.counters[i] == 0
    requires i !in e.leaving && i !in e.done && i !in e.executed
    ensures StartPart(c, BeginWork(e, i))
  {
    CountOutsideZero(c.deps[i], e.released);
    var e1 := BeginWork(e, i);
    if e.state == InTransition && e.starting {
      assert i !in e.released;
      assert forall k: nat :: k in e1.starters ==> k == i || k in e.starters;
      assert forall k: nat :: k in e.done ==> k in e1.done;
    }
  }

  /** Letting the dependents of `i` go keeps every counter at or above what is outstanding. */
  lemma StartReleaseOutstanding(c: Config, e: Engine, i: nat)
    requires Sized(c, e) && Outstanding(c, e) && i !in e.released
    ensures Outstanding(c, ReleaseDependents(c, e, i))
  {
    var e1 := ReleaseDependents(c, e, i);
    forall k: nat | k in e1.included
      ensures e1.counters[k] >= CountOutside(c.deps[k], e1.released)
    {
      CountOutsideAdd(c.deps[k], e.released, i);
    }
  }

  lemma StartRelease(c: Config, e: Engine, i: nat)
    requires Sized(c, e) && StartPart(c, e) && e.starting
    requires i in e.starters && i < |e.procs| && i !in e.failed
    requires e.procs[i] == Running || e.procs[i] == Terminated
    requires i in e.included && i !in e.leaving && i !in e.done && i !in e.executed
    ensures StartPart(c, AttemptOver(ReleaseDependents(c, e, i), i))
  {
    var e1 := ReleaseDependents(c, e, i);
    var e2 := AttemptOver(e1, i);
    if e.state == InTransition {
      assert i !in e.released;
      StartReleaseOutstanding(c, e, i);
    }
    assert forall k: nat :: k in e2.leaving <==> k == i || k in e.leaving;
    assert forall k: nat :: k in e2.starters ==> k in e.starters;
  }

  /** Steps that only count, or change the graph's state. */
  lemma StartFrame(c: Config, e: Engine, e1: Engine)
    requires Sized(c, e) && StartPart(c, e)
    requires e1.procs == e.procs && e1.failed == e.failed && e1.counters == e.counters
    requires e1.starting == e.starting && e1.included == e.included && e1.requested == e.requested
    requires e1.released == e.released && e1.starters == e.starters && e1.leaving == e.leaving
    requires forall i: nat :: i in e.done || i in e.executed ==> i in e1.done || i in e1.executed || e1.state != InTransition
    requires e1.state == InTransition ==> e.state == InTransition
    ensures Sized(c, e1) && StartPart(c, e1)
  {
  }

  lemma StartRespawn(c: Config, e: Engine, i: nat)
    requires Sized(c, e) && StartPart(c, e) && PhaseJobs(e) && Enabled(c, e, Respawn(i))
    ensures StartPart(c, Apply(c, e, Respawn(i)))
  {
    var e1 := Apply(c, e, Respawn(i));
    assert forall k: nat :: k in e1.starters ==> k == i || k in e.starters;
    assert forall k: nat :: k in e1.leaving ==> k in e.leaving;
    assert forall k: nat :: k in e.leaving && k != i ==> k in e1.leaving;
  }

  lemma StartLeave(c: Config, e: Engine, i: nat)
    requires Sized(c, e) && StartPart(c, e) && PhaseJobs(e) && Enabled(c, e, LeaveStart(i))
    ensures StartPart(c, Apply(c, e, LeaveStart(i)))
  {
    var e1 := Apply(c, e, LeaveStart(i));
    assert forall k: nat :: k in e1.leaving ==> k in e.leaving;
    assert forall k: nat :: k in e.leaving ==> k in e1.leaving || k in e1.done;
  }

  lemma StartKill(c: Config, e: Engine, i: nat)
    requires Sized(c, e) && StartPart(c, e) && Enabled(c, e, KillStarting(i))
    ensures StartPart(c, Apply(c, e, KillStarting(i)))
  {
  }

  lemma StartGiveUp(c: Config, e: Engine, i: nat)
    requires Inv(c, e) && StartPart(c, e) && i in e.starters
    ensures StartPart(c, AttemptOver(e, i))
  {
    StarterFacts(c, e, i);
    var e1 := AttemptOver(e, i);
    assert forall k: nat :: k in e1.leaving <==> k == i || k in e.leaving;
    assert forall k: nat :: k in e1.starters ==> k in e.starters;
  }

  lemma StartExecuted(c: Config, e: Engine, i: nat)
    requires Inv(c, e) && StartPart(c, e) && i in e.done
    ensures var e1 := NodeExecuted(c, e.(done := e.done - multiset{i}), i); Sized(c, e1) && StartPart(c, e1)
  {
    var e1 := NodeExecuted(c, e.(done := e.done - multiset{i}), i);
    if e.state == InTransition && e.toExecute == 1 && !e.starting {
      ExecutedInTransition(c, e, i);
      AllExecuted(c, OneLess(e, i));
      StartPhaseBegins(c, OneLess(e, i));
    } else {
      StartExecutedFrame(c, e, i);
    }
  }

  lemma StartExecutedFrame(c: Config, e: Engine, i: nat)
    requires Sized(c, e) && StartPart(c, e) && i in e.done
    requires e.state == InTransition ==> e.toExecute > 1 || (e.toExecute == 1 && e.starting)
    ensures var e1 := NodeExecuted(c, e.(done := e.done - multiset{i}), i); Sized(c, e1) && StartPart(c, e1)
  {
    var e1 := NodeExecuted(c, e.(done := e.done - multiset{i}), i);
    assert forall k: nat :: k in e.done && k != i ==> k in e1.done;
    StartFrame(c, e, e1);
  }

  /** A process ends; in transition, one that has let its dependents go ends without failing. */
  lemma StartDies(c: Config, e: Engine, i: nat, e1: Engine)
    requires Sized(c, e) && StartPart(c, e) && i < |e.procs|
    requires e1 == e.(procs := e.procs[i := Terminated], failed := e1.failed)
    requires e1.failed == e.failed - {i} || e1.failed == e.failed + {i}
    requires e.starting && e.state == InTransition && i in e.leaving && i in e.released ==> i !in e1.failed
    ensures StartPart(c, e1)
  {
  }

  lemma StartEnded(c: Config, e: Engine, i: nat, status: int)
    requires Sized(c, e) && StartPart(c, e) && Enabled(c, e, Ended(i, status))
    ensures StartPart(c, ProcessEnded(c, e, i, status))
  {
    var e1 := ProcessEnded(c, e, i, status);
    var e0 := e.(state := e1.state, abortCode := e1.abortCode);
    StartFrame(c, e, e0);
    StartDies(c, e0, i, e1);
  }

  lemma StartCancel(c: Config, e: Engine)
    requires Sized(c, e) && StartPart(c, e)
    ensures StartPart(c, Cancel(e))
  {
    StartFrame(c, e, Cancel(e));
  }

  lemma StartAbort(c: Config, e: Engine, reason: Code)
    requires Sized(c, e) && StartPart(c, e)
    ensures StartPart(c, Abort(e, reason))
  {
    StartFrame(c, e, Abort(e, reason));
  }

  lemma StartReport(c: Config, e: Engine, i: nat)
    requires Inv(c, e) && StartPart(c, e) && Enabled(c, e, ReportRunning(i))
    ensures StartPart(c, AttemptOver(ReleaseDependents(c, e.(procs := e.procs[i := Running]), i), i))
  {
    StarterFacts(c, e, i);
    var e0 := e.(procs := e.procs[i := Running]);
    assert StartPart(c, e0);
    StartRelease(c, e0, i);
  }

  lemma StartReportEnded(c: Config, e: Engine, i: nat)
    requires Inv(c, e) && StartPart(c, e) && Enabled(c, e, ReportEnded(i))
    ensures StartPart(c, AttemptOver(ReleaseDependents(c, e, i), i))
  {
    StarterFacts(c, e, i);
    StartRelease(c, e, i);
  }

  /** Facts about a job that is being started, from the invariant. */
  lemma StarterFacts(c: Config, e: Engine, i: nat)
    requires Inv(c, e) && i in e.starters
    ensures e.starting && i in e.included && i !in e.leaving && i !in e.done && i !in e.executed
    ensures i !in e.queued && i !in e.stoppers && e.counters[i] == 0
  {
    assert Load(e, i) >= 1;
  }

  lemma QueuedFacts(c: Config, e: Engine, i: nat)
    requires Inv(c, e) && i in e.queued
    ensures i in e.included && i !in e.leaving && i !in e.done && i !in e.executed && i !in e.starters && i !in e.stoppers
    ensures e.counters[i] == 0
  {
    assert Load(e, i) >= 1;
  }

  lemma StepSized(c: Config, e: Engine, s: Step)
    requires Inv(c, e) && Enabled(c, e, s)
    ensures Sized(c, Apply(c, e, s))
  {
    StepInv(c, e, s);
  }

  /** The steps of a worker that starts a process. */
  predicate StarterStep(s: Step) {
    s.Respawn? || s.LeaveStart? || s.KillStarting? || s.ReportRunning? || s.ReportEnded? || s.GiveUp? || s.FailStart?
  }

  lemma StarterStepStart(c: Config, e: Engine, s: Step)
    requires Inv(c, e) && StartPart(c, e) && Enabled(c, e, s) && StarterStep(s)
    requires Sized(c, Apply(c, e, s))
    ensures StartPart(c, Apply(c, e, s))
  {
    match s
    case Respawn(i) => StartRespawn(c, e, i);
    case LeaveStart(i) => StartLeave(c, e, i);
    case KillStarting(i) => StartKill(c, e, i);
    case ReportRunning(i) => StartReport(c, e, i);
    case ReportEnded(i) => StartReportEnded(c, e, i);
    case GiveUp(i) => StartGiveUp(c, e, i);
    case FailStart(i, reason) => StartAbort(c, e, reason);
  }

  /** Every step keeps what the start phase keeps. */
  lemma StepStart(c: Config, e: Engine, s: Step)
    requires Inv(c, e) && StartPart(c, e) && Enabled(c, e, s)
    ensures Sized(c, Apply(c, e, s)) && StartPart(c, Apply(c, e, s))
  {
    StepSized(c, e, s);
    if StarterStep(s) {
      StarterStepStart(c, e, s);
    } else {
      match s
      case Transition(indexes) => StartTransitionPart(c, e, indexes);
      case Begin(i) => StartBeginStep(c, e, i);
      case FinishStop(i) => StartFinishStop(c, e, i);
      case Executed(i) => StartExecuted(c, e, i);
      case Ended(i, status) => StartEnded(c, e, i, status);
      case CancelRequest => StartCancel(c, e);
    }
  }

  lemma StartBeginStep(c: Config, e: Engine, i: nat)
    requires Inv(c, e) && StartPart(c, e) && i in e.queued && i < |e.procs|
    ensures StartPart(c, BeginWork(e, i))
  {
    QueuedFacts(c, e, i);
    StartBegin(c, e, i);
  }

  lemma StartFinishStop(c: Config, e: Engine, i: nat)
    requires Inv(c, e) && StartPart(c, e) && i in e.stoppers && i < |e.procs|
    ensures StartPart(c, StopOver(ReleaseDependencies(c, e, i), i))
  {
    assert !e.starting;
  }

  // ---- Runs ----

  /** At time `t` of a run, process `d` was running at some time of the present phase, or was accepted
      as running after it had, being self-terminating, ended cleanly. */
  ghost predicate SeenRunning(run: seq<Engine>, steps: seq<Step>, t: nat, d: nat)
    requires t < |run| && |run| == |steps| + 1
  {
    exists u :: 0 <= u <= t && run[u].epoch == run[t].epoch && RunningAt(run, steps, t, u, d)
  }

  ghost predicate RunningAt(run: seq<Engine>, steps: seq<Step>, t: nat, u: nat, d: nat)
    requires u <= t < |run| && |run| == |steps| + 1
  {
    || (d < |run[u].procs| && run[u].procs[d] == Running)
    || (u < t && steps[u] == ReportEnded(d))
  }

  /** `d` is released after a step because it was before, or because it is running now, or because
      the step accepted it as running. */
  ghost predicate ReleasedBecause(e: Engine, e1: Engine, s: Step, d: nat) {
    e1.starting && d in e1.released ==>
      || (e1.epoch == e.epoch && d in e.released && e.starting)
      || (d < |e1.procs| && e1.procs[d] == Running)
      || (e1.epoch == e.epoch && s == ReportEnded(d))
  }

  lemma TransitionReleases(c: Config, e: Engine, s: Step, d: nat)
    requires Sized(c, e) && Enabled(c, e, s) && s.Transition?
    ensures ReleasedBecause(e, Apply(c, e, s), s, d)
  {
  }

  lemma StarterReleases(c: Config, e: Engine, s: Step, d: nat)
    requires Sized(c, e) && Enabled(c, e, s) && StarterStep(s)
    ensures ReleasedBecause(e, Apply(c, e, s), s, d)
  {
    StepProcs(c, e, s);
  }

  lemma ReleasedGrows(c: Config, e: Engine, s: Step, d: nat)
    requires Sized(c, e) && Enabled(c, e, s)
    ensures ReleasedBecause(e, Apply(c, e, s), s, d)
  {
    if s.Transition? {
      TransitionReleases(c, e, s, d);
    } else if StarterStep(s) {
      StarterReleases(c, e, s, d);
    }
  }

  lemma {:induction false} RunKeepsStartPart(c: Config, run: seq<Engine>, steps: seq<Step>, t: nat)
    requires IsWholeRun(c, run, steps) && t < |run|
    ensures StartPart(c, run[t])
  {
    if t > 0 {
      RunKeepsStartPart(c, run, steps, t - 1);
      InitialInv(c);
      RunKeepsInv(c, run, steps, t - 1);
      assert StepAt(c, run, steps, t - 1);
      StepStart(c, run[t - 1], steps[t - 1]);
    }
  }

  lemma {:induction false} ReleasedWasSeen(c: Config, run: seq<Engine>, steps: seq<Step>, t: nat, d: nat)
    requires IsWholeRun(c, run, steps) && t < |run|
    requires run[t].starting && d in run[t].released
    ensures SeenRunning(run, steps, t, d)
  {
    if t > 0 {
      InitialInv(c);
      RunKeepsInv(c, run, steps, t - 1);
      assert StepAt(c, run, steps, t - 1);
      ReleasedGrows(c, run[t - 1], steps[t - 1], d);
      if d < |run[t].procs| && run[t].procs[d] == Running {
        assert RunningAt(run, steps, t, t, d);
      } else if steps[t - 1] == ReportEnded(d) {
        assert RunningAt(run, steps, t, t - 1, d);
      } else {
        ReleasedWasSeen(c, run, steps, t - 1, d);
        var u :| 0 <= u <= t - 1 && run[u].epoch == run[t - 1].epoch && RunningAt(run, steps, t - 1, u, d);
        assert RunningAt(run, steps, t, u, d);
      }
    }
  }

  lemma OnlyBeginOrRespawnStarts(c: Config, e: Engine, s: Step, i: nat)
    requires PhaseJobs(e) && Enabled(c, e, s) && i < |e.procs|
    requires e.procs[i] != Starting && NextProcs(e, s)[i] == Starting
    ensures e.starting
    ensures (s == Begin(i) && e.state == InTransition) || s == Respawn(i)
  {
  }

  /** In every run, aborted and cancelled ones included, over any dependencies, cyclic ones and
      repeated entries included, a process is started only after each process it depends on was seen
      running in the same phase. */
  lemma DependenciesRunFirst(c: Config, run: seq<Engine>, steps: seq<Step>, t: nat, i: nat, d: nat)
    requires IsWholeRun(c, run, steps) && t < |steps|
    requires i < |c.deps| && d in c.deps[i]
    requires run[t].procs[i] != Starting && run[t + 1].procs[i] == Starting
    ensures SeenRunning(run, steps, t, d)
  {
    var e := run[t];
    InitialInv(c);
    RunKeepsInv(c, run, steps, t);
    RunKeepsStartPart(c, run, steps, t);
    assert StepAt(c, run, steps, t);
    StepProcs(c, e, steps[t]);
    OnlyBeginOrRespawnStarts(c, e, steps[t], i);
    if steps[t] == Begin(i) {
      QueuedFacts(c, e, i);
      CountOutsideZero(c.deps[i], e.released);
    }
    ReleasedWasSeen(c, run, steps, t, d);
  }
}
