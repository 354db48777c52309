/** Over acyclic, closed dependencies every request can be met: some failure-free transition ends with exactly the requested
    processes running, self-terminating ones included. */
module Attainable {
  import opened States
  import opened Acyclicity
  import opened Engine
  import opened EngineInvariant
  import opened Runs
  import opened StopOrder
  import opened StartOrder
  import opened Calm
  import opened CalmSteps
  import opened Progress
  import opened Stalls
  import opened Hangs

  /** Nobody has ended on its own: no stop node is lost, and whoever was started is running. */
  ghost predicate Steady(c: Config, e: Engine) {
    if e.starting then
      && (forall k :: Over(e, k) ==> k in e.released)
      && (forall k :: k in e.released ==> k < |e.procs| && e.procs[k] == Running)
      && (forall k :: k in e.starters && k < |e.procs| ==> e.procs[k] == ProcessState.Starting)
    else forall i: nat :: !StopLost(e, i)
  }

  lemma SteadyJobInFlight(c: Config, e: Engine)
    requires CalmState(c, e) && Steady(c, e)
    ensures JobCount(e) > 0
  {
    SomeNodeLeft(c, e);
    if JobCount(e) == 0 {
      var rank := AcyclicRanked(c.deps);
      if e.starting {
        StartStuck(c, e, rank);
      } else {
        StopStuck(c, e, rank);
      }
    }
  }

  /** A step in which nobody ends on its own. */
  predicate KeepsSteady(e: Engine, s: Step) {
    && !s.ReportEnded? && !s.GiveUp?
    && (s.Ended? ==> s.node in e.stoppers)
  }

  lemma SomeSteadyStep(c: Config, e: Engine) returns (s: Step)
    requires CalmInv(c, e) && e.state == InTransition && JobCount(e) > 0 && Steady(c, e)
    ensures CalmStep(c, e, s) && KeepsSteady(e, s)
  {
    var i := JobInFlight(c, e);
    assert Sized(c, e) && (i in e.starters ==> e.starting);
    hide CalmInv, CalmStep, Enabled, Inv;
    if i in e.queued {
      QueuedGoesOn(c, e, i);
      s := Begin(i);
    } else if i in e.starters {
      StarterGoesOn(c, e, i);
      s := ReportRunning(i);
    } else if i in e.leaving {
      LeavingGoesOn(c, e, i);
      s := LeaveStart(i);
    } else if i in e.stoppers {
      StopperGoesOn(c, e, i);
      s := if e.procs[i] == Terminating then Ended(i, 0) else FinishStop(i);
    } else {
      DoneGoesOn(c, e, i);
      s := Executed(i);
    }
  }

  lemma StartsSteady(c: Config, e: Engine)
    requires Sized(c, e) && JobCount(e) == 0
    ensures Steady(c, QueueStartJobs(c, e))
  {
    assert e.queued == e.stoppers == e.done == e.starters == e.leaving == multiset{};
  }

  lemma SteadyTransition(c: Config, e: Engine, indexes: seq<nat>)
    requires ReadyState(c, e)
    ensures Steady(c, StartTransition(c, e, indexes))
  {
    TransitionShape(c, e, indexes);
    var e0 := e.(state := InTransition, requested := Requested(c, indexes));
    hide ReadyState, StartTransition, QueueHeadNodes, QueueStartJobs, Settled, JobCount, FreshCounters;
    StopPhaseNodes(c, e0);
    if QueueHeadNodes(c, e0, false).inFlight <= 0 {
      NoJobsAfterSkip(c, e0);
      StartsSteady(c, QueueHeadNodes(c, e0, false));
    }
  }

  lemma SteadyStep(c: Config, e: Engine, s: Step)
    requires CalmInv(c, e) && CalmStep(c, e, s) && Steady(c, e) && KeepsSteady(e, s)
    ensures Steady(c, Apply(c, e, s))
  {
    hide CalmInv, CalmStep, Apply, Inv, Steady;
    CalmFacts(c, e, s);
    PhaseStep(c, e, s);
    if EndsStopPhase(e, s) {
      StopPhaseEnds(c, e, s);
      StartsSteady(c, OneLess(e, s.node));
    } else if e.starting {
      SteadyInStart(c, e, s);
    } else {
      SteadyInStop(c, e, s);
    }
  }

  lemma SteadyInStart(c: Config, e: Engine, s: Step)
    requires CalmInv(c, e) && CalmStep(c, e, s) && Steady(c, e) && KeepsSteady(e, s) && e.starting
    ensures Steady(c, Apply(c, e, s))
  {
    CalmFacts(c, e, s);
    assert e.stoppers == multiset{};
    match s
    case Begin(i) => SteadyStartBegin(c, e, i);
    case ReportRunning(i) => SteadyReport(c, e, i);
    case LeaveStart(i) => SteadyLeave(c, e, i);
    case Executed(i) => SteadyExecuted(c, e, i);
  }

  lemma SteadyStartBegin(c: Config, e: Engine, i: nat)
    requires CalmInv(c, e) && e.state == InTransition && Steady(c, e) && e.starting && i in e.queued && i < |e.procs|
    ensures Steady(c, BeginWork(e, i))
  {
    hide CalmInv, BeginWork, Steady;
    ReadyToStart(c, e, i);
    WorkBegins(e, i);
    SteadyBegun(c, e, BeginWork(e, i), i);
  }

  lemma ReadyToStart(c: Config, e: Engine, i: nat)
    requires CalmInv(c, e) && e.state == InTransition && Steady(c, e) && e.starting && i in e.queued && i < |e.procs|
    ensures i !in e.released && (e.procs[i] == Idle || e.procs[i] == Terminated)
  {
    QueuedFacts(c, e, i);
    assert !InHand(e, i);
  }

  lemma SteadyBegun(c: Config, e: Engine, e1: Engine, i: nat)
    requires Steady(c, e) && e.starting && i < |e.procs| && i !in e.released
    requires e1 == e.(queued := e1.queued, starters := e.starters + multiset{i}, failed := e1.failed,
                      procs := e.procs[i := ProcessState.Starting])
    ensures Steady(c, e1)
  {
    assert e1.starters == e.starters + multiset{i};
    assert forall k :: k in e1.starters ==> k == i || k in e.starters;
    assert forall k :: Over(e1, k) <==> Over(e, k);
  }

  lemma SteadyReport(c: Config, e: Engine, i: nat)
    requires CalmInv(c, e) && Steady(c, e) && e.starting && i in e.starters && i < |e.procs|
    ensures Steady(c, AttemptOver(ReleaseDependents(c, e.(procs := e.procs[i := Running]), i), i))
  {
    var e0 := e.(procs := e.procs[i := Running]);
    assert Sized(c, e0);
    StarterOnce(c, e, i);
    hide CalmInv, ReleaseDependents, Steady;
    ReleasedEngine(c, e0, i);
    SteadyAccepted(c, e, AttemptOver(ReleaseDependents(c, e0, i), i), i);
  }

  lemma SteadyAccepted(c: Config, e: Engine, e1: Engine, i: nat)
    requires Steady(c, e) && e.starting && e1.starting && i < |e.procs| && e.starters[i] <= 1
    requires e1.procs == e.procs[i := Running] && e1.released == e.released + {i}
    requires e1.starters == e.starters - multiset{i} && e1.leaving == e.leaving + multiset{i}
    requires e1.done == e.done && e1.executed == e.executed
    ensures Steady(c, e1)
  {
    assert forall k :: Over(e1, k) ==> k == i || Over(e, k);
    assert forall k :: k in e1.starters ==> k != i && k in e.starters;
  }

  /** Steps that leave the processes alone. */
  lemma SteadyFrame(c: Config, e: Engine, e1: Engine)
    requires Steady(c, e) && e1.starting == e.starting && e1.procs == e.procs
    requires e.starting ==> e1.released == e.released && e1.starters == e.starters && forall k :: Over(e1, k) ==> Over(e, k)
    requires !e.starting ==> e1.included == e.included && |e1.counters| == |e.counters|
                             && forall k :: 0 <= k < |e.counters| ==> e1.counters[k] <= e.counters[k]
    ensures Steady(c, e1)
  {
    if !e.starting {
      forall k: nat ensures !StopLost(e1, k) {
        assert !StopLost(e, k);
      }
    }
  }

  lemma ReleasedEngine(c: Config, e: Engine, i: nat)
    requires Sized(c, e)
    ensures var e1 := ReleaseDependents(c, e, i);
            e1 == e.(counters := e1.counters, queued := e1.queued, inFlight := e1.inFlight, released := e.released + {i})
  {
    hide Lower;
    LowerFrame(e, StartAmounts(c, e, i));
  }

  lemma StarterOnce(c: Config, e: Engine, i: nat)
    requires CalmInv(c, e)
    ensures e.starters[i] <= 1
  {
    assert Load(e, i) <= 1;
  }

  lemma SteadyLeave(c: Config, e: Engine, i: nat)
    requires Steady(c, e) && e.starting && i in e.leaving
    ensures Steady(c, e.(leaving := e.leaving - multiset{i}, done := e.done + multiset{i}))
  {
    var e1 := e.(leaving := e.leaving - multiset{i}, done := e.done + multiset{i});
    assert forall k :: Over(e1, k) ==> Over(e, k);
    SteadyFrame(c, e, e1);
  }

  lemma LeftToExecute(c: Config, e: Engine)
    requires Inv(c, e) && e.state == InTransition
    ensures Sized(c, e) && e.toExecute > 0
  {
  }

  lemma SteadyExecuted(c: Config, e: Engine, i: nat)
    requires CalmInv(c, e) && e.state == InTransition && Steady(c, e) && i in e.done && (e.starting || e.toExecute > 1)
    ensures Steady(c, NodeExecuted(c, e.(done := e.done - multiset{i}), i))
  {
    hide CalmInv, NodeExecuted, Steady, Inv;
    InvOfCalm(c, e);
    LeftToExecute(c, e);
    CompletionInPhase(c, e, i);
    var e1 := NodeExecuted(c, e.(done := e.done - multiset{i}), i);
    assert e1 == OneLess(e, i).(state := e1.state, event := e1.event);
    forall k | Over(e1, k) ensures Over(e, k) {
      assert k in e1.done ==> k in e.done;
    }
    SteadyFrame(c, e, e1);
  }

  lemma SteadyInStop(c: Config, e: Engine, s: Step)
    requires CalmInv(c, e) && CalmStep(c, e, s) && Steady(c, e) && KeepsSteady(e, s)
    requires !e.starting && !EndsStopPhase(e, s)
    ensures Steady(c, Apply(c, e, s))
  {
    hide CalmInv, Inv, Steady, NodeExecuted, ReleaseDependencies, BeginWork, ProcessEnded;
    CalmFacts(c, e, s);
    StopPhaseSteps(c, e, s);
    LeftToExecute(c, e);
    match s
    case Begin(i) => SteadyStopBegin(c, e, i);
    case FinishStop(i) => SteadyStopFinish(c, e, i);
    case Executed(i) => SteadyExecuted(c, e, i);
    case Ended(i, status) => SteadyStopEnd(c, e, i, status);
  }

  lemma SteadyStopFinish(c: Config, e: Engine, i: nat)
    requires Sized(c, e) && e.state == InTransition && Steady(c, e) && !e.starting && i < |c.deps|
    ensures Steady(c, StopOver(ReleaseDependencies(c, e, i), i))
  {
    hide Steady, ReleaseDependencies;
    ReleaseEffect(c, e, i);
    SteadyFrame(c, e, StopOver(ReleaseDependencies(c, e, i), i));
  }

  lemma SteadyStopBegin(c: Config, e: Engine, i: nat)
    requires e.state == InTransition && Steady(c, e) && !e.starting && i < |e.procs|
    ensures Steady(c, BeginWork(e, i))
  {
    WorkBegins(e, i);
    var e1 := BeginWork(e, i);
    hide BeginWork;
    forall k: nat ensures !StopLost(e1, k) {
      assert !StopLost(e, k);
    }
  }

  lemma SteadyStopEnd(c: Config, e: Engine, i: nat, status: int)
    requires CalmInv(c, e) && Steady(c, e) && !e.starting && i < |e.procs| && i in e.stoppers
    ensures Steady(c, ProcessEnded(c, e, i, status))
  {
    assert Load(e, i) >= 1;
    assert e.counters[i] == 0;
    var e1 := ProcessEnded(c, e, i, status);
    hide CalmInv;
    forall k: nat ensures !StopLost(e1, k) {
      assert !StopLost(e, k);
    }
  }

  /** A transition in which nobody ends on its own goes on until it succeeds. */
  lemma {:induction false} SteadySucceeds(c: Config, e: Engine) returns (run: seq<Engine>, steps: seq<Step>)
    requires CalmInv(c, e) && Startable(c, e.requested) && Steady(c, e)
    ensures CalmFrom(c, e, run, steps) && run[|steps|].state == Success && Steady(c, run[|steps|])
    decreases StepsLeft(c, e)
  {
    assert Sized(c, e) && (e.state == InTransition || e.state == Success);
    if e.state == Success {
      run, steps := [e], [];
    } else {
      hide CalmInv, Startable, Steady, CalmStep, Apply, StepsLeft;
      SteadyJobInFlight(c, e);
      var s := SomeSteadyStep(c, e);
      CalmFacts(c, e, s);
      StepOfCalmState(c, e, s);
      SteadyStep(c, e, s);
      run, steps := SteadySucceeds(c, Apply(c, e, s));
      PrependCalm(c, e, s, run, steps);
      run, steps := [e] + run, [s] + steps;
    }
  }

  lemma SteadySuccessRunsAll(c: Config, e: Engine)
    requires CalmInv(c, e) && e.state == Success && Startable(c, e.requested) && Steady(c, e)
    ensures e.requested <= RunningSet(e.procs)
  {
    if NoneReady(e) {
      NoneReadyNoNodes(c, e);
    }
    forall k | k in e.requested ensures k < |e.procs| && e.procs[k] == Running {
      assert k in e.included ==> Over(e, k);
    }
  }

  /** Every request whose dependencies are acyclic and closed can be met. */
  lemma RequestCanBeMet(c: Config, e: Engine, indexes: seq<nat>) returns (run: seq<Engine>, steps: seq<Step>)
    requires ReadyState(c, e) && Startable(c, Requested(c, indexes))
    ensures CalmRun(c, run, steps, indexes) && run[0] == e
    ensures run[|steps|].state == Success && RunningSet(run[|steps|].procs) == Requested(c, indexes)
  {
    hide CalmInv, Startable, Steady, CalmRun, CalmFrom, Apply, ReadyState;
    var e1 := SteadyAfterTransition(c, e, indexes);
    run, steps := SteadySucceeds(c, e1);
    PrependTransition(c, e, indexes, run, steps);
    run, steps := [e] + run, [Transition(indexes)] + steps;
    CalmRunReachesRequest(c, run, steps, indexes);
    CalmRunInv(c, run, steps, indexes, |steps|);
    SteadySuccessRunsAll(c, run[|steps|]);
  }

  lemma SteadyAfterTransition(c: Config, e: Engine, indexes: seq<nat>) returns (e1: Engine)
    requires ReadyState(c, e)
    ensures Sized(c, e) && Enabled(c, e, Transition(indexes)) && e1 == Apply(c, e, Transition(indexes))
    ensures CalmInv(c, e1) && Steady(c, e1) && e1.requested == Requested(c, indexes)
  {
    var s := Transition(indexes);
    assert Sized(c, e);
    hide ReadyState, CalmInv, Steady, StartTransition;
    TransitionCalmStep(c, e, s);
    TransitionStep(c, e, s);
    SteadyTransition(c, e, indexes);
    e1 := Apply(c, e, s);
  }

  lemma PrependTransition(c: Config, e: Engine, indexes: seq<nat>, run: seq<Engine>, steps: seq<Step>)
    requires Sized(c, e) && Enabled(c, e, Transition(indexes)) && ReadyState(c, e)
    requires CalmFrom(c, Apply(c, e, Transition(indexes)), run, steps)
    ensures CalmRun(c, [e] + run, [Transition(indexes)] + steps, indexes)
    ensures |run| == |steps| + 1
  {
    hide Apply, Enabled, Sized, CalmStep, ReadyState;
    PrependStep(c, e, Transition(indexes), run, steps);
    hide IsRun;
  }
}
