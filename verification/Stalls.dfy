/** Self-terminating processes can stall a failure-free transition. This module says exactly when. */
module Stalls {
  import opened States
  import opened Counting
  import opened Engine
  import opened EngineInvariant
  import opened Runs
  import opened StopOrder
  import opened StartOrder
  import opened Calm
  import opened CalmSteps
  import opened Progress

  /** A failure-free run from `e` that stays in one phase and in transition. */
  ghost predicate PhaseRun(c: Config, e: Engine, run: seq<Engine>, steps: seq<Step>) {
    && IsRun(c, run, steps) && run[0] == e
    && (forall t :: 0 <= t < |steps| ==> CalmStep(c, run[t], steps[t]))
    && (forall t :: 0 <= t < |run| ==> run[t].epoch == e.epoch)
    && run[|steps|].state == InTransition
  }

  /** One that ends with no job in flight: nothing will ever complete the transition. */
  ghost predicate Stalls(c: Config, e: Engine, run: seq<Engine>, steps: seq<Step>) {
    PhaseRun(c, e, run, steps) && run[|steps|].inFlight == 0
  }

  ghost predicate CanStall(c: Config, e: Engine) {
    exists run, steps :: Stalls(c, e, run, steps)
  }

  /** The state of a failure-free transition over acyclic, closed dependencies. */
  ghost predicate CalmState(c: Config, e: Engine) {
    CalmInv(c, e) && e.state == InTransition && Startable(c, e.requested)
  }

  lemma StepOfCalmState(c: Config, e: Engine, s: Step)
    requires CalmState(c, e) && CalmStep(c, e, s)
    ensures CalmInv(c, Apply(c, e, s)) && Startable(c, Apply(c, e, s).requested)
    ensures 0 <= StepsLeft(c, Apply(c, e, s)) < StepsLeft(c, e)
  {
    StepCalm(c, e, s);
    StepNearer(c, e, s);
    CalmStepRequests(c, e, s);
    StepsLeftNotNegative(c, Apply(c, e, s));
  }

  // ---- Lost nodes stay lost ----

  /** A calm step that is not a completion stays in its phase and in transition. */
  lemma StaysInPhase(c: Config, e: Engine, s: Step)
    requires Sized(c, e) && PhaseJobs(e) && CalmStep(c, e, s) && !s.Executed?
    ensures var e1 := Apply(c, e, s);
            && e1.state == InTransition && e1.epoch == e.epoch && e1.starting == e.starting
            && e1.included == e.included && e1.executed == e.executed
  {
    if Works(s) {
      hide Apply, Enabled, PhaseJobs;
      WorkFrame(c, e, s);
    }
  }

  lemma TwoLeft(c: Config, e: Engine, i: nat, other: nat)
    requires Inv(c, e) && e.state == InTransition && i in e.done
    requires other in e.included && other !in e.executed && Load(e, other) == 0
    ensures e.toExecute >= 2
  {
    assert Load(e, i) >= 1;
    assert i != other && i !in e.executed && i in e.included;
    TwoOutside(e.included, e.executed, i, other);
  }

  lemma TwoOutside(all: set<nat>, some: set<nat>, i: nat, j: nat)
    requires some <= all && i in all && j in all && i !in some && j !in some && i != j
    ensures |all| >= |some| + 2
  {
    var more := some + {i} + {j};
    assert |more| == |some| + 2;
    SubsetSize(more, all);
  }

  /** A completion stays in its phase and in transition as long as some other node is waiting. */
  lemma ExecutedStaysInPhase(c: Config, e: Engine, i: nat, other: nat)
    requires Inv(c, e) && e.state == InTransition && i in e.done
    requires other in e.included && other !in e.executed && Load(e, other) == 0
    ensures Apply(c, e, Executed(i)) == OneLess(e, i)
  {
    TwoLeft(c, e, i, other);
  }

  /** A calm step while some node is waiting. */
  lemma WaitingStays(c: Config, e: Engine, s: Step, other: nat)
    requires Inv(c, e) && CalmStep(c, e, s)
    requires other in e.included && e.counters[other] > 0
    ensures var e1 := Apply(c, e, s);
            && e1.state == InTransition && e1.epoch == e.epoch && e1.starting == e.starting
            && e1.included == e.included && |e1.counters| == |e.counters|
  {
    if s.Executed? {
      assert Load(e, other) == 0 && other !in e.executed;
      ExecutedStaysInPhase(c, e, s.node, other);
    } else {
      StaysInPhase(c, e, s);
    }
  }

  /** A stop node whose process ended while it waited keeps waiting. */
  lemma StopLostStays(c: Config, e: Engine, s: Step, i: nat)
    requires Inv(c, e) && !e.starting && StopLost(e, i) && CalmStep(c, e, s)
    ensures StopLost(Apply(c, e, s), i)
  {
    WaitingStays(c, e, s, i);
    StepProcs(c, e, s);
    StopPhaseSteps(c, e, s);
    assert Load(e, i) == 0;
    if s.Executed? {
      ExecutedStaysInPhase(c, e, s.node, i);
    }
  }

  // ---- Stop phase ----

  lemma PrependStall(c: Config, e: Engine, s: Step, run: seq<Engine>, steps: seq<Step>)
    requires Sized(c, e) && CalmStep(c, e, s)
    requires Stalls(c, Apply(c, e, s), run, steps) && Apply(c, e, s).epoch == e.epoch
    ensures Stalls(c, e, [e] + run, [s] + steps)
  {
    PrependStep(c, e, s, run, steps);
    hide Apply, Enabled, CalmStep;
  }

  /** With a lost stop node, every way to go on comes to a standstill. */
  lemma {:induction false} StopStall(c: Config, e: Engine, i: nat) returns (run: seq<Engine>, steps: seq<Step>)
    requires CalmState(c, e) && !e.starting && StopLost(e, i)
    ensures Stalls(c, e, run, steps)
    decreases StepsLeft(c, e)
  {
    if JobCount(e) == 0 {
      run, steps := [e], [];
    } else {
      var s := SomeCalmStep(c, e);
      StepOfCalmState(c, e, s);
      WaitingStays(c, e, s, i);
      StopLostStays(c, e, s, i);
      var run1, steps1 := StopStall(c, Apply(c, e, s), i);
      PrependStall(c, e, s, run1, steps1);
      run, steps := [e] + run1, [s] + steps1;
    }
  }

  /** A self-terminating process that waits to be stopped may end, and then its node is lost. */
  lemma WaitingMayEnd(c: Config, e: Engine, i: nat)
    requires CalmState(c, e) && !e.starting
    requires i in e.included && e.counters[i] > 0 && i in c.selfTerminating && e.procs[i] != Terminated
    ensures CalmStep(c, e, Ended(i, 0))
    ensures StopLost(Apply(c, e, Ended(i, 0)), i)
  {
    assert Load(e, i) == 0;
  }

  lemma StopStallSoon(c: Config, e: Engine, i: nat) returns (run: seq<Engine>, steps: seq<Step>)
    requires CalmState(c, e) && !e.starting
    requires i in e.included && e.counters[i] > 0 && i in c.selfTerminating
    ensures Stalls(c, e, run, steps)
  {
    hide Apply, CalmStep, Enabled, Startable, Stalls, CalmStop, CalmStart, StopPart, StartPart;
    if e.procs[i] == Terminated {
      run, steps := StopStall(c, e, i);
    } else {
      var s := Ended(i, 0);
      WaitingMayEnd(c, e, i);
      StepOfCalmState(c, e, s);
      WaitingStays(c, e, s, i);
      run, steps := StopStall(c, Apply(c, e, s), i);
      PrependStall(c, e, s, run, steps);
      run, steps := [e] + run, [s] + steps;
    }
  }

  lemma ExecutedSameEpoch(c: Config, e: Engine, i: nat)
    requires Sized(c, e) && e.state == InTransition && e.toExecute > 0 && i in e.done
    requires Apply(c, e, Executed(i)).epoch == e.epoch && !e.starting
    ensures Apply(c, e, Executed(i)) == OneLess(e, i)
  {
  }

  lemma StopUnexposedStays(c: Config, e: Engine, s: Step)
    requires Inv(c, e) && !e.starting && NoneExposed(c, e) && CalmStep(c, e, s)
    requires Apply(c, e, s).epoch == e.epoch
    ensures !Apply(c, e, s).starting && NoneExposed(c, Apply(c, e, s))
  {
    StopPhaseSteps(c, e, s);
    if s.Executed? {
      ExecutedSameEpoch(c, e, s.node);
    } else {
      hide OnceEach, CountersAgree;
    }
  }

  lemma {:induction false} StopUnexposedRun(c: Config, e: Engine, run: seq<Engine>, steps: seq<Step>, t: nat)
    requires CalmState(c, e) && !e.starting && NoneExposed(c, e)
    requires PhaseRun(c, e, run, steps) && t < |run|
    ensures CalmState(c, run[t]) && !run[t].starting && NoneExposed(c, run[t])
  {
    hide Apply, Enabled, CalmStep, CalmInv, Startable, NoneExposed;
    if t > 0 {
      StopUnexposedRun(c, e, run, steps, t - 1);
      assert StepAt(c, run, steps, t - 1);
      StopUnexposedStep(c, run[t - 1], steps[t - 1]);
      if t == |steps| {
        assert run[t].state == InTransition;
      } else {
        assert CalmStep(c, run[t], steps[t]);
        CalmStepInTransition(c, run[t], steps[t]);
      }
    }
  }

  lemma CalmStepInTransition(c: Config, e: Engine, s: Step)
    requires CalmStep(c, e, s)
    ensures e.state == InTransition
  {
  }

  lemma StopUnexposedStep(c: Config, e: Engine, s: Step)
    requires CalmState(c, e) && !e.starting && NoneExposed(c, e) && CalmStep(c, e, s)
    requires Apply(c, e, s).epoch == e.epoch
    ensures CalmInv(c, Apply(c, e, s)) && Startable(c, Apply(c, e, s).requested)
    ensures !Apply(c, e, s).starting && NoneExposed(c, Apply(c, e, s))
  {
    StepOfCalmState(c, e, s);
    assert Inv(c, e);
    hide Apply, CalmStep, NoneExposed, CalmInv;
    StopUnexposedStays(c, e, s);
  }

  /** A failure-free stop phase can stall exactly when some self-terminating process waits to be stopped. */
  lemma StopStallsExactlyWhenExposed(c: Config, e: Engine)
    requires CalmState(c, e) && !e.starting
    ensures CanStall(c, e) <==> exists i :: i in e.included && i < |c.deps| && e.counters[i] > 0 && i in c.selfTerminating
  {
    hide CalmStop, CalmStart, StopPart, StartPart, Apply, PhaseRun, CalmStep;
    if i :| i in e.included && e.counters[i] > 0 && i in c.selfTerminating {
      var run, steps := StopStallSoon(c, e, i);
    } else {
      assert NoneExposed(c, e);
      forall run, steps
        ensures !Stalls(c, e, run, steps)
      {
        if PhaseRun(c, e, run, steps) {
          StopNoStall(c, e, run, steps);
        }
      }
    }
  }

  lemma StopNoStall(c: Config, e: Engine, run: seq<Engine>, steps: seq<Step>)
    requires CalmState(c, e) && !e.starting && NoneExposed(c, e)
    requires PhaseRun(c, e, run, steps)
    ensures run[|steps|].inFlight > 0
  {
    StopUnexposedRun(c, e, run, steps, |steps|);
    JobAlwaysInFlight(c, run[|steps|]);
  }

  // ---- Start phase ----

  /** A calm step that does not accept process `d` as running. */
  predicate Starves(s: Step, d: nat) {
    s != ReportRunning(d) && s != ReportEnded(d)
  }

  lemma StarterMayEnd(c: Config, e: Engine, d: nat)
    requires CalmInv(c, e) && e.state == InTransition && d in e.starters && d < |c.deps| && Quick(c, d)
    ensures CalmStep(c, e, if e.procs[d] == Starting then Ended(d, 0) else GiveUp(d))
  {
    assert e.starting;
  }

  lemma SomeStarvingStep(c: Config, e: Engine, d: nat) returns (s: Step)
    requires CalmInv(c, e) && e.state == InTransition && JobCount(e) > 0 && Quick(c, d)
    ensures CalmStep(c, e, s) && Starves(s, d)
  {
    assert Inv(c, e);
    if d in e.starters {
      StarterFacts(c, e, d);
      StarterMayEnd(c, e, d);
      s := if e.procs[d] == Starting then Ended(d, 0) else GiveUp(d);
    } else {
      s := SomeCalmStep(c, e);
      NotStarter(c, e, s, d);
    }
  }

  lemma NotStarter(c: Config, e: Engine, s: Step, d: nat)
    requires CalmStep(c, e, s) && d !in e.starters
    ensures Starves(s, d)
  {
  }

  /** Node `i` waits for process `d`, which may be overlooked. */
  ghost predicate Starving(c: Config, e: Engine, i: nat, d: nat) {
    && e.starting && i in e.included && i < |c.deps| && d in c.deps[i] && d in e.included && d !in e.released
    && Quick(c, d)
  }

  lemma StarvingWaits(c: Config, e: Engine, i: nat, d: nat)
    requires CalmInv(c, e) && Starving(c, e, i, d)
    ensures e.counters[i] > 0
  {
    CountOutsideZero(c.deps[i], e.released);
  }

  lemma StarvingStays(c: Config, e: Engine, s: Step, i: nat, d: nat)
    requires CalmState(c, e) && Starving(c, e, i, d) && CalmStep(c, e, s) && Starves(s, d)
    ensures Starving(c, Apply(c, e, s), i, d)
    ensures Apply(c, e, s).state == InTransition && Apply(c, e, s).epoch == e.epoch
  {
    StarvingWaits(c, e, i, d);
    WaitingStays(c, e, s, i);
    StepOfCalmState(c, e, s);
    StarvedNotReleased(c, e, s, d);
  }

  lemma StarvedNotReleased(c: Config, e: Engine, s: Step, d: nat)
    requires Sized(c, e) && CalmStep(c, e, s) && Starves(s, d) && e.starting && d !in e.released
    requires Apply(c, e, s).epoch == e.epoch
    ensures d !in Apply(c, e, s).released
  {
  }

  /** Once an awaited process may be overlooked, some way to go on comes to a standstill. */
  lemma {:induction false} StartStall(c: Config, e: Engine, i: nat, d: nat) returns (run: seq<Engine>, steps: seq<Step>)
    requires CalmState(c, e) && Starving(c, e, i, d)
    ensures Stalls(c, e, run, steps)
    decreases StepsLeft(c, e)
  {
    if JobCount(e) == 0 {
      run, steps := [e], [];
    } else {
      var s := SomeStarvingStep(c, e, d);
      StepOfCalmState(c, e, s);
      StarvingStays(c, e, s, i, d);
      var run1, steps1 := StartStall(c, Apply(c, e, s), i, d);
      PrependStall(c, e, s, run1, steps1);
      run, steps := [e] + run1, [s] + steps1;
    }
  }

  lemma StartKeeps(c: Config, e: Engine, s: Step)
    requires Sized(c, e) && PhaseJobs(e) && e.starting && CalmStep(c, e, s)
    ensures var e1 := Apply(c, e, s); e1.starting && e1.included == e.included && e.released <= e1.released
  {
    if Works(s) {
      hide Apply, Enabled, PhaseJobs;
      WorkFrame(c, e, s);
    }
  }

  lemma {:induction false} StartUnexposedRun(c: Config, e: Engine, run: seq<Engine>, steps: seq<Step>, t: nat)
    requires CalmState(c, e) && e.starting && NoneExposed(c, e)
    requires PhaseRun(c, e, run, steps) && t < |run|
    ensures CalmState(c, run[t]) && run[t].starting && NoneExposed(c, run[t])
  {
    hide Apply, Enabled, CalmStep, CalmInv, Startable, NoneExposed;
    if t > 0 {
      StartUnexposedRun(c, e, run, steps, t - 1);
      assert StepAt(c, run, steps, t - 1);
      StartUnexposedStep(c, run[t - 1], steps[t - 1]);
      if t < |steps| {
        assert CalmStep(c, run[t], steps[t]);
        CalmStepInTransition(c, run[t], steps[t]);
      }
    }
  }

  lemma StartUnexposedStep(c: Config, e: Engine, s: Step)
    requires CalmState(c, e) && e.starting && NoneExposed(c, e) && CalmStep(c, e, s)
    ensures CalmInv(c, Apply(c, e, s)) && Startable(c, Apply(c, e, s).requested)
    ensures Apply(c, e, s).starting && NoneExposed(c, Apply(c, e, s))
  {
    StepOfCalmState(c, e, s);
    assert Sized(c, e) && PhaseJobs(e);
    hide Apply, CalmStep, CalmInv;
    StartKeeps(c, e, s);
  }

  lemma StartNoStall(c: Config, e: Engine, run: seq<Engine>, steps: seq<Step>)
    requires CalmState(c, e) && e.starting && NoneExposed(c, e)
    requires PhaseRun(c, e, run, steps)
    ensures run[|steps|].inFlight > 0
  {
    StartUnexposedRun(c, e, run, steps, |steps|);
    JobAlwaysInFlight(c, run[|steps|]);
  }

  /** A failure-free start phase can stall exactly when some node waits for a node of the same phase whose process
      is self-terminating, does not report, and has not been accepted as running. */
  lemma StartStallsExactlyWhenExposed(c: Config, e: Engine)
    requires CalmState(c, e) && e.starting
    ensures CanStall(c, e) <==> exists i, d :: Starving(c, e, i, d)
  {
    hide CalmStop, CalmStart, StopPart, StartPart, Apply, PhaseRun, CalmStep;
    if i, d :| Starving(c, e, i, d) {
      var run, steps := StartStall(c, e, i, d);
    } else {
      assert NoneExposed(c, e) by {
        forall i, d | i in e.included && i < |c.deps| && d in c.deps[i] && d in e.included && d !in e.released
          ensures !Quick(c, d)
        {
          assert !Starving(c, e, i, d);
        }
      }
      forall run, steps
        ensures !Stalls(c, e, run, steps)
      {
        if PhaseRun(c, e, run, steps) {
          StartNoStall(c, e, run, steps);
        }
      }
    }
  }

  // ---- Success without starting anything ----

  /** The start phase is skipped and success announced although some requested process is not running, exactly
      when each such process depends on one that is not running: a cycle, or a dependency that is not requested. */
  lemma SuccessWithoutStarting(c: Config, e: Engine)
    requires Sized(c, e) && JobCount(e) == 0 && e.state == InTransition
    ensures (QueueStartJobs(c, e).state == Success && exists i :: i in e.requested && e.procs[i] != Running) <==>
            && (exists i :: i in e.requested && e.procs[i] != Running)
            && (forall i :: i in e.requested && e.procs[i] != Running ==>
                  exists d :: d in c.deps[i] && d !in RunningSet(e.procs))
  {
    var e1 := QueueHeadNodes(c, e, true);
    var heads := Heads(e1.included, e1.counters);
    forall i | i in e.requested && e.procs[i] != Running
      ensures i in heads <==> forall d :: d in c.deps[i] ==> d in RunningSet(e.procs)
    {
      CountOutsideZero(c.deps[i], RunningSet(e.procs));
    }
    assert |heads| == 0 <==> heads == {};
    assert forall i :: i in heads ==> i in e.requested && e.procs[i] != Running;
  }
}
