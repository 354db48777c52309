/** Runs of the engine, and the facts that hold in every state of every run. */
module Runs {
  import opened States
  import opened Engine
  import opened EngineInvariant

  /** `run` are the states and `steps` the steps between them. */
  ghost predicate IsRun(c: Config, run: seq<Engine>, steps: seq<Step>) {
    && |run| == |steps| + 1
    && (forall t :: 0 <= t < |run| ==> Sized(c, run[t]))
    && (forall t :: 0 <= t < |steps| ==> StepAt(c, run, steps, t))
  }

  ghost predicate StepAt(c: Config, run: seq<Engine>, steps: seq<Step>, t: nat)
    requires |run| == |steps| + 1 && t < |steps|
    requires Sized(c, run[t])
  {
    Enabled(c, run[t], steps[t]) && run[t + 1] == Apply(c, run[t], steps[t])
  }

  /** A run of a freshly created process group. */
  ghost predicate IsWholeRun(c: Config, run: seq<Engine>, steps: seq<Step>) {
    IsRun(c, run, steps) && run[0] == Initial(c)
  }

  lemma {:induction false} RunKeepsInv(c: Config, run: seq<Engine>, steps: seq<Step>, t: nat)
    requires IsRun(c, run, steps) && Inv(c, run[0])
    requires t < |run|
    ensures Inv(c, run[t])
  {
    if t > 0 {
      RunKeepsInv(c, run, steps, t - 1);
      assert StepAt(c, run, steps, t - 1);
      StepInv(c, run[t - 1], steps[t - 1]);
    }
  }

  /** In every state of every run the in-flight counter is the number of jobs queued or worked on,
      and while in transition the other counter is the number of included nodes not yet
      executed, of which there is at least one. */
  lemma CountersAgreeInEveryRun(c: Config, run: seq<Engine>, steps: seq<Step>, t: nat)
    requires IsWholeRun(c, run, steps) && t < |run|
    ensures run[t].inFlight == JobCount(run[t])
    ensures run[t].state == InTransition ==> 0 < run[t].toExecute == |run[t].included - run[t].executed|
    ensures run[t].state == Success || run[t].state == Undefined ==> run[t].inFlight == 0
  {
    InitialInv(c);
    RunKeepsInv(c, run, steps, t);
    var e := run[t];
    assert e.included == (e.included - e.executed) + e.executed;
  }

  /** A completion that announces success does so only when every node of the start
      phase has been executed. */
  lemma CompletionAnnouncesSuccessOnlyWhenAllExecuted(c: Config, run: seq<Engine>, steps: seq<Step>, t: nat)
    requires IsWholeRun(c, run, steps) && t < |steps|
    requires steps[t].Executed? && run[t].starting
    requires run[t].state == InTransition && run[t + 1].state == Success
    ensures run[t + 1].executed == run[t + 1].included
    ensures run[t + 1].event == SetStateSuccess
  {
    InitialInv(c);
    RunKeepsInv(c, run, steps, t);
    assert StepAt(c, run, steps, t);
    var i := steps[t].node;
    ExecutedInTransition(c, run[t], i);
    AllExecuted(c, OneLess(run[t], i));
  }

  /** No node ever has two jobs, and only included nodes have one. */
  lemma JobsAreDistinct(c: Config, run: seq<Engine>, steps: seq<Step>, t: nat, i: nat)
    requires IsWholeRun(c, run, steps) && t < |run|
    ensures Load(run[t], i) <= 1
    ensures Load(run[t], i) == 1 ==> i in run[t].included && i !in run[t].executed
  {
    InitialInv(c);
    RunKeepsInv(c, run, steps, t);
  }

  /** Two runs that meet make one. */
  lemma JoinRuns(c: Config, run: seq<Engine>, steps: seq<Step>, run2: seq<Engine>, steps2: seq<Step>)
    requires IsRun(c, run, steps) && IsRun(c, run2, steps2) && run[|steps|] == run2[0]
    ensures IsRun(c, run + run2[1..], steps + steps2)
  {
    hide Apply, Enabled, Sized;
    var all, allSteps := run + run2[1..], steps + steps2;
    forall t | 0 <= t < |all| ensures Sized(c, all[t]) {
      if t >= |run| {
        assert all[t] == run2[t - |steps|];
      }
    }
    forall t | 0 <= t < |allSteps| ensures StepAt(c, all, allSteps, t) {
      if t < |steps| {
        assert StepAt(c, run, steps, t);
      } else {
        assert StepAt(c, run2, steps2, t - |steps|);
        assert all[t] == run2[t - |steps|];
      }
    }
  }

  /** A step followed by a run is a run. */
  lemma PrependStep(c: Config, e: Engine, s: Step, run: seq<Engine>, steps: seq<Step>)
    requires Sized(c, e) && Enabled(c, e, s)
    requires IsRun(c, run, steps) && run[0] == Apply(c, e, s)
    ensures IsRun(c, [e] + run, [s] + steps)
  {
    hide Apply, Enabled, Sized;
    var run1, steps1 := [e] + run, [s] + steps;
    forall t | 0 <= t < |steps1|
      ensures StepAt(c, run1, steps1, t)
    {
      if t > 0 {
        assert StepAt(c, run, steps, t - 1);
      }
    }
  }

  // ---- A node is queued at most once in each phase ----

  /** Within a phase counters do not go up, and a node is queued only when its counter reaches zero. */
  ghost predicate CountsDown(c: Config, e: Engine, e1: Engine) {
    && e1.epoch >= e.epoch
    && |e1.counters| == |e.counters|
    && (e1.epoch == e.epoch ==>
          forall i: nat :: i < |e.counters| ==>
            && e1.counters[i] <= e.counters[i]
            && (e1.queued[i] > e.queued[i] ==> e1.counters[i] == 0 < e.counters[i]))
  }

  lemma LowerCountsDown(c: Config, e: Engine, amounts: seq<nat>)
    requires |amounts| == |e.counters|
    ensures CountsDown(c, e, Lower(e, amounts))
  {
  }

  lemma TransitionCountsDown(c: Config, e: Engine, indexes: seq<nat>)
    requires Sized(c, e) && (e.state == Success || e.state == Undefined)
    ensures StartTransition(c, e, indexes).epoch > e.epoch
    ensures CountsDown(c, e, StartTransition(c, e, indexes))
  {
  }

  lemma ExecutedCountsDown(c: Config, e: Engine, i: nat)
    requires Sized(c, e)
    ensures CountsDown(c, e, NodeExecuted(c, e.(done := e.done - multiset{i}), i))
  {
  }

  lemma ReportCountsDown(c: Config, e: Engine, procs: seq<ProcessState>, i: nat)
    requires Sized(c, e) && |procs| == |e.procs|
    ensures CountsDown(c, e, AttemptOver(ReleaseDependents(c, e.(procs := procs), i), i))
  {
    var e0 := e.(procs := procs);
    LowerCountsDown(c, e0, StartAmounts(c, e0, i));
    hide Lower;
  }

  lemma FinishStopCountsDown(c: Config, e: Engine, i: nat)
    requires Sized(c, e) && i < |e.procs|
    ensures CountsDown(c, e, StopOver(ReleaseDependencies(c, e, i), i))
  {
    LowerCountsDown(c, e, StopAmounts(c, e, i));
    hide Lower;
  }

  lemma OtherCountsDown(c: Config, e: Engine, s: Step)
    requires Sized(c, e) && Enabled(c, e, s)
    requires !s.Transition? && !s.Executed? && !s.ReportRunning? && !s.ReportEnded? && !s.FinishStop?
    ensures CountsDown(c, e, Apply(c, e, s))
  {
  }

  lemma StepCountsDown(c: Config, e: Engine, s: Step)
    requires Sized(c, e) && Enabled(c, e, s)
    ensures CountsDown(c, e, Apply(c, e, s))
  {
    hide NodeExecuted, StartTransition, ReleaseDependents, ReleaseDependencies, CountsDown;
    match s
    case Transition(indexes) => TransitionCountsDown(c, e, indexes);
    case Executed(i) => ExecutedCountsDown(c, e, i);
    case ReportRunning(i) => ReportCountsDown(c, e, e.procs[i := Running], i);
    case ReportEnded(i) => ReportCountsDown(c, e, e.procs, i);
    case FinishStop(i) => FinishStopCountsDown(c, e, i);
    case _ => OtherCountsDown(c, e, s);
  }

  lemma {:induction false} CountersFall(c: Config, run: seq<Engine>, steps: seq<Step>, a: nat, b: nat, i: nat)
    requires IsRun(c, run, steps) && a <= b < |run| && i < |c.deps|
    ensures run[a].epoch <= run[b].epoch
    ensures run[a].epoch == run[b].epoch ==> run[b].counters[i] <= run[a].counters[i]
    decreases b - a
  {
    hide Apply, Enabled;
    if a < b {
      CountersFall(c, run, steps, a, b - 1, i);
      assert StepAt(c, run, steps, b - 1);
      StepCountsDown(c, run[b - 1], steps[b - 1]);
    }
  }

  /** In every run, a node that has been queued is not queued again in the same phase. */
  lemma QueuedAtMostOncePerPhase(c: Config, run: seq<Engine>, steps: seq<Step>, a: nat, b: nat, i: nat)
    requires IsWholeRun(c, run, steps) && a < b < |steps| && i < |c.deps|
    requires run[a + 1].queued[i] > run[a].queued[i]
    requires run[a + 1].epoch == run[b + 1].epoch
    ensures run[b + 1].queued[i] <= run[b].queued[i]
  {
    InitialInv(c);
    RunKeepsInv(c, run, steps, a + 1);
    assert Load(run[a + 1], i) >= 1;
    assert run[a + 1].counters[i] == 0;
    CountersFall(c, run, steps, a + 1, b, i);
    CountersFall(c, run, steps, b, b + 1, i);
    assert StepAt(c, run, steps, b);
    StepCountsDown(c, run[b], steps[b]);
  }
}
