/** Small groups in which transitions go wrong. */
module Examples {
  import opened States
  import opened Acyclicity
  import opened Engine
  import opened EngineInvariant
  import opened Runs
  import opened Calm
  import opened CalmSteps
  import opened Progress
  import opened Stalls
  import opened Hangs
  import opened Attainable
  import opened Outcome

  /** Process 1 depends on process 0. */
  const Pair: seq<seq<nat>> := [[], [0]]

  lemma PairIsStartable(c: Config, indexes: seq<nat>)
    requires c.deps == Pair && (0 in indexes || 1 !in indexes)
    ensures Startable(c, Requested(c, indexes))
  {
    RankedAcyclic(Pair, [0, 1]);
  }

  lemma InitialReady(c: Config)
    ensures ReadyState(c, Initial(c)) && RunningSet(Initial(c).procs) == {}
  {
    InitialInv(c);
  }

  /** A transition that can hang is part of a run that does. */
  lemma HangingRun(c: Config, e: Engine, indexes: seq<nat>) returns (run: seq<Engine>, steps: seq<Step>)
    requires ReadyState(c, e) && Startable(c, Requested(c, indexes))
    requires Exposed(c, RunningSet(e.procs), Requested(c, indexes))
    ensures CalmRun(c, run, steps, indexes) && run[0] == e && Hanging(run[|steps|])
  {
    var s := Transition(indexes);
    assert Sized(c, e) && Enabled(c, e, s);
    TransitionStep(c, e, s);
    hide StartTransition, Startable, ReadyState, Exposed, CalmStep, Enabled, Apply;
    TransitionHangsExactlyWhenExposed(c, e, indexes);
    run, steps :| CalmFrom(c, StartTransition(c, e, indexes), run, steps) && Hanging(run[|steps|]);
    PrependStep(c, e, s, run, steps);
    run, steps := [e] + run, [s] + steps;
  }

  /** Both are to be started in a new group, and process 0 is self-terminating and does not report: the
      transition can hang. */
  lemma StartCanHang(c: Config)
    requires c.deps == Pair && Quick(c, 0)
    ensures CanHang(c, StartTransition(c, Initial(c), [0, 1]))
  {
    PairIsStartable(c, [0, 1]);
    InitialReady(c);
    assert Requested(c, [0, 1]) == {0, 1};
    assert StartPair(c, {}, {0, 1}, 1, 0);
    TransitionHangsExactlyWhenExposed(c, Initial(c), [0, 1]);
  }

  /** Both are started in a new group and then stopped, and process 0, which has to wait for process 1, is
      self-terminating: there is a run of the group in which stopping them hangs. */
  lemma StopCanHang(c: Config) returns (run: seq<Engine>, steps: seq<Step>, m: nat)
    requires c.deps == Pair && 0 in c.selfTerminating
    ensures IsWholeRun(c, run, steps) && m < |steps|
    ensures CalmRun(c, run[..m + 1], steps[..m], [0, 1]) && run[m].state == Success && run[m].procs == [Running, Running]
    ensures CalmRun(c, run[m..], steps[m..], []) && Hanging(run[|steps|])
  {
    PairIsStartable(c, [0, 1]);
    PairIsStartable(c, []);
    InitialReady(c);
    assert Requested(c, [0, 1]) == {0, 1};
    assert Requested(c, []) == {};
    hide Startable, ReadyState, CalmStep, IsRun;
    var run1, steps1 := RequestCanBeMet(c, Initial(c), [0, 1]);
    m := |steps1|;
    CalmRunReachesRequest(c, run1, steps1, [0, 1]);
    BothRunning(c, run1[m]);
    var run2, steps2 := HangingRun(c, run1[m], []);
    JoinRuns(c, run1, steps1, run2, steps2);
    run, steps := run1 + run2[1..], steps1 + steps2;
    assert run[..m + 1] == run1 && steps[..m] == steps1 && run[m..] == run2 && steps[m..] == steps2;
  }

  lemma BothRunning(c: Config, e: Engine)
    requires c.deps == Pair && 0 in c.selfTerminating && ReadyState(c, e) && RunningSet(e.procs) == {0, 1}
    ensures e.procs == [Running, Running] && Exposed(c, {0, 1}, {})
  {
    assert 0 in RunningSet(e.procs) && 1 in RunningSet(e.procs);
    assert 0 in {0, 1} - {} && 1 in {0, 1} && 0 in c.deps[1];
  }

  /** A process that depends on itself is requested: success is announced at once and it stays idle. */
  lemma CycleSucceedsUnstarted(c: Config)
    requires c.deps == [[0]]
    ensures var e1 := StartTransition(c, Initial(c), [0]); e1.state == Success && e1.procs == [Idle] && e1.requested == {0}
  {
    var e0 := Initial(c).(state := InTransition, requested := set i | i in [0] && i < |c.deps|);
    var e1 := QueueHeadNodes(c, e0, false);
    assert e1.included == {};
    assert e1.procs == [Idle];
    SuccessWithoutStarting(c, e1);
    assert 0 in e1.requested && 0 in c.deps[0] && 0 !in RunningSet(e1.procs);
  }

  /** Beside a process without dependencies the same request hangs, in whatever order the workers take it. */
  lemma CycleBesideOthersHangs(c: Config, run: seq<Engine>, steps: seq<Step>)
    requires c.deps == [[], [1]] && c.selfTerminating == {}
    requires CalmRun(c, run, steps, [0, 1]) && run[0] == Initial(c) && forall s :: !CalmStep(c, run[|steps|], s)
    ensures Hanging(run[|steps|]) && RunningSet(run[|steps|].procs) == {0}
  {
    assert RunningSet(Initial(c).procs) == {} && Requested(c, [0, 1]) == {0, 1};
    assert Stoppable(c, {}, {0, 1}) == {};
    assert DependenciesIn(c, 0, {}) && HasHead(c, {}, {0, 1});
    OnlyZeroReachable(c);
    hide CalmRun, CalmStep, Stoppable, Reachable, HasHead;
    OutcomeIsDetermined(c, run, steps, [0, 1]);
  }

  lemma OnlyZeroReachable(c: Config)
    requires c.deps == [[], [1]]
    ensures Reachable(c, {}, {0, 1}) == {0}
  {
    assert !DependenciesIn(c, 1, {0}) by { assert 1 in c.deps[1]; }
    assert StartClosed(c, {}, {0, 1}, {0});
    assert InEveryStartClosed(c, {}, {0, 1}, 0);
  }
}
