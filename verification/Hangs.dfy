/** Whole transitions over acyclic, closed dependencies: exactly when self-terminating processes can make a failure-free one
    hang, told from the configuration, the processes that are running and the request. */
module Hangs {
  import opened States
  import opened Counting
  import opened Engine
  import opened EngineInvariant
  import opened Runs
  import opened StopOrder
  import opened StartOrder
  import opened Calm
  import opened CalmSteps
  import opened Progress
  import opened Stalls

  /** A failure-free run from `e`, within one transition. */
  ghost predicate CalmFrom(c: Config, e: Engine, run: seq<Engine>, steps: seq<Step>) {
    && IsRun(c, run, steps) && run[0] == e
    && forall t :: 0 <= t < |steps| ==> CalmStep(c, run[t], steps[t])
  }

  /** In transition with nothing in flight: no worker will ever come back to it. */
  predicate Hanging(e: Engine) {
    e.state == InTransition && e.inFlight == 0
  }

  ghost predicate CanHang(c: Config, e: Engine) {
    exists run, steps :: CalmFrom(c, e, run, steps) && Hanging(run[|steps|])
  }

  // ---- The condition ----

  /** Something has to be stopped. */
  predicate Stops(running: set<nat>, requested: set<nat>) {
    running - requested != {}
  }

  /** A self-terminating process has to be stopped after a process that depends on it. */
  ghost predicate StopExposed(c: Config, running: set<nat>, requested: set<nat>) {
    exists i, k :: i in running - requested && k in running && k < |c.deps| && i in c.deps[k] && i in c.selfTerminating
  }

  /** A process has to be started after one that may be overlooked. Either may have to be started because it is not running
      now, or because it ends on its own while others are being stopped. */
  ghost predicate StartExposed(c: Config, running: set<nat>, requested: set<nat>) {
    exists i: nat, d: nat :: StartPair(c, running, requested, i, d)
  }

  ghost predicate StartPair(c: Config, running: set<nat>, requested: set<nat>, i: nat, d: nat) {
    && i in requested && i < |c.deps| && d in c.deps[i] && Quick(c, d)
    && (d !in running || Stops(running, requested))
    && (i !in running || (Stops(running, requested) && i in c.selfTerminating))
  }

  ghost predicate Exposed(c: Config, running: set<nat>, requested: set<nat>) {
    StopExposed(c, running, requested) || StartExposed(c, running, requested)
  }

  // ---- Runs that hang ----

  lemma StallIsHang(c: Config, e: Engine)
    requires CanStall(c, e)
    ensures CanHang(c, e)
  {
    hide IsRun, CalmStep;
    var run, steps :| Stalls.Stalls(c, e, run, steps);
    assert CalmFrom(c, e, run, steps);
  }

  lemma PrependCalm(c: Config, e: Engine, s: Step, run: seq<Engine>, steps: seq<Step>)
    requires Sized(c, e) && CalmStep(c, e, s) && CalmFrom(c, Apply(c, e, s), run, steps)
    ensures CalmFrom(c, e, [e] + run, [s] + steps)
  {
    PrependStep(c, e, s, run, steps);
    hide IsRun, CalmStep, Apply, Enabled;
  }

  lemma HangsAfter(c: Config, e: Engine, s: Step)
    requires Sized(c, e) && CalmStep(c, e, s) && CanHang(c, Apply(c, e, s))
    ensures CanHang(c, e)
  {
    assert Enabled(c, e, s);
    hide CalmStep, Apply, Enabled, Sized, StepAt;
    var run, steps :| CalmFrom(c, Apply(c, e, s), run, steps) && Hanging(run[|steps|]);
    PrependCalm(c, e, s, run, steps);
    assert ([e] + run)[|[s] + steps|] == run[|steps|];
  }

  /** In the stop phase: process `i` will have to be started after process `d`, which may be overlooked. */
  ghost predicate Doomed(c: Config, e: Engine, i: nat, d: nat) {
    && !e.starting && i in e.requested && d in e.requested && i < |c.deps| && d < |c.deps| && d in c.deps[i]
    && |e.procs| == |c.deps| && e.procs[i] != Running && e.procs[d] != Running && Quick(c, d)
  }

  lemma DoomedStays(c: Config, e: Engine, s: Step, i: nat, d: nat)
    requires CalmInv(c, e) && CalmStep(c, e, s) && Doomed(c, e, i, d) && !EndsStopPhase(e, s)
    ensures Doomed(c, Apply(c, e, s), i, d) && Apply(c, e, s).state == InTransition
  {
    hide CalmInv, CalmStep, Apply, Inv;
    CalmFacts(c, e, s);
    PhaseStep(c, e, s);
    NotRunningStays(c, e, s, i);
    NotRunningStays(c, e, s, d);
  }

  lemma NotRunningStays(c: Config, e: Engine, s: Step, i: nat)
    requires CalmInv(c, e) && CalmStep(c, e, s) && !e.starting && i < |e.procs| && e.procs[i] != Running
    ensures |Apply(c, e, s).procs| == |e.procs| && Apply(c, e, s).procs[i] != Running
  {
    StepProcs(c, e, s);
    StopPhaseSteps(c, e, s);
    hide Apply, Inv;
  }

  lemma DoomedStarves(c: Config, e: Engine, s: Step, i: nat, d: nat)
    requires CalmState(c, e) && CalmStep(c, e, s) && Doomed(c, e, i, d) && EndsStopPhase(e, s)
    ensures Starving(c, Apply(c, e, s), i, d) && Apply(c, e, s).state == InTransition
  {
    assert Inv(c, e);
    PhaseStep(c, e, s);
    StepOfCalmState(c, e, s);
    var e1 := Apply(c, e, s);
    StartPhaseNodes(c, OneLess(e, s.node));
    if NoneReady(e1) {
      NoneReadyNoNodes(c, e1);
    }
  }

  lemma StartPhaseNodes(c: Config, e: Engine)
    requires Sized(c, e)
    ensures var e1 := QueueStartJobs(c, e);
            && e1.starting && e1.released == RunningSet(e.procs) && e1.executed == {} && e1.requested == e.requested
            && e1.procs == e.procs
            && e1.included == set i: nat | i < |e.procs| && i in e.requested && e.procs[i] != Running
  {
  }

  /** A doomed stop phase hangs, or is followed by a start phase that does. */
  lemma {:induction false} DoomedHangs(c: Config, e: Engine, i: nat, d: nat)
    requires CalmState(c, e) && Doomed(c, e, i, d)
    ensures CanHang(c, e)
    decreases StepsLeft(c, e)
  {
    if JobCount(e) == 0 {
      assert CalmFrom(c, e, [e], []) && Hanging([e][0]);
    } else {
      var s := SomeCalmStep(c, e);
      StepOfCalmState(c, e, s);
      hide CalmInv, CalmStep, Startable, Apply, Starving, Doomed, CanHang, StepsLeft;
      if EndsStopPhase(e, s) {
        DoomedStarves(c, e, s, i, d);
        var run, steps := StartStall(c, Apply(c, e, s), i, d);
        StallIsHang(c, Apply(c, e, s));
      } else {
        DoomedStays(c, e, s, i, d);
        DoomedHangs(c, Apply(c, e, s), i, d);
      }
      CalmFacts(c, e, s);
      HangsAfter(c, e, s);
    }
  }

  /** A requested process that may end on its own may do so while others are being stopped. */
  lemma MayEndMeanwhile(c: Config, e: Engine, j: nat)
    requires CalmState(c, e) && !e.starting && j in e.requested && j in c.selfTerminating && e.procs[j] == Running
    ensures CalmStep(c, e, Ended(j, 0))
    ensures var e1 := Apply(c, e, Ended(j, 0));
            && CalmState(c, e1) && !e1.starting && e1.requested == e.requested && e1.procs == e.procs[j := Terminated]
  {
    assert Sized(c, e) && PhaseJobs(e);
    StepOfCalmState(c, e, Ended(j, 0));
    EndInPhase(c, e, j, 0);
    hide CalmInv, Startable;
  }

  lemma PairHangs(c: Config, e: Engine, i: nat, d: nat)
    requires CalmState(c, e) && !e.starting && i in e.requested && d in e.requested && d in c.deps[i] && Quick(c, d)
    requires e.procs[i] == Running ==> i in c.selfTerminating
    ensures CanHang(c, e)
    decreases e.procs[d] == Running, e.procs[i] == Running
  {
    assert Sized(c, e);
    hide CalmInv, CalmStep, Startable, Apply, CanHang;
    if e.procs[d] == Running {
      MayEndMeanwhile(c, e, d);
      PairHangs(c, Apply(c, e, Ended(d, 0)), i, d);
      HangsAfter(c, e, Ended(d, 0));
    } else if e.procs[i] == Running {
      MayEndMeanwhile(c, e, i);
      PairHangs(c, Apply(c, e, Ended(i, 0)), i, d);
      HangsAfter(c, e, Ended(i, 0));
    } else {
      DoomedHangs(c, e, i, d);
    }
  }

  // ---- The state a transition begins in ----

  /** Every counter is the number of entries of running dependents. */
  ghost predicate FreshCounters(c: Config, e: Engine, running: set<nat>) {
    && |e.counters| == |c.deps|
    && forall i :: 0 <= i < |c.deps| ==> e.counters[i] == CountHeld(c.deps, running, i, |c.deps|)
  }

  lemma TransitionStops(c: Config, e: Engine, indexes: seq<nat>)
    requires ReadyState(c, e) && Startable(c, Requested(c, indexes))
    ensures var e1, running, requested := StartTransition(c, e, indexes), RunningSet(e.procs), Requested(c, indexes);
            && CalmInv(c, e1) && e1.requested == requested && e1.procs == e.procs
            && (e1.starting <==> !Stops(running, requested))
            && (!e1.starting ==> e1.included == running - requested && e1.state == InTransition
                                 && FreshCounters(c, e1, running))
            && (e1.starting ==> e1.included == requested - running && e1.released == running
                                && (e1.included != {} ==> e1.state == InTransition))
  {
    TransitionCalm(c, e, indexes);
    TransitionShape(c, e, indexes);
    var e0 := e.(state := InTransition, requested := Requested(c, indexes));
    hide CalmInv, Startable, QueueHeadNodes, QueueStartJobs, ReadyState, StartTransition, JobCount, Settled,
         StartingNotFailed, Sized;
    if QueueHeadNodes(c, e0, false).inFlight <= 0 {
      StartsAtOnce(c, e0);
    } else {
      StopPhaseNodes(c, e0);
    }
  }

  /** Nothing has to be stopped, and the start phase begins. */
  lemma StartsAtOnce(c: Config, e: Engine)
    requires Sized(c, e) && Settled(e) && JobCount(e) == 0 && StartingNotFailed(e)
    requires e.state == InTransition && Startable(c, e.requested)
    requires QueueHeadNodes(c, e, false).inFlight <= 0 && Sized(c, QueueHeadNodes(c, e, false))
    ensures var e1, running := QueueStartJobs(c, QueueHeadNodes(c, e, false)), RunningSet(e.procs);
            && e1.starting && !Stops(running, e.requested) && e1.requested == e.requested && e1.procs == e.procs
            && e1.included == e.requested - running && e1.released == running
            && (e1.included != {} ==> e1.state == InTransition)
  {
    hide CalmInv, Startable, QueueHeadNodes, QueueStartJobs, JobCount, Settled, StartingNotFailed, FreshCounters;
    NoHeadNoStop(c, e);
    StopPhaseNodes(c, e);
    SkippedStopIsEmpty(c, e);
    var e1 := QueueHeadNodes(c, e, false);
    StartPhaseNodes(c, e1);
    StartPhaseState(c, QueueStartJobs(c, e1));
  }

  lemma TransitionShape(c: Config, e: Engine, indexes: seq<nat>)
    requires ReadyState(c, e)
    ensures var e0 := e.(state := InTransition, requested := Requested(c, indexes));
            && Sized(c, e0) && Settled(e0) && JobCount(e0) == 0 && StartingNotFailed(e0)
            && Sized(c, QueueHeadNodes(c, e0, false))
            && StartTransition(c, e, indexes) ==
               if QueueHeadNodes(c, e0, false).inFlight > 0 then QueueHeadNodes(c, e0, false)
               else QueueStartJobs(c, QueueHeadNodes(c, e0, false))
  {
    var e0 := e.(state := InTransition, requested := Requested(c, indexes));
    QueueHeadNodesInv(c, e0, false);
    hide QueueHeadNodes, QueueStartJobs;
  }

  lemma NoJobsAfterSkip(c: Config, e: Engine)
    requires Sized(c, e) && JobCount(e) == 0 && e.state == InTransition && QueueHeadNodes(c, e, false).inFlight <= 0
    ensures JobCount(QueueHeadNodes(c, e, false)) == 0
  {
    QueueHeadNodesInv(c, e, false);
  }

  /** The nodes of a stop phase. */
  lemma StopPhaseNodes(c: Config, e: Engine)
    requires Sized(c, e) && Settled(e) && e.state == InTransition
    ensures var e1 := QueueHeadNodes(c, e, false);
            && Sized(c, e1) && !e1.starting && e1.state == InTransition && e1.procs == e.procs && e1.requested == e.requested
            && e1.included == RunningSet(e.procs) - e.requested
            && (e1.inFlight > 0 ==> e1.included != {}) && FreshCounters(c, e1, RunningSet(e.procs))
  {
    var e1 := QueueHeadNodes(c, e, false);
    var heads := Heads(e1.included, e1.counters);
    if |heads| > 0 {
      var h :| h in heads;
    }
  }

  lemma StartPhaseState(c: Config, e: Engine)
    requires CalmInv(c, e) && e.starting && e.executed == {} && Startable(c, e.requested)
    ensures e.included != {} ==> e.state == InTransition
  {
    if NoneReady(e) {
      NoneReadyNoNodes(c, e);
    }
  }

  // ---- The two directions ----

  lemma StopExposedHangs(c: Config, e: Engine, indexes: seq<nat>)
    requires ReadyState(c, e) && Startable(c, Requested(c, indexes))
    requires StopExposed(c, RunningSet(e.procs), Requested(c, indexes))
    ensures CanHang(c, StartTransition(c, e, indexes))
  {
    var running, requested := RunningSet(e.procs), Requested(c, indexes);
    var i, k :| i in running - requested && k in running && k < |c.deps| && i in c.deps[k] && i in c.selfTerminating;
    TransitionStops(c, e, indexes);
    hide StartTransition, CalmInv, Startable, ReadyState;
    var e1 := StartTransition(c, e, indexes);
    CountHeldZero(c.deps, running, i, |c.deps|);
    assert i in e1.included && e1.counters[i] > 0;
    StopStallsExactlyWhenExposed(c, e1);
    StallIsHang(c, e1);
  }

  lemma StartExposedHangs(c: Config, e: Engine, indexes: seq<nat>)
    requires ReadyState(c, e) && Startable(c, Requested(c, indexes))
    requires StartExposed(c, RunningSet(e.procs), Requested(c, indexes))
    ensures CanHang(c, StartTransition(c, e, indexes))
  {
    var i: nat, d: nat :| StartPair(c, RunningSet(e.procs), Requested(c, indexes), i, d);
    TransitionStops(c, e, indexes);
    var e1 := StartTransition(c, e, indexes);
    assert d in e1.requested && |e1.procs| == |c.deps| && d < |c.deps|;
    hide StartTransition, CalmInv, ReadyState, CanHang, CanStall, Stalls.Stalls, Startable;
    if e1.starting {
      assert Starving(c, e1, i, d);
      var run, steps := StartStall(c, e1, i, d);
      StallIsHang(c, e1);
    } else {
      PairHangs(c, e1, i, d);
    }
  }

  /** Nobody is exposed now, and in the stop phase nobody will be in the start phase that follows. */
  ghost predicate Safe(c: Config, e: Engine) {
    && NoneExposed(c, e)
    && (!e.starting ==> forall i, d :: i in e.requested && i < |c.deps| && d in c.deps[i] && Quick(c, d) ==>
          i !in c.selfTerminating && i < |e.procs| && e.procs[i] == Running)
  }

  /** A stop phase begins safe, */
  lemma SafeStop(c: Config, e: Engine, running: set<nat>)
    requires |e.procs| == |c.deps| && running == RunningSet(e.procs) && Stops(running, e.requested) && !e.starting
    requires e.included == running - e.requested && FreshCounters(c, e, running)
    requires !Exposed(c, running, e.requested)
    ensures Safe(c, e)
  {
    forall i, d | i in e.requested && i < |c.deps| && d in c.deps[i] && Quick(c, d)
      ensures i !in c.selfTerminating && i < |e.procs| && e.procs[i] == Running
    {
      assert !StartPair(c, running, e.requested, i, d);
    }
    forall i | i in e.included && i < |e.counters| && e.counters[i] > 0 ensures i !in c.selfTerminating {
      CountHeldZero(c.deps, running, i, |c.deps|);
    }
  }

  /** and so does a start phase with nothing to stop before it. */
  lemma SafeStart(c: Config, e: Engine, running: set<nat>)
    requires e.starting && e.included == e.requested - running && e.released == running
    requires !StartExposed(c, running, e.requested)
    ensures Safe(c, e)
  {
    forall i, d | i in e.included && i < |c.deps| && d in c.deps[i] && d in e.included && d !in e.released
      ensures !Quick(c, d)
    {
      assert !StartPair(c, running, e.requested, i, d);
    }
  }

  lemma SafeTransition(c: Config, e: Engine, indexes: seq<nat>)
    requires ReadyState(c, e) && Startable(c, Requested(c, indexes))
    requires !Exposed(c, RunningSet(e.procs), Requested(c, indexes))
    ensures Safe(c, StartTransition(c, e, indexes))
  {
    assert Sized(c, e);
    TransitionStops(c, e, indexes);
    hide StartTransition, CalmInv, ReadyState, Startable, StopExposed, StartExposed, Safe, FreshCounters;
    var e1 := StartTransition(c, e, indexes);
    if e1.starting {
      SafeStart(c, e1, RunningSet(e.procs));
    } else {
      SafeStop(c, e1, RunningSet(e.procs));
    }
  }

  /** A process that is to keep running does so through the stop phase. */
  lemma KeepsRunning(c: Config, e: Engine, s: Step, i: nat)
    requires CalmInv(c, e) && CalmStep(c, e, s) && !e.starting
    requires i in e.requested && i !in c.selfTerminating && e.procs[i] == Running
    ensures |Apply(c, e, s).procs| == |e.procs| && Apply(c, e, s).procs[i] == Running
  {
    StepProcs(c, e, s);
    StopPhaseSteps(c, e, s);
    if s.Begin? {
      QueuedFacts(c, e, s.node);
    } else if s.Ended? && s.node in e.stoppers {
      StopperIncluded(c, e, s.node);
    }
    hide Apply, Inv, OnceEach;
  }

  lemma StopperIncluded(c: Config, e: Engine, i: nat)
    requires Inv(c, e) && i in e.stoppers
    ensures i in e.included
  {
    assert Load(e, i) >= 1;
  }

  lemma SafeStep(c: Config, e: Engine, s: Step)
    requires CalmState(c, e) && CalmStep(c, e, s) && Safe(c, e)
    ensures Safe(c, Apply(c, e, s))
  {
    hide Startable, CalmInv, CalmStep, Apply, Inv;
    CalmFacts(c, e, s);
    PhaseStep(c, e, s);
    if e.starting {
      StartUnexposedStep(c, e, s);
    } else if EndsStopPhase(e, s) {
      StartsSafe(c, e, s);
    } else {
      StopsSafe(c, e, s);
    }
  }

  lemma StopsSafe(c: Config, e: Engine, s: Step)
    requires CalmState(c, e) && CalmStep(c, e, s) && Safe(c, e) && !e.starting && !EndsStopPhase(e, s)
    ensures Safe(c, Apply(c, e, s))
  {
    hide Startable, CalmInv, CalmStep, Apply, NoneExposed, Inv;
    CalmFacts(c, e, s);
    PhaseStep(c, e, s);
    StopUnexposedStays(c, e, s);
    var e1 := Apply(c, e, s);
    forall i, d | i in e1.requested && i < |c.deps| && d in c.deps[i] && Quick(c, d)
      ensures i !in c.selfTerminating && i < |e1.procs| && e1.procs[i] == Running
    {
      KeepsRunning(c, e, s, i);
    }
  }

  lemma StartsSafe(c: Config, e: Engine, s: Step)
    requires CalmState(c, e) && CalmStep(c, e, s) && Safe(c, e) && EndsStopPhase(e, s)
    ensures Safe(c, Apply(c, e, s))
  {
    hide Startable, CalmInv, CalmStep, Apply, Inv;
    CalmFacts(c, e, s);
    PhaseStep(c, e, s);
    StartPhaseNodes(c, OneLess(e, s.node));
  }

  lemma {:induction false} SafeRun(c: Config, run: seq<Engine>, steps: seq<Step>, indexes: seq<nat>, t: nat)
    requires CalmRun(c, run, steps, indexes) && Startable(c, Requested(c, indexes)) && 1 <= t < |run|
    requires !Exposed(c, RunningSet(run[0].procs), Requested(c, indexes))
    ensures Safe(c, run[t])
  {
    hide CalmInv, Apply, Enabled, CalmStep, Startable, Safe, Exposed, StartTransition;
    assert StepAt(c, run, steps, t - 1);
    if t == 1 {
      TransitionStep(c, run[0], steps[0]);
      SafeTransition(c, run[0], indexes);
    } else {
      SafeRun(c, run, steps, indexes, t - 1);
      CalmRunInv(c, run, steps, indexes, t - 1);
      assert CalmStep(c, run[t - 1], steps[t - 1]);
      CalmStepInTransition(c, run[t - 1], steps[t - 1]);
      SafeStep(c, run[t - 1], steps[t - 1]);
    }
  }

  // ---- Results ----

  /** If nobody is exposed, a failure-free transition that has not succeeded has a job in flight and can go on. */
  lemma CalmRunGoesOn(c: Config, run: seq<Engine>, steps: seq<Step>, indexes: seq<nat>) returns (s: Step)
    requires CalmRun(c, run, steps, indexes) && Startable(c, Requested(c, indexes))
    requires !Exposed(c, RunningSet(run[0].procs), Requested(c, indexes))
    requires run[|steps|].state != Success
    ensures run[|steps|].state == InTransition && run[|steps|].inFlight > 0
    ensures CalmStep(c, run[|steps|], s)
  {
    CalmRunInv(c, run, steps, indexes, |steps|);
    SafeRun(c, run, steps, indexes, |steps|);
    var e := run[|steps|];
    assert e.state == InTransition && e.inFlight == JobCount(e);
    hide CalmInv, Startable, Exposed;
    JobAlwaysInFlight(c, e);
    s := SomeCalmStep(c, e);
  }

  /** Nobody is exposed if no process depends on a self-terminating one. */
  lemma UnexposedByConfiguration(c: Config, running: set<nat>, requested: set<nat>)
    requires forall k, d :: 0 <= k < |c.deps| && d in c.deps[k] ==> d !in c.selfTerminating
    ensures !Exposed(c, running, requested)
  {
    assert forall i: nat, d: nat :: !StartPair(c, running, requested, i, d);
  }

  /** A failure-free transition over acyclic, closed dependencies can hang exactly when somebody is exposed. */
  lemma TransitionHangsExactlyWhenExposed(c: Config, e: Engine, indexes: seq<nat>)
    requires ReadyState(c, e) && Startable(c, Requested(c, indexes))
    ensures CanHang(c, StartTransition(c, e, indexes)) <==> Exposed(c, RunningSet(e.procs), Requested(c, indexes))
  {
    assert Sized(c, e);
    hide StartTransition, ReadyState, Startable, StopExposed, StartExposed;
    if StopExposed(c, RunningSet(e.procs), Requested(c, indexes)) {
      StopExposedHangs(c, e, indexes);
    } else if StartExposed(c, RunningSet(e.procs), Requested(c, indexes)) {
      StartExposedHangs(c, e, indexes);
    } else if CanHang(c, StartTransition(c, e, indexes)) {
      NoHang(c, e, indexes);
    }
  }

  lemma NoHang(c: Config, e: Engine, indexes: seq<nat>)
    requires ReadyState(c, e) && Startable(c, Requested(c, indexes))
    requires !Exposed(c, RunningSet(e.procs), Requested(c, indexes))
    ensures !CanHang(c, StartTransition(c, e, indexes))
  {
    var s := Transition(indexes);
    assert Sized(c, e) && Enabled(c, e, s);
    TransitionStep(c, e, s);
    forall run: seq<Engine>, steps: seq<Step> | CalmFrom(c, StartTransition(c, e, indexes), run, steps)
      ensures !Hanging(run[|steps|])
    {
      PrependStep(c, e, s, run, steps);
      hide StartTransition, ReadyState, Startable, Exposed, IsRun, CalmStep;
      assert CalmRun(c, [e] + run, [s] + steps, indexes);
      if run[|steps|].state != Success {
        var next := CalmRunGoesOn(c, [e] + run, [s] + steps, indexes);
      }
    }
  }
}
