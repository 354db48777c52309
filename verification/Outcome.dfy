/** The outcome of a failure-free transition without self-terminating processes, over any dependencies, cyclic and
    unrequested ones included: whatever order the workers take, it is determined by the configuration, the processes that are
    running and the request. */
module Outcome {
  import opened States
  import opened Counting
  import opened Engine
  import opened EngineInvariant
  import opened Runs
  import opened StopOrder
  import opened StartOrder
  import opened Calm
  import opened CalmSteps
  import opened Progress
  import opened Hangs

  // ---- What can be stopped and what can be started ----

  /** `x` has every process that is to be stopped and whose running dependents are all in it. */
  ghost predicate StopClosed(c: Config, running: set<nat>, requested: set<nat>, x: set<nat>) {
    forall i :: i in running - requested && NoDependentOutside(c, running, x, i) ==> i in x
  }

  ghost predicate NoDependentOutside(c: Config, running: set<nat>, x: set<nat>, i: nat) {
    forall k :: k in running && k < |c.deps| && i in c.deps[k] ==> k in x
  }

  /** The least such set. */
  ghost function Stoppable(c: Config, running: set<nat>, requested: set<nat>): set<nat> {
    set i | i in running - requested && InEveryStopClosed(c, running, requested, i)
  }

  ghost predicate InEveryStopClosed(c: Config, running: set<nat>, requested: set<nat>, i: nat) {
    forall x: set<nat> :: StopClosed(c, running, requested, x) ==> i in x
  }

  /** `x` has every process of `base` and every requested one all of whose dependencies are in it. */
  ghost predicate StartClosed(c: Config, base: set<nat>, requested: set<nat>, x: set<nat>) {
    base <= x && forall i :: i in requested && i < |c.deps| && DependenciesIn(c, i, x) ==> i in x
  }

  ghost predicate DependenciesIn(c: Config, i: nat, x: set<nat>)
    requires i < |c.deps|
  {
    forall d :: d in c.deps[i] ==> d in x
  }

  /** The least such set. */
  ghost function Reachable(c: Config, base: set<nat>, requested: set<nat>): set<nat> {
    set i | i in base + requested && InEveryStartClosed(c, base, requested, i)
  }

  ghost predicate InEveryStartClosed(c: Config, base: set<nat>, requested: set<nat>, i: nat) {
    forall x: set<nat> :: StartClosed(c, base, requested, x) ==> i in x
  }

  // ---- The stop phase ----

  /** What the stop phase of a transition from `running` keeps: only what is in every closed set has been stopped. */
  ghost predicate Stopping(c: Config, running: set<nat>, e: Engine) {
    && !e.starting && e.included == running - e.requested && e.holding <= running
    && (forall k :: k in running && k in e.requested ==> k in e.holding && k < |e.procs| && e.procs[k] == Running)
    && StopBound(c, running, e.requested, running - e.holding)
  }

  ghost predicate StopBound(c: Config, running: set<nat>, requested: set<nat>, stopped: set<nat>) {
    forall x: set<nat> :: StopClosed(c, running, requested, x) ==> stopped <= x
  }

  lemma StopBegins(c: Config, e: Engine)
    requires Sized(c, e) && Settled(e) && e.state == InTransition
    ensures Stopping(c, RunningSet(e.procs), QueueHeadNodes(c, e, false))
  {
    StopPhaseNodes(c, e);
  }

  /** Whoever is being stopped has let every running dependent go first. */
  lemma StopperIsFree(c: Config, e: Engine, i: nat)
    requires CalmInv(c, e) && !e.starting && i in e.stoppers
    ensures i in e.included && i in e.holding && forall k :: k in e.holding && k < |c.deps| ==> i !in c.deps[k]
  {
    assert Load(e, i) >= 1;
    CountHeldZero(c.deps, e.holding, i, |c.deps|);
  }

  lemma StoppingStep(c: Config, running: set<nat>, e: Engine, s: Step)
    requires CalmInv(c, e) && CalmStep(c, e, s) && Stopping(c, running, e) && c.selfTerminating == {}
    requires !EndsStopPhase(e, s)
    ensures Stopping(c, running, Apply(c, e, s))
  {
    hide CalmInv, CalmStep, Apply, Inv, StopBound;
    CalmFacts(c, e, s);
    PhaseStep(c, e, s);
    KeptRunning(c, running, e, s);
    if s.FinishStop? {
      StopperIsFree(c, e, s.node);
      OneMoreStopped(c, running, e, s.node);
    }
  }

  lemma KeptRunning(c: Config, running: set<nat>, e: Engine, s: Step)
    requires CalmInv(c, e) && CalmStep(c, e, s) && Stopping(c, running, e) && c.selfTerminating == {}
    ensures var procs := Apply(c, e, s).procs;
            forall k :: k in running && k in e.requested ==> k < |procs| && procs[k] == Running
  {
    assert Sized(c, e);
    hide CalmInv, CalmStep, Apply, Inv, StopBound;
    forall k | k in running && k in e.requested
      ensures k < |Apply(c, e, s).procs| && Apply(c, e, s).procs[k] == Running
    {
      KeepsRunning(c, e, s, k);
    }
  }

  lemma OneMoreStopped(c: Config, running: set<nat>, e: Engine, i: nat)
    requires CalmInv(c, e) && Stopping(c, running, e) && i in e.stoppers
    ensures StopBound(c, running, e.requested, running - (e.holding - {i}))
  {
    StopperIsFree(c, e, i);
    hide CalmInv;
    forall x: set<nat> | StopClosed(c, running, e.requested, x) ensures running - (e.holding - {i}) <= x {
      assert NoDependentOutside(c, running, x, i);
    }
  }

  /** Where nothing is in flight, a process all of whose running dependents have been stopped has been, too. */
  lemma FreedIsStopped(c: Config, running: set<nat>, e: Engine, i: nat)
    requires CalmInv(c, e) && Stopping(c, running, e) && c.selfTerminating == {} && Hanging(e)
    requires i in running - e.requested && NoDependentOutside(c, running, running - e.holding, i)
    ensures i !in e.holding
  {
    CountHeldZero(c.deps, e.holding, i, |c.deps|);
    assert Load(e, i) <= JobCount(e);
  }

  lemma StoppedIsStoppable(c: Config, running: set<nat>, requested: set<nat>, stopped: set<nat>)
    requires stopped <= running - requested && StopClosed(c, running, requested, stopped)
    requires StopBound(c, running, requested, stopped)
    ensures stopped == Stoppable(c, running, requested)
  {
    forall i | i in stopped ensures InEveryStopClosed(c, running, requested, i) {
    }
  }

  /** At a standstill exactly the stoppable processes have been stopped, and not all that had to be. */
  lemma StopStandstill(c: Config, running: set<nat>, e: Engine)
    requires CalmInv(c, e) && Stopping(c, running, e) && c.selfTerminating == {} && Hanging(e)
    ensures RunningSet(e.procs) == running - Stoppable(c, running, e.requested)
    ensures Stoppable(c, running, e.requested) != running - e.requested
  {
    var stopped := running - e.holding;
    forall i | i in running - e.requested && NoDependentOutside(c, running, stopped, i) ensures i in stopped {
      FreedIsStopped(c, running, e, i);
    }
    StoppedIsStoppable(c, running, e.requested, stopped);
    StandstillProcs(c, running, e);
  }

  lemma StandstillProcs(c: Config, running: set<nat>, e: Engine)
    requires CalmInv(c, e) && Stopping(c, running, e) && c.selfTerminating == {} && Hanging(e)
    ensures RunningSet(e.procs) == e.holding && exists i :: i in e.holding && i in running - e.requested
  {
    assert e.queued == e.stoppers == e.done == e.starters == e.leaving == multiset{};
    forall k | k in e.holding ensures k < |e.procs| && e.procs[k] == Running {
      if k in e.included {
        assert Load(e, k) == 0;
      }
    }
    SomeNodeLeft(c, e);
    var i :| i in e.included && i !in e.executed;
    assert Load(e, i) == 0;
  }

  /** A complete stop phase has stopped all that had to be. */
  lemma StopCompletes(c: Config, running: set<nat>, e: Engine, s: Step)
    requires CalmInv(c, e) && CalmStep(c, e, s) && Stopping(c, running, e) && EndsStopPhase(e, s)
    ensures Stoppable(c, running, e.requested) == running - e.requested
    ensures RunningSet(e.procs) == running * e.requested
  {
    StopPhaseEnds(c, e, s);
    RunningHold(c, e);
    var e1 := OneLess(e, s.node);
    ExecutedDoNotHold(c, e1);
    TidyRunning(c, e1);
    StopDone(c, running, e);
  }

  lemma StopDone(c: Config, running: set<nat>, e: Engine)
    requires Stopping(c, running, e) && RunningSet(e.procs) <= e.holding && RunningSet(e.procs) <= e.requested
    requires forall i :: i in e.included ==> i !in e.holding
    ensures Stoppable(c, running, e.requested) == running - e.requested
    ensures RunningSet(e.procs) == running * e.requested
  {
    hide StopBound;
    assert running - e.holding == running - e.requested;
    AllStoppable(c, running, e.requested);
  }

  lemma AllStoppable(c: Config, running: set<nat>, requested: set<nat>)
    requires StopBound(c, running, requested, running - requested)
    ensures Stoppable(c, running, requested) == running - requested
  {
    forall i | i in running - requested ensures InEveryStopClosed(c, running, requested, i) {
    }
  }

  lemma TidyRunning(c: Config, e: Engine)
    requires Tidy(c, e) && |e.procs| == |c.deps|
    ensures RunningSet(e.procs) <= e.requested
  {
  }

  lemma RunningHold(c: Config, e: Engine)
    requires CalmInv(c, e) && !e.starting
    ensures RunningSet(e.procs) <= e.holding
  {
  }

  lemma ExecutedDoNotHold(c: Config, e: Engine)
    requires Sized(c, e) && CalmStop(c, e) && e.executed == e.included
    ensures forall i :: i in e.included ==> i !in e.holding
  {
  }

  /** A stop phase is skipped when nothing can be stopped. */
  lemma StopSkipped(c: Config, e: Engine)
    requires Sized(c, e) && Settled(e) && e.state == InTransition && QueueHeadNodes(c, e, false).inFlight <= 0
    ensures Stoppable(c, RunningSet(e.procs), e.requested) == {}
  {
    var running, e1 := RunningSet(e.procs), QueueHeadNodes(c, e, false);
    StopPhaseNodes(c, e);
    assert Heads(e1.included, e1.counters) == {};
    forall i | i in running - e.requested ensures !NoDependentOutside(c, running, {}, i) {
      CountHeldZero(c.deps, running, i, |c.deps|);
      assert i in e1.included && i !in Heads(e1.included, e1.counters);
    }
    assert StopClosed(c, running, e.requested, {});
  }

  /** One that begins can stop somebody. */
  lemma StopNotSkipped(c: Config, e: Engine)
    requires Sized(c, e) && Settled(e) && e.state == InTransition && QueueHeadNodes(c, e, false).inFlight > 0
    ensures Stoppable(c, RunningSet(e.procs), e.requested) != {}
  {
    var running, e1 := RunningSet(e.procs), QueueHeadNodes(c, e, false);
    StopPhaseNodes(c, e);
    var h :| h in Heads(e1.included, e1.counters);
    CountHeldZero(c.deps, running, h, |c.deps|);
    forall x: set<nat> | StopClosed(c, running, e.requested, x) ensures h in x {
      assert NoDependentOutside(c, running, x, h);
    }
    assert h in Stoppable(c, running, e.requested);
  }

  // ---- The start phase ----

  /** Some requested process can be started at once. */
  ghost predicate HasHead(c: Config, base: set<nat>, requested: set<nat>) {
    exists i :: i in requested - base && i < |c.deps| && DependenciesIn(c, i, base)
  }

  /** What the start phase from `base` keeps: only what is in every closed set has been started. */
  ghost predicate Starting(c: Config, base: set<nat>, e: Engine) {
    && e.starting && base <= e.released && e.included == e.requested - base
    && (e.state == InTransition ==> HasHead(c, base, e.requested))
    && StartBound(c, base, e.requested, e.released)
  }

  ghost predicate StartBound(c: Config, base: set<nat>, requested: set<nat>, started: set<nat>) {
    forall x: set<nat> :: StartClosed(c, base, requested, x) ==> started <= x
  }

  lemma StartBegins(c: Config, e: Engine)
    requires Sized(c, e) && e.state == InTransition && JobCount(e) == 0
    ensures Starting(c, RunningSet(e.procs), QueueStartJobs(c, e))
  {
    StartPhaseNodes(c, e);
    var e1 := QueueHeadNodes(c, e, true);
    var heads := Heads(e1.included, e1.counters);
    if e1.inFlight > 0 {
      var h :| h in heads;
      CountOutsideZero(c.deps[h], RunningSet(e.procs));
      assert DependenciesIn(c, h, RunningSet(e.procs));
    }
  }

  lemma StartingStep(c: Config, base: set<nat>, e: Engine, s: Step)
    requires CalmInv(c, e) && CalmStep(c, e, s) && Starting(c, base, e)
    ensures Starting(c, base, Apply(c, e, s))
  {
    hide CalmInv, CalmStep, Apply, Inv, StartBound, HasHead;
    CalmFacts(c, e, s);
    PhaseStep(c, e, s);
    if s.ReportRunning? || s.ReportEnded? {
      OneMoreStarted(c, base, e, s.node);
    }
  }

  lemma OneMoreStarted(c: Config, base: set<nat>, e: Engine, i: nat)
    requires CalmInv(c, e) && Starting(c, base, e) && i in e.starters && i < |c.deps|
    ensures StartBound(c, base, e.requested, e.released + {i})
  {
    StarterFacts(c, e, i);
    assert DependenciesIn(c, i, e.released);
    assert i in e.requested;
    hide CalmInv;
    forall x: set<nat> | StartClosed(c, base, e.requested, x) ensures e.released + {i} <= x {
      assert DependenciesIn(c, i, x);
    }
  }

  /** With nothing in flight the released processes are those that are running. */
  lemma ReleasedAreRunning(c: Config, e: Engine)
    requires CalmInv(c, e) && e.starting && c.selfTerminating == {} && JobCount(e) == 0
    ensures RunningSet(e.procs) == e.released
  {
    assert e.queued == e.stoppers == e.done == e.starters == e.leaving == multiset{};
    forall k | k in e.released ensures k < |e.procs| && e.procs[k] == Running {
      assert RanWell(c, e, k);
    }
    forall k | 0 <= k < |e.procs| && e.procs[k] == Running ensures k in e.released {
      assert Over(e, k) ==> k in e.released;
    }
  }

  /** When the start phase is over, exactly the reachable processes have been started. */
  lemma StartOver(c: Config, base: set<nat>, e: Engine)
    requires CalmInv(c, e) && Starting(c, base, e) && c.selfTerminating == {} && JobCount(e) == 0
    ensures e.released == Reachable(c, base, e.requested)
  {
    forall i | i in e.requested && i < |c.deps| && DependenciesIn(c, i, e.released) ensures i in e.released {
      CountOutsideZero(c.deps[i], e.released);
      assert Load(e, i) == 0;
      assert Over(e, i) ==> i in e.released;
    }
    StartedIsReachable(c, base, e.requested, e.released);
  }

  lemma StartedIsReachable(c: Config, base: set<nat>, requested: set<nat>, started: set<nat>)
    requires StartClosed(c, base, requested, started) && StartBound(c, base, requested, started)
    ensures started == Reachable(c, base, requested)
  {
    assert StartClosed(c, base, requested, base + requested);
    forall i | i in started ensures InEveryStartClosed(c, base, requested, i) {
    }
  }

  /** A start phase that was successful started all that was requested, or could not start anything. */
  lemma StartSucceeded(c: Config, base: set<nat>, e: Engine)
    requires CalmInv(c, e) && Starting(c, base, e) && c.selfTerminating == {} && e.state == Success
    ensures e.requested <= e.released || !HasHead(c, base, e.requested)
  {
    if NoneReady(e) {
      forall i | i in e.requested - base && i < |c.deps| ensures !DependenciesIn(c, i, base) {
        CountOutsideZero(c.deps[i], e.released);
      }
    } else {
      assert forall i :: i in e.included ==> Over(e, i);
    }
  }

  /** One that hangs has not. */
  lemma StartHangs(c: Config, base: set<nat>, e: Engine)
    requires CalmInv(c, e) && Starting(c, base, e) && Hanging(e)
    ensures !(e.requested <= e.released) && HasHead(c, base, e.requested)
  {
    SomeNodeLeft(c, e);
    var i :| i in e.included && i !in e.executed;
    assert e.queued == e.stoppers == e.done == e.starters == e.leaving == multiset{};
    assert i in e.released ==> RanWell(c, e, i);
    assert !InHand(e, i);
    assert i in e.requested && i !in e.released;
  }

  // ---- Whole transitions ----

  /** The stop phase comes to a standstill. */
  ghost predicate Blocked(c: Config, running: set<nat>, requested: set<nat>) {
    Stoppable(c, running, requested) != {} && Stoppable(c, running, requested) != running - requested
  }

  /** The processes that are running when the start phase begins: if nothing could be stopped, nothing has been. */
  ghost function Base(c: Config, running: set<nat>, requested: set<nat>): set<nat> {
    if Stoppable(c, running, requested) == {} then running else running * requested
  }

  /** The processes that are running in the end. */
  ghost function Final(c: Config, running: set<nat>, requested: set<nat>): set<nat> {
    if Blocked(c, running, requested) then running - Stoppable(c, running, requested)
    else Reachable(c, Base(c, running, requested), requested)
  }

  ghost predicate Succeeds(c: Config, running: set<nat>, requested: set<nat>) {
    && !Blocked(c, running, requested)
    && var base := Base(c, running, requested);
       requested <= Reachable(c, base, requested) || !HasHead(c, base, requested)
  }

  ghost predicate Tracked(c: Config, running: set<nat>, e: Engine) {
    if e.starting then
      !Blocked(c, running, e.requested) && Starting(c, Base(c, running, e.requested), e)
    else
      Stoppable(c, running, e.requested) != {} && Stopping(c, running, e)
  }

  lemma TransitionTracked(c: Config, e: Engine, indexes: seq<nat>)
    requires ReadyState(c, e)
    ensures Tracked(c, RunningSet(e.procs), StartTransition(c, e, indexes))
  {
    TransitionShape(c, e, indexes);
    var e0 := e.(state := InTransition, requested := Requested(c, indexes));
    hide ReadyState, StartTransition, QueueHeadNodes, QueueStartJobs, Settled, JobCount, Stopping, Starting, Stoppable;
    StopPhaseNodes(c, e0);
    var e1 := QueueHeadNodes(c, e0, false);
    if e1.inFlight > 0 {
      StopNotSkipped(c, e0);
      StopBegins(c, e0);
    } else {
      StopSkipped(c, e0);
      NoJobsAfterSkip(c, e0);
      StartBegins(c, e1);
      StartPhaseNodes(c, e1);
    }
  }

  lemma TrackedStep(c: Config, running: set<nat>, e: Engine, s: Step)
    requires CalmInv(c, e) && CalmStep(c, e, s) && Tracked(c, running, e) && c.selfTerminating == {}
    ensures Tracked(c, running, Apply(c, e, s))
  {
    hide CalmInv, CalmStep, Apply, Inv, Stopping, Starting, Stoppable;
    CalmFacts(c, e, s);
    CalmStepRequests(c, e, s);
    PhaseStep(c, e, s);
    if e.starting {
      StartingStep(c, Base(c, running, e.requested), e, s);
    } else if EndsStopPhase(e, s) {
      StopCompletes(c, running, e, s);
      StartTracked(c, e, s);
    } else {
      StoppingStep(c, running, e, s);
    }
  }

  lemma StartTracked(c: Config, e: Engine, s: Step)
    requires CalmInv(c, e) && CalmStep(c, e, s) && EndsStopPhase(e, s)
    ensures Apply(c, e, s).starting && Starting(c, RunningSet(e.procs), Apply(c, e, s))
  {
    hide CalmInv, CalmStep, Apply, Inv;
    CalmFacts(c, e, s);
    StopPhaseEnds(c, e, s);
    PhaseStep(c, e, s);
    StartBegins(c, OneLess(e, s.node));
  }

  lemma {:induction false} TrackedRun(c: Config, run: seq<Engine>, steps: seq<Step>, indexes: seq<nat>, t: nat)
    requires CalmRun(c, run, steps, indexes) && c.selfTerminating == {} && 1 <= t < |run|
    ensures Tracked(c, RunningSet(run[0].procs), run[t])
  {
    hide CalmInv, Apply, Enabled, CalmStep, Tracked, StartTransition;
    assert StepAt(c, run, steps, t - 1);
    if t == 1 {
      TransitionStep(c, run[0], steps[0]);
      TransitionTracked(c, run[0], indexes);
    } else {
      TrackedRun(c, run, steps, indexes, t - 1);
      CalmRunInv(c, run, steps, indexes, t - 1);
      assert CalmStep(c, run[t - 1], steps[t - 1]);
      TrackedStep(c, RunningSet(run[0].procs), run[t - 1], steps[t - 1]);
    }
  }

  /** The end of a failure-free transition that can go no further. */
  lemma EndOfTransition(c: Config, running: set<nat>, e: Engine)
    requires CalmInv(c, e) && Tracked(c, running, e) && c.selfTerminating == {} && (e.state == Success || Hanging(e))
    ensures RunningSet(e.procs) == Final(c, running, e.requested)
    ensures e.state == Success <==> Succeeds(c, running, e.requested)
  {
    assert JobCount(e) == 0 && (e.state == Success ==> e.starting);
    hide CalmInv, JobCount, Stopping, Starting, Stoppable, Reachable, HasHead;
    if e.starting {
      var base := Base(c, running, e.requested);
      ReleasedAreRunning(c, e);
      StartOver(c, base, e);
      if e.state == Success {
        StartSucceeded(c, base, e);
      } else {
        StartHangs(c, base, e);
      }
    } else {
      StopStandstill(c, running, e);
    }
  }

  /** Without self-terminating processes, every failure-free transition that can go no further has the
      outcome that the configuration, the processes running before and the request determine: which processes run
      in the end, and whether it has succeeded or hangs. */
  lemma OutcomeIsDetermined(c: Config, run: seq<Engine>, steps: seq<Step>, indexes: seq<nat>)
    requires CalmRun(c, run, steps, indexes) && c.selfTerminating == {}
    requires forall s :: !CalmStep(c, run[|steps|], s)
    ensures var e, running, requested := run[|steps|], RunningSet(run[0].procs), Requested(c, indexes);
            && RunningSet(e.procs) == Final(c, running, requested)
            && (e.state == Success <==> Succeeds(c, running, requested))
            && (Hanging(e) <==> !Succeeds(c, running, requested))
  {
    var e := run[|steps|];
    CalmRunInv(c, run, steps, indexes, |steps|);
    TrackedRun(c, run, steps, indexes, |steps|);
    assert e.inFlight == JobCount(e) && (e.state == InTransition || e.state == Success);
    hide CalmInv, CalmStep, Tracked, Succeeds, Final;
    if e.state == InTransition && JobCount(e) > 0 {
      var s := SomeCalmStep(c, e);
    }
    EndOfTransition(c, RunningSet(run[0].procs), e);
  }
}
