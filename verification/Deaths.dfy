/** Stopping processes that may die at any time. The engine takes no notice of such an end during the stop phase, but passes over
    whoever has ended. */
module Deaths {
  import opened States
  import opened Counting
  import opened Engine
  import opened EngineInvariant
  import opened Runs
  import opened StopOrder
  import opened Calm
  import opened CalmSteps
  import opened Progress
  import opened Stalls
  import opened Hangs

  /** Any step of a stop phase that is not cancelled: work on its nodes, and the end of any process, for any reason. */
  predicate StopStep(s: Step) {
    s.Begin? || s.FinishStop? || s.Executed? || s.Ended?
  }

  /** A run of one stop phase. */
  ghost predicate StopRun(c: Config, e: Engine, run: seq<Engine>, steps: seq<Step>) {
    && IsRun(c, run, steps) && run[0] == e
    && (forall t :: 0 <= t < |steps| ==> StopStep(steps[t]))
    && forall t :: 0 <= t < |run| ==> !run[t].starting
  }

  ghost predicate CanBeStranded(c: Config, e: Engine) {
    exists run, steps :: StopRun(c, e, run, steps) && Hanging(run[|steps|])
  }

  /** Somebody has to be stopped after a process that depends on it. */
  ghost predicate StopWaits(c: Config, running: set<nat>, requested: set<nat>) {
    exists i, k :: i in running - requested && k in running && k < |c.deps| && i in c.deps[k]
  }

  // ---- A lost node strands the phase ----

  /** A worker with a job of the stop phase can go on. */
  lemma SomeStopStep(c: Config, e: Engine) returns (s: Step)
    requires Inv(c, e) && StopPart(c, e) && e.state == InTransition && !e.starting && JobCount(e) > 0
    ensures CalmStep(c, e, s) && StopStep(s)
  {
    var i := JobInFlight(c, e);
    assert e.starters == e.leaving == multiset{};
    if i in e.queued {
      s := Begin(i);
    } else if i in e.stoppers {
      s := if e.procs[i] == Terminating then Ended(i, 0) else FinishStop(i);
    } else {
      s := Executed(i);
    }
  }

  lemma PrependStop(c: Config, e: Engine, s: Step)
    requires Sized(c, e) && !e.starting && Enabled(c, e, s) && StopStep(s) && CanBeStranded(c, Apply(c, e, s))
    ensures CanBeStranded(c, e)
  {
    hide Apply, Enabled, Sized, StopStep;
    var run, steps :| StopRun(c, Apply(c, e, s), run, steps) && Hanging(run[|steps|]);
    PrependStep(c, e, s, run, steps);
    hide IsRun;
    assert StopRun(c, e, [e] + run, [s] + steps);
  }

  lemma {:induction false} LostStrands(c: Config, e: Engine, i: nat)
    requires Inv(c, e) && StopPart(c, e) && e.state == InTransition && !e.starting && StopLost(e, i)
    ensures CanBeStranded(c, e)
    decreases StepsLeft(c, e)
  {
    if JobCount(e) == 0 {
      assert StopRun(c, e, [e], []) && Hanging([e][0]);
    } else {
      var s := SomeStopStep(c, e);
      assert Sized(c, e) && Enabled(c, e, s);
      hide Inv, StopPart, CalmStep, Apply, Enabled, StepsLeft;
      StepInv(c, e, s);
      StepStop(c, e, s);
      StepNearer(c, e, s);
      StopLostStays(c, e, s, i);
      LostWaits(c, e, s, i);
      StepsLeftNotNegative(c, Apply(c, e, s));
      LostStrands(c, Apply(c, e, s), i);
      PrependStop(c, e, s);
    }
  }

  lemma LostWaits(c: Config, e: Engine, s: Step, i: nat)
    requires Inv(c, e) && !e.starting && StopLost(e, i) && CalmStep(c, e, s)
    ensures Apply(c, e, s).state == InTransition && !Apply(c, e, s).starting
  {
    WaitingStays(c, e, s, i);
  }

  /** Whoever waits may die, and then its node is lost. */
  lemma WaitingMayDie(c: Config, e: Engine, i: nat)
    requires Inv(c, e) && StopPart(c, e) && e.state == InTransition && !e.starting
    requires i in e.included && e.counters[i] > 0 && e.procs[i] == Running
    ensures CanBeStranded(c, e)
  {
    var s := Ended(i, 1);
    StepInv(c, e, s);
    StepStop(c, e, s);
    var e1 := Apply(c, e, s);
    assert StopLost(e1, i) && e1.state == InTransition && !e1.starting;
    assert Sized(c, e) && Enabled(c, e, s);
    hide Inv, StopPart, Apply, Enabled;
    LostStrands(c, e1, i);
    PrependStop(c, e, s);
  }

  // ---- Without waiting nodes nothing is lost ----

  /** No node waits. */
  ghost predicate NoneWaits(e: Engine) {
    forall i :: i in e.included && i < |e.counters| ==> e.counters[i] == 0
  }

  lemma NoneWaitsGoesOn(c: Config, e: Engine)
    requires Inv(c, e) && NoneWaits(e)
    ensures e.state == InTransition ==> e.inFlight > 0
  {
    if e.state == InTransition {
      SomeNodeLeft(c, e);
      var i :| i in e.included && i !in e.executed;
      assert Load(e, i) == 1;
    }
  }

  lemma {:induction false} NoneWaitsRun(c: Config, e: Engine, run: seq<Engine>, steps: seq<Step>, t: nat)
    requires Inv(c, e) && NoneWaits(e) && StopRun(c, e, run, steps) && t < |run|
    ensures Inv(c, run[t]) && NoneWaits(run[t])
  {
    hide Inv, Apply, Enabled, NoneWaits;
    if t > 0 {
      NoneWaitsRun(c, e, run, steps, t - 1);
      assert StepAt(c, run, steps, t - 1);
      StepInv(c, run[t - 1], steps[t - 1]);
      NoneWaitsStep(c, run[t - 1], steps[t - 1]);
    }
  }

  lemma NoneWaitsStep(c: Config, e: Engine, s: Step)
    requires Inv(c, e) && NoneWaits(e) && Enabled(c, e, s) && StopStep(s) && !e.starting && !Apply(c, e, s).starting
    ensures NoneWaits(Apply(c, e, s))
  {
    assert Sized(c, e);
    StopStepFrame(c, e, s);
    StepCountsDown(c, e, s);
    hide Inv, Apply, Enabled, Sized;
  }

  lemma StopStepFrame(c: Config, e: Engine, s: Step)
    requires Inv(c, e) && Enabled(c, e, s) && StopStep(s) && !e.starting && !Apply(c, e, s).starting
    ensures Apply(c, e, s).included == e.included && Apply(c, e, s).epoch == e.epoch
  {
    assert Sized(c, e) && (e.state == InTransition ==> e.toExecute > 0);
    hide Inv;
    if Works(s) {
      hide Apply, Enabled;
      WorkFrame(c, e, s);
    } else if s.Executed? && e.state == InTransition {
      hide NodeExecuted, QueueStartJobs, Sized;
      CompletionInPhase(c, e, s.node);
      StartJobsStart(c, OneLess(e, s.node));
    }
  }

  /** A stop phase that has begun, in whatever group, can be stranded by the death of a process exactly when somebody has to be
      stopped after a process that depends on it. */
  lemma StopStrandsExactlyWhenSomebodyWaits(c: Config, e: Engine, indexes: seq<nat>)
    requires ReadyState(c, e) && !StartTransition(c, e, indexes).starting
    ensures CanBeStranded(c, StartTransition(c, e, indexes)) <==>
            StopWaits(c, RunningSet(e.procs), Requested(c, indexes))
  {
    var running, requested := RunningSet(e.procs), Requested(c, indexes);
    var e1 := StartTransition(c, e, indexes);
    StopPhaseBegun(c, e, indexes);
    hide StartTransition, Inv, StopPart, ReadyState, CanBeStranded;
    if StopWaits(c, running, requested) {
      var i, k :| i in running - requested && k in running && k < |c.deps| && i in c.deps[k];
      CountHeldZero(c.deps, running, i, |c.deps|);
      WaitingMayDie(c, e1, i);
    } else {
      forall i | i in e1.included && i < |e1.counters| ensures e1.counters[i] == 0 {
        CountHeldZero(c.deps, running, i, |c.deps|);
      }
      NeverStranded(c, e1);
    }
  }

  lemma StopPhaseBegun(c: Config, e: Engine, indexes: seq<nat>)
    requires ReadyState(c, e) && !StartTransition(c, e, indexes).starting
    ensures var e1, running := StartTransition(c, e, indexes), RunningSet(e.procs);
            && Inv(c, e1) && Sized(c, e1) && StopPart(c, e1) && e1.state == InTransition && e1.procs == e.procs
            && e1.included == running - Requested(c, indexes) && FreshCounters(c, e1, running)
  {
    TransitionCalm(c, e, indexes);
    TransitionShape(c, e, indexes);
    var e0 := e.(state := InTransition, requested := Requested(c, indexes));
    InvOfCalm(c, StartTransition(c, e, indexes));
    hide StartTransition, QueueHeadNodes, QueueStartJobs, ReadyState, Settled, JobCount, FreshCounters, Inv, StopPart;
    StopPhaseNodes(c, e0);
    StartPhaseNodes(c, QueueHeadNodes(c, e0, false));
  }

  lemma NeverStranded(c: Config, e: Engine)
    requires Inv(c, e) && NoneWaits(e)
    ensures !CanBeStranded(c, e)
  {
    hide Inv, NoneWaits;
    forall run: seq<Engine>, steps: seq<Step> | StopRun(c, e, run, steps) ensures !Hanging(run[|steps|]) {
      NoneWaitsRun(c, e, run, steps, |steps|);
      NoneWaitsGoesOn(c, run[|steps|]);
    }
  }
}
