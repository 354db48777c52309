/** A failure-free transition over acyclic, closed dependencies never gets stuck, ends, and ends
    with exactly the requested processes running. */
module Progress {
  import opened States
  import opened Counting
  import opened Acyclicity
  import opened Engine
  import opened EngineInvariant
  import opened Runs
  import opened StopOrder
  import opened StartOrder
  import opened Calm
  import opened CalmSteps

  // ---- A job in flight can always go on ----

  lemma JobInFlight(c: Config, e: Engine) returns (i: nat)
    requires Inv(c, e) && JobCount(e) > 0
    ensures Load(e, i) == 1 && i in e.included && i < |c.deps|
  {
    if |e.queued| > 0 {
      i :| i in e.queued;
    } else if |e.starters| > 0 {
      i :| i in e.starters;
    } else if |e.leaving| > 0 {
      i :| i in e.leaving;
    } else if |e.stoppers| > 0 {
      i :| i in e.stoppers;
    } else {
      i :| i in e.done;
    }
    assert Load(e, i) >= 1;
  }

  lemma StarterGoesOn(c: Config, e: Engine, i: nat)
    requires CalmInv(c, e) && e.state == InTransition && i in e.starters && i < |c.deps|
    ensures CalmStep(c, e, if e.procs[i] == Starting then ReportRunning(i) else ReportEnded(i))
  {
    assert e.starting;
  }

  lemma StopperGoesOn(c: Config, e: Engine, i: nat)
    requires CalmInv(c, e) && e.state == InTransition && i in e.stoppers && i < |c.deps|
    ensures CalmStep(c, e, if e.procs[i] == Terminating then Ended(i, 0) else FinishStop(i))
  {
    assert !e.starting;
  }

  lemma QueuedGoesOn(c: Config, e: Engine, i: nat)
    requires e.state == InTransition && i in e.queued && i < |e.procs|
    ensures CalmStep(c, e, Begin(i))
  {
  }

  lemma LeavingGoesOn(c: Config, e: Engine, i: nat)
    requires e.state == InTransition && i in e.leaving
    ensures CalmStep(c, e, LeaveStart(i))
  {
  }

  lemma DoneGoesOn(c: Config, e: Engine, i: nat)
    requires e.state == InTransition && i in e.done
    ensures CalmStep(c, e, Executed(i))
  {
  }

  /** Any job in flight allows a step of a failure-free run. */
  lemma SomeCalmStep(c: Config, e: Engine) returns (s: Step)
    requires CalmInv(c, e) && e.state == InTransition && JobCount(e) > 0
    ensures CalmStep(c, e, s)
  {
    var i := JobInFlight(c, e);
    assert Sized(c, e);
    hide CalmInv, CalmStep, Enabled;
    if i in e.queued {
      QueuedGoesOn(c, e, i);
      s := Begin(i);
    } else if i in e.starters {
      StarterGoesOn(c, e, i);
      s := if e.procs[i] == Starting then ReportRunning(i) else ReportEnded(i);
    } else if i in e.leaving {
      LeavingGoesOn(c, e, i);
      s := LeaveStart(i);
    } else if i in e.stoppers {
      StopperGoesOn(c, e, i);
      s := if e.procs[i] == Terminating then Ended(i, 0) else FinishStop(i);
    } else {
      DoneGoesOn(c, e, i);
      s := Executed(i);
    }
  }

  /** No process that may end on its own is waiting to be stopped, and no process that may be overlooked is
      yet to be started together with one that depends on it. */
  ghost predicate NoneExposed(c: Config, e: Engine) {
    if e.starting then
      forall i, d :: i in e.included && i < |c.deps| && d in c.deps[i] && d in e.included && d !in e.released ==>
        !Quick(c, d)
    else
      forall i :: i in e.included && i < |e.counters| && e.counters[i] > 0 ==> i !in c.selfTerminating
  }

  lemma SomeNodeLeft(c: Config, e: Engine)
    requires Inv(c, e) && e.state == InTransition
    ensures !(e.included <= e.executed)
  {
    assert e.included == (e.included - e.executed) + e.executed;
    var x :| x in e.included - e.executed;
  }

  /** While such a transition is going on, some job is in flight. */
  lemma JobAlwaysInFlight(c: Config, e: Engine)
    requires CalmInv(c, e) && e.state == InTransition && Startable(c, e.requested) && NoneExposed(c, e)
    ensures JobCount(e) > 0
  {
    SomeNodeLeft(c, e);
    if JobCount(e) == 0 {
      var rank := AcyclicRanked(c.deps);
      if e.starting {
        NoStartLost(c, e);
        StartStuck(c, e, rank);
      } else {
        StopStuck(c, e, rank);
      }
    }
  }

  lemma NoStartLost(c: Config, e: Engine)
    requires CalmInv(c, e) && e.starting && NoneExposed(c, e) && Closed(c, e.requested)
    ensures forall i: nat :: !StartLost(c, e, i)
  {
  }

  // ---- Every step brings the end nearer ----

  function Alive(p: ProcessState): nat {
    if p == Idle || p == Terminated then 0 else 1
  }

  function AliveCount(procs: seq<ProcessState>): nat {
    if procs == [] then 0 else Alive(procs[0]) + AliveCount(procs[1..])
  }

  lemma {:induction false} AliveUpdate(procs: seq<ProcessState>, i: nat, p: ProcessState)
    requires i < |procs|
    ensures AliveCount(procs[i := p]) == AliveCount(procs) - Alive(procs[i]) + Alive(p)
  {
    if i == 0 {
      assert procs[i := p][1..] == procs[1..];
    } else {
      assert procs[i := p][1..] == procs[1..][i - 1 := p];
      AliveUpdate(procs[1..], i - 1, p);
    }
  }

  /** The jobs in flight are distinct nodes that are not yet executed. */
  lemma JobsFit(c: Config, e: Engine)
    requires Inv(c, e)
    ensures JobCount(e) <= |e.included - e.executed|
  {
    var m := e.queued + e.starters + e.leaving + e.stoppers + e.done;
    assert forall i: nat :: m[i] == Load(e, i);
    DistinctFits(m, e.included - e.executed);
  }

  /** An upper bound on the number of steps a failure-free transition can still take. A waiting node weighs six,
      and less in each later stage; a live process weighs one; the stop phase weighs as much as a whole
      start phase on top. */
  function StepsLeft(c: Config, e: Engine): int {
    if e.state != InTransition then 0
    else
      (if e.starting then 0 else 6 * |c.deps| + 1)
      + 6 * (e.toExecute - e.inFlight)
      + 5 * |e.queued| + 3 * |e.starters| + 2 * |e.leaving| + 2 * |e.stoppers| + |e.done|
      + AliveCount(e.procs)
  }

  lemma StepsLeftPositive(c: Config, e: Engine)
    requires Inv(c, e) && e.state == InTransition
    ensures StepsLeft(c, e) > 0
  {
    JobsFit(c, e);
    assert |e.included - e.executed| == |e.included| - |e.executed| by {
      assert e.included == (e.included - e.executed) + e.executed;
    }
  }

  lemma BeginNearer(c: Config, e: Engine, i: nat)
    requires e.state == InTransition && i in e.queued && i < |e.procs|
    ensures StepsLeft(c, BeginWork(e, i)) < StepsLeft(c, e)
  {
    AliveUpdate(e.procs, i, Starting);
    AliveUpdate(e.procs, i, Terminating);
  }

  lemma LowerNearer(c: Config, e: Engine, amounts: seq<nat>)
    requires |amounts| == |e.counters| && e.state == InTransition
    ensures StepsLeft(c, Lower(e, amounts)) <= StepsLeft(c, e)
  {
  }

  lemma ReportNearer(c: Config, e: Engine, e0: Engine, i: nat)
    requires Sized(c, e) && e.state == InTransition && i in e.starters && i < |e.procs| && Sized(c, e0)
    requires e0 == e.(procs := e0.procs) && AliveCount(e0.procs) <= AliveCount(e.procs)
    ensures StepsLeft(c, AttemptOver(ReleaseDependents(c, e0, i), i)) < StepsLeft(c, e)
  {
    var amounts := StartAmounts(c, e0, i);
    LowerNearer(c, e0, amounts);
    var e1 := Lower(e0, amounts);
    assert e1.starters == e.starters && e1.leaving == e.leaving;
  }

  lemma FinishStopNearer(c: Config, e: Engine, i: nat)
    requires Sized(c, e) && e.state == InTransition && i in e.stoppers && i < |e.procs|
    ensures StepsLeft(c, StopOver(ReleaseDependencies(c, e, i), i)) < StepsLeft(c, e)
  {
    var amounts := StopAmounts(c, e, i);
    LowerNearer(c, e, amounts);
    var e1 := Lower(e, amounts);
    assert e1.stoppers == e.stoppers && e1.done == e.done;
  }

  lemma EndedNearer(c: Config, e: Engine, i: nat, status: int)
    requires PhaseJobs(e) && CalmStep(c, e, Ended(i, status))
    ensures StepsLeft(c, ProcessEnded(c, e, i, status)) < StepsLeft(c, e)
  {
    assert e.starting ==> e.stoppers == multiset{};
    AliveUpdate(e.procs, i, Terminated);
  }

  lemma StartPhaseWeight(c: Config, e: Engine)
    requires Sized(c, e) && e.state == InTransition && JobCount(e) == 0
    ensures StepsLeft(c, QueueStartJobs(c, e)) <= 6 * |c.deps| + AliveCount(e.procs)
  {
    var e1 := QueueHeadNodes(c, e, true);
    var heads := Heads(e1.included, e1.counters);
    assert e1.queued == multiset(heads);
    assert e1.included <= Below(|c.deps|);
    SubsetSize(e1.included, Below(|c.deps|));
  }

  lemma SubsetSize(a: set<nat>, b: set<nat>)
    requires a <= b
    ensures |a| <= |b|
  {
    assert b == a + (b - a);
  }

  lemma ExecutedNearer(c: Config, e: Engine, i: nat)
    requires Inv(c, e) && e.state == InTransition && i in e.done
    ensures StepsLeft(c, NodeExecuted(c, e.(done := e.done - multiset{i}), i)) < StepsLeft(c, e)
  {
    StepsLeftPositive(c, e);
    var e1 := OneLess(e, i);
    ExecutedInTransition(c, e, i);
    if e1.toExecute == 0 && !e.starting {
      AllExecuted(c, e1);
      StartPhaseWeight(c, e1);
    }
  }

  lemma StepsLeftNotNegative(c: Config, e: Engine)
    requires Inv(c, e)
    ensures StepsLeft(c, e) >= 0
  {
    if e.state == InTransition {
      StepsLeftPositive(c, e);
    }
  }

  lemma ReportRunningNearer(c: Config, e: Engine, i: nat)
    requires Sized(c, e) && e.state == InTransition && Enabled(c, e, ReportRunning(i))
    ensures StepsLeft(c, AttemptOver(ReleaseDependents(c, e.(procs := e.procs[i := Running]), i), i)) < StepsLeft(c, e)
  {
    AliveUpdate(e.procs, i, Running);
    ReportNearer(c, e, e.(procs := e.procs[i := Running]), i);
  }

  lemma AttemptOverNearer(c: Config, e: Engine, i: nat)
    requires e.state == InTransition && i in e.starters
    ensures StepsLeft(c, AttemptOver(e, i)) < StepsLeft(c, e)
  {
  }

  lemma LeaveStartNearer(c: Config, e: Engine, i: nat)
    requires e.state == InTransition && i in e.leaving
    ensures StepsLeft(c, e.(leaving := e.leaving - multiset{i}, done := e.done + multiset{i})) < StepsLeft(c, e)
  {
  }

  /** Every step of a failure-free transition brings the end nearer. */
  lemma StepNearer(c: Config, e: Engine, s: Step)
    requires Inv(c, e) && CalmStep(c, e, s)
    ensures StepsLeft(c, Apply(c, e, s)) < StepsLeft(c, e)
  {
    assert Sized(c, e) && PhaseJobs(e);
    hide StepsLeft, Inv, PhaseJobs, CalmStart, CalmStop, NodeExecuted, ReleaseDependents, ReleaseDependencies, BeginWork,
         ProcessEnded, AttemptOver, StopOver;
    match s
    case Begin(i) => BeginNearer(c, e, i);
    case ReportRunning(i) => ReportRunningNearer(c, e, i);
    case ReportEnded(i) => ReportNearer(c, e, e, i);
    case GiveUp(i) => AttemptOverNearer(c, e, i);
    case LeaveStart(i) => LeaveStartNearer(c, e, i);
    case FinishStop(i) => FinishStopNearer(c, e, i);
    case Executed(i) => ExecutedNearer(c, e, i);
    case Ended(i, status) => EndedNearer(c, e, i, status);
  }

  lemma InvOfCalm(c: Config, e: Engine)
    requires CalmInv(c, e)
    ensures Inv(c, e)
  {
  }

  lemma CalmFacts(c: Config, e: Engine, s: Step)
    requires CalmInv(c, e) && CalmStep(c, e, s)
    ensures Inv(c, e) && Sized(c, e) && e.state == InTransition && Enabled(c, e, s)
    ensures s.FinishStop? ==> s.node in e.stoppers
    ensures s.ReportRunning? || s.ReportEnded? ==> s.node in e.starters && s.node < |c.deps|
  {
    hide OnceEach, CalmStart, CalmStop, StopPart, StartPart;
  }

  // ---- Whole transitions ----

  /** A group that is ready for a transition: not in one, with every process idle, running or terminated. */
  ghost predicate ReadyState(c: Config, e: Engine) {
    && Inv(c, e) && StartingNotFailed(e) && Settled(e)
    && (e.state == Success || e.state == Undefined)
  }

  /** A failure-free run of one transition to the state whose processes are `indexes`. */
  ghost predicate CalmRun(c: Config, run: seq<Engine>, steps: seq<Step>, indexes: seq<nat>) {
    && IsRun(c, run, steps)
    && ReadyState(c, run[0])
    && |steps| > 0 && steps[0] == Transition(indexes)
    && (forall t :: 1 <= t < |steps| ==> CalmStep(c, run[t], steps[t]))
  }

  function Requested(c: Config, indexes: seq<nat>): set<nat> {
    set i | i in indexes && i < |c.deps|
  }

  lemma TransitionRequests(c: Config, e: Engine, indexes: seq<nat>)
    requires Sized(c, e) && (e.state == Success || e.state == Undefined)
    ensures StartTransition(c, e, indexes).requested == Requested(c, indexes)
  {
  }

  lemma CalmStepRequests(c: Config, e: Engine, s: Step)
    requires Sized(c, e) && CalmStep(c, e, s)
    ensures Apply(c, e, s).requested == e.requested
  {
  }

  lemma {:induction false} CalmRunInv(c: Config, run: seq<Engine>, steps: seq<Step>, indexes: seq<nat>, t: nat)
    requires CalmRun(c, run, steps, indexes) && 1 <= t < |run|
    ensures CalmInv(c, run[t]) && run[t].requested == Requested(c, indexes)
    ensures 0 <= StepsLeft(c, run[t]) <= StepsLeft(c, run[1]) - (t - 1)
  {
    hide CalmInv, Apply, Enabled, CalmStep, StepsLeft, Inv;
    assert StepAt(c, run, steps, t - 1);
    if t == 1 {
      TransitionCalmStep(c, run[0], steps[0]);
    } else {
      CalmRunInv(c, run, steps, indexes, t - 1);
      assert CalmStep(c, run[t - 1], steps[t - 1]);
      StepCalm(c, run[t - 1], steps[t - 1]);
      CalmFacts(c, run[t - 1], steps[t - 1]);
      StepNearer(c, run[t - 1], steps[t - 1]);
      CalmStepRequests(c, run[t - 1], steps[t - 1]);
    }
    InvOfCalm(c, run[t]);
    StepsLeftNotNegative(c, run[t]);
  }

  lemma TransitionCalmStep(c: Config, e: Engine, s: Step)
    requires ReadyState(c, e) && s.Transition?
    ensures Enabled(c, e, s)
    ensures CalmInv(c, Apply(c, e, s)) && Apply(c, e, s).requested == Requested(c, s.indexes)
  {
    hide StartTransition;
    TransitionCalm(c, e, s.indexes);
    TransitionRequests(c, e, s.indexes);
  }

  lemma AliveFits(procs: seq<ProcessState>)
    ensures AliveCount(procs) <= |procs|
  {
  }

  lemma StepsLeftBound(c: Config, e: Engine)
    requires CalmInv(c, e)
    ensures StepsLeft(c, e) <= 13 * |c.deps| + 1
  {
    AliveFits(e.procs);
    assert e.included <= Below(|c.deps|);
    SubsetSize(e.included, Below(|c.deps|));
  }

  /** No failure-free transition takes more than thirteen steps per process, and two, whatever the dependencies
      are. */
  lemma CalmRunIsShort(c: Config, run: seq<Engine>, steps: seq<Step>, indexes: seq<nat>)
    requires CalmRun(c, run, steps, indexes)
    ensures |steps| <= 13 * |c.deps| + 2
  {
    CalmRunInv(c, run, steps, indexes, 1);
    CalmRunInv(c, run, steps, indexes, |steps|);
    StepsLeftBound(c, run[1]);
  }

  // ---- What success means over acyclic, closed dependencies ----

  /** Whoever is not requested is idle or terminated. */
  ghost predicate Tidy(c: Config, e: Engine) {
    forall k: nat :: k < |c.deps| && k < |e.procs| && k !in e.requested ==> e.procs[k] == Idle || e.procs[k] == Terminated
  }

  /** A start phase that begins tidy stays so. */
  lemma TidyStays(c: Config, e: Engine, s: Step)
    requires CalmInv(c, e) && CalmStep(c, e, s) && e.starting && Tidy(c, e)
    ensures Tidy(c, Apply(c, e, s))
  {
    StepProcs(c, e, s);
    CalmStepRequests(c, e, s);
    if s.Begin? {
      QueuedFacts(c, e, s.node);
    } else if s.ReportRunning? {
      StarterFacts(c, e, s.node);
    }
    assert Inv(c, e);
    hide Apply, Inv, StopPart, StartPart;
  }

  /** The last stop node completes. */
  predicate EndsStopPhase(e: Engine, s: Step) {
    s.Executed? && !e.starting && e.toExecute == 1
  }

  /** A calm step begins the start phase or goes on in its phase. */
  lemma PhaseStep(c: Config, e: Engine, s: Step)
    requires Inv(c, e) && CalmStep(c, e, s)
    ensures EndsStopPhase(e, s) ==> Apply(c, e, s) == QueueStartJobs(c, OneLess(e, s.node))
    ensures var e1 := Apply(c, e, s);
            !EndsStopPhase(e, s) ==>
              && e1.starting == e.starting && e1.included == e.included && e1.requested == e.requested
              && e1.released == NextReleased(e, s) && e1.holding == NextHolding(e, s) && e1.epoch == e.epoch
              && (e1.state == InTransition || (e.starting && s.Executed? && e.toExecute == 1))
  {
    assert Sized(c, e) && e.toExecute > 0 && PhaseJobs(e);
    hide Inv, PhaseJobs;
    if Works(s) {
      hide Apply, Enabled;
      WorkFrame(c, e, s);
    } else if s.Executed? {
      hide NodeExecuted, QueueStartJobs;
      CompletionInPhase(c, e, s.node);
    } else {
      EndInPhase(c, e, s.node, s.status);
    }
  }

  lemma EndInPhase(c: Config, e: Engine, i: nat, status: int)
    requires PhaseJobs(e) && CalmStep(c, e, Ended(i, status))
    ensures var e1 := ProcessEnded(c, e, i, status); e1 == e.(procs := e1.procs, failed := e1.failed)
  {
    assert e.starting ==> e.stoppers == multiset{};
  }

  /** When the stop phase is complete, every process is idle, running or terminated, and only requested ones are
      running. */
  lemma StopPhaseEnds(c: Config, e: Engine, s: Step)
    requires CalmInv(c, e) && CalmStep(c, e, s) && EndsStopPhase(e, s)
    ensures var e1 := OneLess(e, s.node);
            Sized(c, e1) && Settled(e1) && Tidy(c, e1) && JobCount(e1) == 0 && e1.executed == e1.included && CalmStop(c, e1)
  {
    var e1 := OneLess(e, s.node);
    ExecutedInTransition(c, e, s.node);
    AllExecuted(c, e1);
    CalmStopExecuted(c, e, s.node);
    AllStopped(c, e1);
  }

  /** So does one that follows a complete stop phase. */
  lemma TidyAfterStop(c: Config, e: Engine, s: Step)
    requires CalmInv(c, e) && CalmStep(c, e, s) && EndsStopPhase(e, s)
    ensures Tidy(c, Apply(c, e, s))
  {
    StepProcs(c, e, s);
    CalmStepRequests(c, e, s);
    StopPhaseEnds(c, e, s);
    hide Apply, CalmInv, CalmStep;
  }

  /** A node that cannot begin waits for another such node. */
  lemma UnreadyWaitsFor(c: Config, e: Engine, i: nat) returns (d: nat)
    requires Sized(c, e) && CalmStart(c, e) && NoneReady(e) && Closed(c, e.requested) && i in e.included
    ensures d in c.deps[i] && d in e.included
  {
    CountOutsideZero(c.deps[i], e.released);
    d :| d in c.deps[i] && d !in e.released;
  }

  /** Over acyclic, closed dependencies a phase in which no node can begin has no node. */
  lemma NoneReadyNoNodes(c: Config, e: Engine)
    requires Sized(c, e) && CalmStart(c, e) && NoneReady(e) && Startable(c, e.requested)
    ensures e.included == {}
  {
    if e.included != {} {
      var rank := AcyclicRanked(c.deps);
      var i := Lowest(e.included, rank);
      var d := UnreadyWaitsFor(c, e, i);
    }
  }

  /** Over acyclic, closed dependencies a stop phase is skipped only when nothing has to be stopped. */
  lemma SkippedStopIsEmpty(c: Config, e: Engine)
    requires Sized(c, e) && Settled(e) && JobCount(e) == 0 && e.state == InTransition && Startable(c, e.requested)
    requires QueueHeadNodes(c, e, false).inFlight <= 0
    ensures QueueHeadNodes(c, e, false).included == {} && Tidy(c, e)
  {
    var e1 := QueueHeadNodes(c, e, false);
    QueueHeadNodesInv(c, e, false);
    CalmStopBegins(c, e);
    var rank := AcyclicRanked(c.deps);
    StopStuck(c, e1, rank);
  }

  lemma TransitionTidy(c: Config, e: Engine, indexes: seq<nat>)
    requires ReadyState(c, e) && Startable(c, Requested(c, indexes))
    ensures var e1 := StartTransition(c, e, indexes); e1.starting ==> Tidy(c, e1)
  {
    var e0 := e.(state := InTransition, requested := Requested(c, indexes));
    assert JobCount(e0) == 0;
    TransitionProcs(c, e, indexes);
    TransitionRequests(c, e, indexes);
    if QueueHeadNodes(c, e0, false).inFlight <= 0 {
      SkippedStopIsEmpty(c, e0);
    }
  }

  lemma {:induction false} CalmRunTidy(c: Config, run: seq<Engine>, steps: seq<Step>, indexes: seq<nat>, t: nat)
    requires CalmRun(c, run, steps, indexes) && Startable(c, Requested(c, indexes)) && 1 <= t < |run|
    ensures run[t].starting ==> Tidy(c, run[t])
  {
    hide CalmInv, Apply, Enabled, CalmStep, Startable, Tidy, StartTransition;
    assert StepAt(c, run, steps, t - 1);
    if t == 1 {
      TransitionStep(c, run[0], steps[0]);
      TransitionTidy(c, run[0], indexes);
    } else {
      CalmRunTidy(c, run, steps, indexes, t - 1);
      CalmRunInv(c, run, steps, indexes, t - 1);
      assert CalmStep(c, run[t - 1], steps[t - 1]);
      TidyStep(c, run[t - 1], steps[t - 1]);
    }
  }

  lemma TransitionStep(c: Config, e: Engine, s: Step)
    requires Sized(c, e) && s.Transition? && Enabled(c, e, s)
    ensures Apply(c, e, s) == StartTransition(c, e, s.indexes)
  {
  }

  lemma TidyStep(c: Config, e: Engine, s: Step)
    requires CalmInv(c, e) && CalmStep(c, e, s) && (e.starting ==> Tidy(c, e))
    ensures Apply(c, e, s).starting ==> Tidy(c, Apply(c, e, s))
  {
    assert Inv(c, e);
    hide CalmInv, Apply, CalmStep, Tidy;
    PhaseStep(c, e, s);
    if e.starting {
      TidyStays(c, e, s);
    } else if EndsStopPhase(e, s) {
      TidyAfterStop(c, e, s);
    }
  }

  lemma SuccessMeansRequested(c: Config, e: Engine)
    requires CalmInv(c, e) && e.state == Success && Startable(c, e.requested) && Tidy(c, e)
    ensures e.requested - c.selfTerminating <= RunningSet(e.procs) <= e.requested
    ensures ReadyState(c, e)
  {
    if NoneReady(e) {
      NoneReadyNoNodes(c, e);
    }
    forall k: nat | k in e.requested
      ensures e.procs[k] == Running || (e.procs[k] == Terminated && k in c.selfTerminating)
    {
      if k in e.included {
        assert Over(e, k);
      }
      assert k in e.released ==> RanWell(c, e, k);
    }
  }

  /** A failure-free transition over acyclic, closed dependencies that succeeds leaves the requested processes running, except
      that a self-terminating one may have ended, and every other one idle or terminated; it announces success,
      and leaves the group ready for the next transition. */
  lemma CalmRunReachesRequest(c: Config, run: seq<Engine>, steps: seq<Step>, indexes: seq<nat>)
    requires CalmRun(c, run, steps, indexes) && Startable(c, Requested(c, indexes))
    requires run[|steps|].state == Success
    ensures Requested(c, indexes) - c.selfTerminating <= RunningSet(run[|steps|].procs) <= Requested(c, indexes)
    ensures c.selfTerminating == {} ==> RunningSet(run[|steps|].procs) == Requested(c, indexes)
    ensures forall i :: 0 <= i < |c.deps| && i !in RunningSet(run[|steps|].procs) ==>
              run[|steps|].procs[i] == Idle || run[|steps|].procs[i] == Terminated
    ensures run[|steps|].event == SetStateSuccess
    ensures ReadyState(c, run[|steps|])
  {
    CalmRunInv(c, run, steps, indexes, |steps|);
    CalmRunTidy(c, run, steps, indexes, |steps|);
    SuccessMeansRequested(c, run[|steps|]);
  }

  /** The transition to the off state leaves nothing running. */
  lemma OffStateStopsEverything(c: Config, run: seq<Engine>, steps: seq<Step>)
    requires CalmRun(c, run, steps, []) && ValidConfig(c) && Acyclic(c.deps)
    requires run[|steps|].state == Success
    ensures forall i :: 0 <= i < |c.deps| ==> run[|steps|].procs[i] == Idle || run[|steps|].procs[i] == Terminated
  {
    assert Requested(c, []) == {};
    CalmRunReachesRequest(c, run, steps, []);
  }
}
