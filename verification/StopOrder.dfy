/** The order in which processes are stopped: dependents first. */
module StopOrder {
  import opened States
  import opened Counting
  import opened Engine
  import opened EngineInvariant
  import opened Runs

  /** Every process is idle, running or terminated. */
  ghost predicate Settled(e: Engine) {
    forall i :: 0 <= i < |e.procs| ==> e.procs[i] == Idle || e.procs[i] == Running || e.procs[i] == Terminated
  }

  /** Nodes that have not yet let their dependencies go are still counted by them. */
  ghost predicate Held(c: Config, e: Engine)
    requires Sized(c, e)
  {
    forall i: nat :: i in e.included ==> e.counters[i] >= CountHeld(c.deps, e.holding, i, |c.deps|)
  }

  ghost predicate Holders(c: Config, e: Engine)
    requires Sized(c, e)
  {
    && (forall k: nat :: k in e.queued || k in e.stoppers ==> k in e.holding)
    && (forall k: nat :: e.state == InTransition && k in e.included && e.counters[k] > 0 ==> k in e.holding)
    && (forall k: nat :: k in e.stoppers ==> k < |c.deps| && (e.procs[k] == Terminating || e.procs[k] == Terminated))
    && (forall k: nat :: k < |c.deps| && e.procs[k] == Running ==> k in e.holding)
  }

  /** What the stop phase keeps. */
  ghost predicate StopPart(c: Config, e: Engine)
    requires Sized(c, e)
  {
    !e.starting ==> Held(c, e) && Holders(c, e)
  }

  lemma StopPhaseBegins(c: Config, e: Engine)
    requires Sized(c, e) && Settled(e) && JobCount(e) == 0
    ensures var e1 := QueueHeadNodes(c, e, false); Sized(c, e1) && Held(c, e1) && Holders(c, e1)
  {
    assert e.queued == e.stoppers == multiset{};
  }

  lemma StopTransition(c: Config, e: Engine, indexes: seq<nat>)
    requires Sized(c, e) && Settled(e) && JobCount(e) == 0
    requires e.state == Success || e.state == Undefined
    ensures var e1 := StartTransition(c, e, indexes); Sized(c, e1) && StopPart(c, e1)
  {
    hide QueueHeadNodes, QueueStartJobs, Held, Holders, Settled, JobCount;
    var e0 := e.(state := InTransition, requested := set i | i in indexes && i < |c.deps|);
    SettledFrame(e, e0);
    StopPhaseBegins(c, e0);
    var e1 := QueueHeadNodes(c, e0, false);
    StartJobsStart(c, e1);
  }

  lemma SettledFrame(e: Engine, e0: Engine)
    requires e0 == e.(state := e0.state, requested := e0.requested)
    ensures Settled(e0) == Settled(e) && JobCount(e0) == JobCount(e)
  {
  }

  lemma StartJobsStart(c: Config, e: Engine)
    requires Sized(c, e)
    ensures var e1 := QueueStartJobs(c, e); Sized(c, e1) && e1.starting
  {
  }

  lemma StopBegin(c: Config, e: Engine, i: nat)
    requires Sized(c, e) && StopPart(c, e) && i in e.queued && i < |e.procs|
    ensures StopPart(c, BeginWork(e, i))
  {
    var e1 := BeginWork(e, i);
    if !e.starting {
      assert forall k: nat :: k in e1.queued || k in e1.stoppers ==> k in e.queued || k in e.stoppers;
      assert forall k: nat :: k < |c.deps| && k != i ==> e1.procs[k] == e.procs[k];
    }
  }

  /** Letting the dependencies of `i` go keeps every counter at or above what is still held. */
  lemma StopFinishHeld(c: Config, e: Engine, i: nat)
    requires Sized(c, e) && Held(c, e) && i in e.holding && i < |c.deps|
    ensures Held(c, ReleaseDependencies(c, e, i))
  {
    var e1 := ReleaseDependencies(c, e, i);
    forall k: nat | k in e1.included
      ensures e1.counters[k] >= CountHeld(c.deps, e1.holding, k, |c.deps|)
    {
      CountHeldRemove(c.deps, e.holding, k, i, |c.deps|);
    }
  }

  lemma StopFinish(c: Config, e: Engine, i: nat)
    requires Sized(c, e) && StopPart(c, e) && !e.starting && i in e.stoppers && i < |e.procs|
    requires e.queued[i] + e.stoppers[i] <= 1
    requires e.state == InTransition && i in e.included ==> e.counters[i] == 0
    ensures StopPart(c, StopOver(ReleaseDependencies(c, e, i), i))
  {
    StopFinishHeld(c, e, i);
    StopFinishHolders(c, e, i);
    assert Held(c, StopOver(ReleaseDependencies(c, e, i), i));
  }

  /** What letting the dependencies of `i` go does, apart from the counts. */
  lemma ReleaseEffect(c: Config, e: Engine, i: nat)
    requires Sized(c, e) && i < |c.deps|
    ensures var e1 := ReleaseDependencies(c, e, i);
            && e1 == e.(counters := e1.counters, queued := e1.queued, inFlight := e1.inFlight, holding := e.holding - {i})
            && |e1.counters| == |e.counters|
            && (forall k: nat :: k < |c.deps| ==> e1.counters[k] <= e.counters[k])
            && (forall k: nat :: k in e1.queued && k !in e.queued ==>
                  e.state == InTransition && k in e.included && e.counters[k] > 0)
    ensures e.state == InTransition && i in e.included && e.counters[i] == 0 ==>
              ReleaseDependencies(c, e, i).queued[i] == e.queued[i]
    ensures e.state != InTransition || i !in e.included ==> ReleaseDependencies(c, e, i).queued[i] == e.queued[i]
  {
    hide Count;
    var ready := Ready(e.counters, StopAmounts(c, e, i));
    assert forall k: nat :: k in ready ==> k in e.included && e.counters[k] > 0;
  }

  lemma StopFinishHolders(c: Config, e: Engine, i: nat)
    requires Sized(c, e) && Holders(c, e) && i in e.stoppers && i < |e.procs|
    requires e.queued[i] + e.stoppers[i] <= 1
    requires e.state == InTransition && i in e.included ==> e.counters[i] == 0
    ensures Holders(c, StopOver(ReleaseDependencies(c, e, i), i))
  {
    hide ReleaseDependencies;
    ReleaseEffect(c, e, i);
    var e2 := StopOver(ReleaseDependencies(c, e, i), i);
    assert e2.queued[i] == 0 && e2.stoppers[i] == 0;
    assert forall k: nat :: k in e2.queued || k in e2.stoppers ==> k in e2.holding;
  }

  /** Steps that only count or change the graph's state. */
  lemma StopFrame(c: Config, e: Engine, e1: Engine)
    requires Sized(c, e) && StopPart(c, e)
    requires e1.starting == e.starting && e1.included == e.included && e1.counters == e.counters
    requires e1.holding == e.holding && e1.queued == e.queued && e1.stoppers == e.stoppers && e1.procs == e.procs
    requires e1.requested == e.requested
    requires e1.state == InTransition ==> e.state == InTransition
    ensures Sized(c, e1) && StopPart(c, e1)
  {
  }

  lemma StopExecuted(c: Config, e: Engine, i: nat)
    requires Sized(c, e) && StopPart(c, e)
    ensures var e1 := NodeExecuted(c, e.(done := e.done - multiset{i}), i); Sized(c, e1) && StopPart(c, e1)
  {
    hide QueueStartJobs, StopPart;
    var e0 := e.(done := e.done - multiset{i});
    StopFrame(c, e, e0);
    var e1 := NodeExecuted(c, e0, i);
    if e.state == InTransition && e.toExecute == 1 && !e.starting {
      var e2 := e0.(inFlight := e.inFlight - 1, toExecute := 0, executed := e.executed + {i});
      StartJobsStart(c, e2);
      StartingStopPart(c, e1);
    } else {
      StopFrame(c, e0, e1);
    }
  }

  lemma StartingStopPart(c: Config, e: Engine)
    requires Sized(c, e) && e.starting
    ensures StopPart(c, e)
  {
  }

  lemma StopEnded(c: Config, e: Engine, i: nat, status: int)
    requires Sized(c, e) && StopPart(c, e) && i < |e.procs|
    ensures StopPart(c, ProcessEnded(c, e, i, status))
  {
  }

  lemma StopCancel(c: Config, e: Engine)
    requires Sized(c, e) && StopPart(c, e)
    ensures StopPart(c, Cancel(e))
  {
    StopFrame(c, e, Cancel(e));
  }

  /** Once starting, an engine keeps starting until the next transition. */
  lemma StartingStays(c: Config, e: Engine, s: Step)
    requires Sized(c, e) && Enabled(c, e, s) && !s.Transition?
    requires e.starting
    ensures Apply(c, e, s).starting
  {
  }

  /** Outside the start phase no worker is starting a process. */
  lemma StopPhaseSteps(c: Config, e: Engine, s: Step)
    requires Inv(c, e) && Enabled(c, e, s) && !e.starting
    ensures s.Transition? || s.Begin? || s.FinishStop? || s.Executed? || s.Ended? || s.CancelRequest?
  {
    assert e.starters == e.leaving == multiset{};
  }

  /** Every step keeps what the stop phase keeps; a transition does so from a settled state. */
  lemma StepStop(c: Config, e: Engine, s: Step)
    requires Inv(c, e) && StopPart(c, e) && Enabled(c, e, s)
    requires s.Transition? ==> Settled(e)
    ensures Sized(c, Apply(c, e, s)) && StopPart(c, Apply(c, e, s))
  {
    StepInv(c, e, s);
    if s.Transition? {
      StopTransition(c, e, s.indexes);
    } else if e.starting {
      StartingStays(c, e, s);
    } else {
      StopPhaseSteps(c, e, s);
      match s
      case Begin(i) => StopBegin(c, e, i);
      case FinishStop(i) => StopFinishStep(c, e, i);
      case Executed(i) => StopExecuted(c, e, i);
      case Ended(i, status) => StopEnded(c, e, i, status);
      case CancelRequest => StopCancel(c, e);
    }
  }

  lemma StopFinishStep(c: Config, e: Engine, i: nat)
    requires Inv(c, e) && StopPart(c, e) && !e.starting && i in e.stoppers && i < |e.procs|
    ensures StopPart(c, StopOver(ReleaseDependencies(c, e, i), i))
  {
    assert Load(e, i) >= 1;
    StopFinish(c, e, i);
  }

  ghost predicate SettledTransitions(run: seq<Engine>, steps: seq<Step>)
    requires |run| == |steps| + 1
  {
    forall t :: 0 <= t < |steps| && steps[t].Transition? ==> Settled(run[t])
  }

  lemma InitialStopPart(c: Config)
    ensures Sized(c, Initial(c)) && StopPart(c, Initial(c))
  {
  }

  lemma {:induction false} RunKeepsStopPart(c: Config, run: seq<Engine>, steps: seq<Step>, t: nat)
    requires IsWholeRun(c, run, steps) && SettledTransitions(run, steps) && t < |run|
    ensures StopPart(c, run[t])
  {
    hide Inv, StopPart, Apply, Enabled, Settled;
    if t == 0 {
      InitialStopPart(c);
    } else {
      RunKeepsStopPart(c, run, steps, t - 1);
      InitialInv(c);
      RunKeepsInv(c, run, steps, t - 1);
      assert StepAt(c, run, steps, t - 1);
      StepStop(c, run[t - 1], steps[t - 1]);
    }
  }

  lemma OnlyBeginTerminates(c: Config, e: Engine, s: Step, i: nat)
    requires Inv(c, e) && Enabled(c, e, s) && !e.starting && i < |e.procs|
    requires e.procs[i] != Terminating && NextProcs(e, s)[i] == Terminating
    ensures s == Begin(i) && e.state == InTransition
  {
    StopPhaseSteps(c, e, s);
  }

  /** In the stop phase of any run, aborted and cancelled ones included, no process begins to
      terminate while a process that depends on it is still running. */
  lemma DependentsStopFirst(c: Config, run: seq<Engine>, steps: seq<Step>, t: nat, i: nat, k: nat)
    requires IsWholeRun(c, run, steps) && SettledTransitions(run, steps) && t < |steps|
    requires i < |c.deps| && k < |c.deps| && i in c.deps[k]
    requires !run[t].starting
    requires run[t].procs[i] != Terminating && run[t + 1].procs[i] == Terminating
    ensures run[t].procs[k] != Running
  {
    var e := run[t];
    InitialInv(c);
    RunKeepsInv(c, run, steps, t);
    RunKeepsStopPart(c, run, steps, t);
    assert StepAt(c, run, steps, t);
    StepProcs(c, e, steps[t]);
    OnlyBeginTerminates(c, e, steps[t], i);
    assert Load(e, i) >= 1;
    CountHeldZero(c.deps, e.holding, i, |c.deps|);
  }
}
