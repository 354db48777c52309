/** What a failure-free transition keeps, and why it does not come to a standstill over acyclic, closed
    dependencies. */
module CalmSteps {
  import opened States
  import opened Counting
  import opened Acyclicity
  import opened Engine
  import opened EngineInvariant
  import opened StopOrder
  import opened StartOrder
  import opened Calm

  /** Whoever is requested has its dependencies requested too. */
  ghost predicate Closed(c: Config, requested: set<nat>) {
    forall i, d :: i in requested && i < |c.deps| && d in c.deps[i] ==> d in requested
  }

  // ---- Nothing in flight means nothing left ----

  /** A stop node that will never be queued: its process ended on its own while the node was waiting. */
  predicate StopLost(e: Engine, i: nat) {
    i in e.included && i < |e.counters| && i < |e.procs| && e.counters[i] > 0 && e.procs[i] == Terminated
  }

  /** A start node that will never be queued: it waits for a process that was overlooked. */
  predicate StartLost(c: Config, e: Engine, i: nat) {
    i in e.included && i < |c.deps| && exists d :: d in c.deps[i] && Over(e, d) && d !in e.released
  }

  /** A live node that still waits in the stop phase waits for another such node, which depends on it. */
  lemma StopWaitsFor(c: Config, e: Engine, i: nat) returns (k: nat)
    requires Sized(c, e) && OnceEach(e) && CalmStop(c, e)
    requires e.state == InTransition && Load(e, i) == 0
    requires Closed(c, e.requested)
    requires i in e.included - e.executed && !StopLost(e, i)
    ensures k in e.included - e.executed && i in c.deps[k]
  {
    assert e.counters[i] > 0;
    CountHeldZero(c.deps, e.holding, i, |c.deps|);
    k :| k < |c.deps| && k in e.holding && i in c.deps[k];
  }

  lemma StopStuck(c: Config, e: Engine, rank: seq<nat>)
    requires Sized(c, e) && OnceEach(e) && CalmStop(c, e)
    requires e.state == InTransition && JobCount(e) == 0
    requires Closed(c, e.requested) && RankedBy(c.deps, rank)
    requires forall i: nat :: !StopLost(e, i)
    ensures e.included <= e.executed
  {
    var w := e.included - e.executed;
    assert e.included <= e.executed + w;
    if w != {} {
      var i := Highest(w, rank);
      assert e.queued == e.starters == e.leaving == e.stoppers == e.done == multiset{};
      var k := StopWaitsFor(c, e, i);
    }
  }

  /** A node that still waits in the start phase for nobody overlooked waits for another such node, on which
      it depends. */
  lemma StartWaitsFor(c: Config, e: Engine, i: nat) returns (d: nat)
    requires Sized(c, e) && OnceEach(e) && CalmStart(c, e)
    requires e.state == InTransition && Load(e, i) == 0
    requires Closed(c, e.requested)
    requires i in e.included - e.executed && !StartLost(c, e, i)
    ensures d in e.included - e.executed && d in c.deps[i]
  {
    assert e.counters[i] > 0;
    CountOutsideZero(c.deps[i], e.released);
    d :| d in c.deps[i] && d !in e.released;
    assert !Over(e, d);
  }

  lemma StartStuck(c: Config, e: Engine, rank: seq<nat>)
    requires Sized(c, e) && OnceEach(e) && CalmStart(c, e)
    requires e.state == InTransition && JobCount(e) == 0
    requires Closed(c, e.requested) && RankedBy(c.deps, rank)
    requires forall i: nat :: !StartLost(c, e, i)
    ensures e.included <= e.executed
  {
    var w := e.included - e.executed;
    assert e.included <= e.executed + w;
    if w != {} {
      var i := Lowest(w, rank);
      assert e.queued == e.starters == e.leaving == e.stoppers == e.done == multiset{};
      var d := StartWaitsFor(c, e, i);
    }
  }

  // ---- What a failure-free transition keeps ----

  /** The group's configuration and request are such that every failure-free transition should succeed. */
  ghost predicate Startable(c: Config, requested: set<nat>) {
    ValidConfig(c) && Acyclic(c.deps) && Closed(c, requested)
  }

  /** No node of the phase can begin. */
  ghost predicate NoneReady(e: Engine) {
    e.executed == {} && forall i :: i in e.included && i < |e.counters| ==> e.counters[i] > 0
  }

  /** What holds in every state of a failure-free transition, whatever the dependencies are. Success is announced
      when every node has been executed, or when none can begin. */
  ghost predicate CalmInv(c: Config, e: Engine) {
    && Inv(c, e) && StopPart(c, e) && StartPart(c, e)
    && (e.state == InTransition
        || (e.state == Success && e.starting && e.event == SetStateSuccess
            && (e.executed == e.included || NoneReady(e))))
    && (if e.starting then CalmStart(c, e) else CalmStop(c, e))
  }

  lemma StartPhaseCalm(c: Config, e: Engine)
    requires Sized(c, e) && Settled(e) && JobCount(e) == 0 && StartingNotFailed(e)
    requires e.state == InTransition
    ensures CalmInv(c, QueueStartJobs(c, e))
  {
    QueueHeadNodesInv(c, e, true);
    QueueStartJobsInv(c, e);
    StartPhaseBegins(c, e);
    CalmStartBegins(c, e);
    var e1 := QueueHeadNodes(c, e, true);
    if e1.inFlight <= 0 {
      assert Heads(e1.included, e1.counters) == {};
      assert NoneReady(e1);
    }
  }

  /** A stop phase without a head is skipped. */
  lemma NoHeadNoStop(c: Config, e: Engine)
    requires Sized(c, e) && Settled(e) && JobCount(e) == 0 && StartingNotFailed(e)
    requires e.state == InTransition
    requires QueueHeadNodes(c, e, false).inFlight <= 0
    ensures CalmInv(c, QueueStartJobs(c, QueueHeadNodes(c, e, false)))
  {
    var e1 := QueueHeadNodes(c, e, false);
    QueueHeadNodesInv(c, e, false);
    StartPhaseCalm(c, e1);
  }

  lemma HeadsAndStop(c: Config, e: Engine)
    requires Sized(c, e) && Settled(e) && JobCount(e) == 0 && StartingNotFailed(e)
    requires e.state == InTransition
    requires QueueHeadNodes(c, e, false).inFlight > 0
    ensures CalmInv(c, QueueHeadNodes(c, e, false))
  {
    QueueHeadNodesInv(c, e, false);
    CalmStopBegins(c, e);
    StopPhaseBegins(c, e);
  }

  lemma TransitionCalm(c: Config, e: Engine, indexes: seq<nat>)
    requires Inv(c, e) && StartingNotFailed(e) && Settled(e)
    requires e.state == Success || e.state == Undefined
    ensures CalmInv(c, StartTransition(c, e, indexes))
  {
    hide QueueHeadNodes, QueueStartJobs;
    var e0 := e.(state := InTransition, requested := set i | i in indexes && i < |c.deps|);
    assert JobCount(e0) == 0;
    if QueueHeadNodes(c, e0, false).inFlight > 0 {
      HeadsAndStop(c, e0);
    } else {
      NoHeadNoStop(c, e0);
    }
  }

  /** The last node of the start phase completes. */
  lemma LastStarted(c: Config, e: Engine, i: nat)
    requires CalmInv(c, e) && e.state == InTransition && e.starting && e.toExecute == 1 && i in e.done
    ensures CalmInv(c, OneLess(e, i).(state := Success, event := SetStateSuccess))
  {
    var e1 := OneLess(e, i);
    ExecutedInTransition(c, e, i);
    AllExecuted(c, e1);
    FrameInvAtSuccess(c, e1);
    CalmStartExecuted(c, e, i);
    var e2 := e1.(state := Success, event := SetStateSuccess);
    StartFrame(c, e, e2);
    CalmStartSame(c, e1, e2);
  }

  lemma CalmStartSame(c: Config, e: Engine, e1: Engine)
    requires Sized(c, e) && CalmStart(c, e)
    requires e1 == e.(state := e1.state, event := e1.event)
    ensures Sized(c, e1) && CalmStart(c, e1)
  {
    assert forall k: nat :: Over(e1, k) <==> Over(e, k);
    assert forall k: nat :: InHand(e1, k) <==> InHand(e, k);
    assert forall k: nat :: RanWell(c, e1, k) <==> RanWell(c, e, k);
  }

  /** When every stop node has been executed, whoever is not requested is idle or terminated. */
  lemma AllStopped(c: Config, e: Engine)
    requires Sized(c, e) && CalmStop(c, e) && e.executed == e.included && JobCount(e) == 0
    ensures Settled(e)
    ensures forall k: nat :: k < |c.deps| && k !in e.requested ==> e.procs[k] == Idle || e.procs[k] == Terminated
  {
    assert e.stoppers == multiset{};
  }

  /** The last node of the stop phase completes. */
  lemma LastStopped(c: Config, e: Engine, i: nat)
    requires CalmInv(c, e) && e.state == InTransition && !e.starting && e.toExecute == 1 && i in e.done
    ensures CalmInv(c, QueueStartJobs(c, OneLess(e, i)))
  {
    var e1 := OneLess(e, i);
    ExecutedInTransition(c, e, i);
    AllExecuted(c, e1);
    CalmStopExecuted(c, e, i);
    AllStopped(c, e1);
    assert StartingNotFailed(e1);
    hide CalmInv, QueueStartJobs;
    StartPhaseCalm(c, e1);
  }

  /** Some node of the phase completes, but not the last. */
  lemma OneMoreDone(c: Config, e: Engine, i: nat)
    requires CalmInv(c, e) && e.state == InTransition && e.toExecute > 1 && i in e.done
    ensures CalmInv(c, OneLess(e, i))
  {
    var e1 := OneLess(e, i);
    ExecutedInTransition(c, e, i);
    StopFrame(c, e, e1);
    OneLessStart(c, e, i);
    if e.starting {
      CalmStartExecuted(c, e, i);
    } else {
      CalmStopExecuted(c, e, i);
    }
  }

  lemma OneLessStart(c: Config, e: Engine, i: nat)
    requires Sized(c, e) && StartPart(c, e) && e.toExecute > 0 && i in e.done
    ensures StartPart(c, OneLess(e, i))
  {
    var e1 := OneLess(e, i);
    assert forall k: nat :: k in e.done && k != i ==> k in e1.done;
    StartFrame(c, e, e1);
  }

  lemma ExecutedCalm(c: Config, e: Engine, i: nat)
    requires CalmInv(c, e) && e.state == InTransition && i in e.done
    ensures CalmInv(c, NodeExecuted(c, e.(done := e.done - multiset{i}), i))
  {
    hide CalmStart, CalmStop, StopPart, StartPart, QueueStartJobs, OnceEach;
    if e.toExecute > 1 {
      OneMoreDone(c, e, i);
    } else if e.starting {
      LastStarted(c, e, i);
    } else {
      LastStopped(c, e, i);
    }
  }

  lemma BeginCalm(c: Config, e: Engine, i: nat)
    requires CalmInv(c, e) && e.state == InTransition && i in e.queued && i < |e.procs|
    ensures CalmInv(c, BeginWork(e, i))
  {
    QueuedFacts(c, e, i);
    BeginInv(c, e, i);
    StopBegin(c, e, i);
    StartBegin(c, e, i);
    if e.starting {
      assert i !in e.released;
      CalmStartBegin(c, e, i);
    } else {
      CalmStopBegin(c, e, i);
    }
  }

  lemma FinishStopCalm(c: Config, e: Engine, i: nat)
    requires CalmInv(c, e) && e.state == InTransition && i in e.stoppers && i < |e.procs| && e.procs[i] == Terminated
    ensures CalmInv(c, StopOver(ReleaseDependencies(c, e, i), i))
  {
    assert !e.starting;
    FinishStopInv(c, e, i);
    StopFinishStep(c, e, i);
    StartFinishStop(c, e, i);
    CalmStopFinish(c, e, i);
  }

  lemma AcceptCalm(c: Config, e: Engine, i: nat)
    requires CalmInv(c, e) && e.state == InTransition && i in e.starters && i < |e.procs|
    ensures e.starting && e.starters[i] == 1 && i !in e.released && i in e.requested
  {
    StarterFacts(c, e, i);
    assert Load(e, i) == 1;
  }

  lemma ReportRunningCalm(c: Config, e: Engine, i: nat)
    requires CalmInv(c, e) && e.state == InTransition && Enabled(c, e, ReportRunning(i))
    ensures CalmInv(c, AttemptOver(ReleaseDependents(c, e.(procs := e.procs[i := Running]), i), i))
  {
    AcceptCalm(c, e, i);
    ReportRunningInv(c, e, i);
    StartReport(c, e, i);
    CalmStartAccept(c, e, i);
  }

  lemma ReportEndedCalm(c: Config, e: Engine, i: nat)
    requires CalmInv(c, e) && e.state == InTransition && Enabled(c, e, ReportEnded(i))
    ensures CalmInv(c, AttemptOver(ReleaseDependents(c, e, i), i))
  {
    AcceptCalm(c, e, i);
    ReportEndedInv(c, e, i);
    StartReportEnded(c, e, i);
    CalmStartAcceptEnded(c, e, i);
  }

  lemma GiveUpCalm(c: Config, e: Engine, i: nat)
    requires CalmInv(c, e) && e.state == InTransition && i in e.starters && i < |e.procs|
    requires Quick(c, i) && e.procs[i] == Terminated
    ensures CalmInv(c, AttemptOver(e, i))
  {
    AcceptCalm(c, e, i);
    AttemptOverInv(c, e, i);
    StartGiveUp(c, e, i);
    CalmStartOverlook(c, e, i);
  }

  lemma LeaveStartCalm(c: Config, e: Engine, i: nat)
    requires CalmInv(c, e) && e.state == InTransition && Enabled(c, e, LeaveStart(i))
    ensures CalmInv(c, Apply(c, e, LeaveStart(i)))
  {
    assert e.starting;
    LeaveStartInv(c, e, i);
    StartLeave(c, e, i);
    CalmStartLeave(c, e, i);
  }

  lemma EndedCalm(c: Config, e: Engine, i: nat, status: int)
    requires CalmInv(c, e) && CalmStep(c, e, Ended(i, status))
    ensures CalmInv(c, ProcessEnded(c, e, i, status))
  {
    EndedInv(c, e, i, status);
    StopEnded(c, e, i, status);
    StartEnded(c, e, i, status);
    if e.starting {
      CalmStartEnded(c, e, i);
    } else {
      assert i in e.stoppers ==> Load(e, i) >= 1;
      CalmStopEnded(c, e, i, status);
    }
  }

  lemma StepCalm(c: Config, e: Engine, s: Step)
    requires CalmInv(c, e) && CalmStep(c, e, s)
    ensures CalmInv(c, Apply(c, e, s))
  {
    hide CalmInv, QueueStartJobs, NodeExecuted, ReleaseDependents, ReleaseDependencies, BeginWork, ProcessEnded;
    match s
    case Begin(i) => BeginCalm(c, e, i);
    case ReportRunning(i) => ReportRunningCalm(c, e, i);
    case ReportEnded(i) => ReportEndedCalm(c, e, i);
    case GiveUp(i) => GiveUpCalm(c, e, i);
    case LeaveStart(i) => LeaveStartCalm(c, e, i);
    case FinishStop(i) => FinishStopCalm(c, e, i);
    case Executed(i) => ExecutedCalm(c, e, i);
    case Ended(i, status) => EndedCalm(c, e, i, status);
  }
}
