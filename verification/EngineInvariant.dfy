/** What every step of the engine keeps, whatever the configuration and whoever
    fails, dies, aborts or cancels. */
module EngineInvariant {
  import opened States
  import opened Engine

  /** Jobs of node `i` that are queued or being worked on. */
  function Load(e: Engine, i: nat): nat {
    e.queued[i] + e.starters[i] + e.leaving[i] + e.stoppers[i] + e.done[i]
  }

  function JobCount(e: Engine): nat {
    |e.queued| + |e.starters| + |e.leaving| + |e.stoppers| + |e.done|
  }

  /** Each node that takes part in the phase and waits for nothing has at most one job or has been
      executed, every other node has none; while in transition "at most" is "exactly". */
  ghost predicate OnceEach(e: Engine)
    requires forall i :: i in e.included ==> i < |e.counters|
  {
    forall i: nat ::
      && Load(e, i) + (if i in e.executed then 1 else 0) <= (if i in e.included && e.counters[i] == 0 then 1 else 0)
      && (e.state == InTransition ==>
            Load(e, i) + (if i in e.executed then 1 else 0) == (if i in e.included && e.counters[i] == 0 then 1 else 0))
  }

  /** The two global counters mean what their names say. */
  ghost predicate CountersAgree(e: Engine) {
    && e.inFlight == JobCount(e)
    && e.executed <= e.included
    && (e.state == InTransition ==> e.toExecute > 0 && e.toExecute == |e.included| - |e.executed|)
  }

  ghost predicate Quiet(e: Engine) {
    && (e.state == Success || e.state == Undefined ==> e.inFlight == 0)
    && (e.state == Cancelled ==> e.inFlight > 0)
  }

  ghost predicate PhaseJobs(e: Engine) {
    && (!e.starting ==> |e.starters| == 0 && |e.leaving| == 0)
    && (e.starting ==> |e.stoppers| == 0)
  }

  ghost predicate Inv(c: Config, e: Engine) {
    && Sized(c, e)
    && OnceEach(e)
    && CountersAgree(e)
    && Quiet(e)
    && PhaseJobs(e)
  }

  lemma InitialInv(c: Config)
    ensures Inv(c, Initial(c))
  {
  }

  // ---- A phase begins ----

  lemma QueueHeadNodesInv(c: Config, e: Engine, start: bool)
    requires Sized(c, e)
    requires JobCount(e) == 0
    requires e.state == InTransition
    ensures var e1 := QueueHeadNodes(c, e, start);
            && Sized(c, e1) && OnceEach(e1) && PhaseJobs(e1)
            && e1.inFlight == JobCount(e1)
            && e1.executed == {} && e1.toExecute == |e1.included|
            && e1.state == InTransition
            && (e1.inFlight > 0 ==> Inv(c, e1))
  {
    var e1 := QueueHeadNodes(c, e, start);
    var heads := Heads(e1.included, e1.counters);
    assert e.queued == multiset{};
    assert e1.queued == multiset(heads);
    forall i: nat
      ensures Load(e1, i) == (if i in e1.included && e1.counters[i] == 0 then 1 else 0)
    {
      assert e.starters == e.leaving == e.stoppers == e.done == multiset{};
    }
    if e1.inFlight > 0 {
      assert heads <= e1.included;
      assert |heads| > 0;
      var h :| h in heads;
      assert h in e1.included;
      assert |e1.included| > 0;
    }
  }

  lemma QueueStartJobsInv(c: Config, e: Engine)
    requires Sized(c, e)
    requires JobCount(e) == 0
    requires e.state == InTransition
    ensures Inv(c, QueueStartJobs(c, e))
  {
    QueueHeadNodesInv(c, e, true);
  }

  lemma StartTransitionInv(c: Config, e: Engine, indexes: seq<nat>)
    requires Inv(c, e)
    requires e.state == Success || e.state == Undefined
    ensures Inv(c, StartTransition(c, e, indexes))
  {
    assert JobCount(e) == 0;
    hide QueueHeadNodes, QueueStartJobs, OnceEach, PhaseJobs;
    var e0 := e.(state := InTransition, requested := set i | i in indexes && i < |c.deps|);
    QueueHeadNodesInv(c, e0, false);
    var e1 := QueueHeadNodes(c, e0, false);
    if e1.inFlight <= 0 {
      QueueStartJobsInv(c, e1);
    }
  }

  // ---- Counters go down ----

  lemma LowerInv(c: Config, e: Engine, amounts: seq<nat>)
    requires Inv(c, e)
    requires |amounts| == |e.counters|
    requires e.inFlight > 0
    requires forall i :: 0 <= i < |amounts| && amounts[i] > 0 ==> i in e.included
    ensures Inv(c, Lower(e, amounts))
  {
    var e1 := Lower(e, amounts);
    var ready := Ready(e.counters, amounts);
    forall i: nat
      ensures Load(e1, i) == Load(e, i) + (if e.state == InTransition && i in ready then 1 else 0)
    {
    }
  }

  // ---- Steps that move one job ----

  /** A step that moves one job from one stage to another, and touches no counter, keeps
      the invariant. */
  lemma MoveInv(c: Config, e: Engine, e1: Engine, i: nat)
    requires Inv(c, e)
    requires e.inFlight > 0
    requires forall k: nat :: Load(e1, k) == Load(e, k)
    requires JobCount(e1) == JobCount(e)
    requires PhaseJobs(e1)
    requires |e1.procs| == |e.procs|
    requires e1 == e.(procs := e1.procs, failed := e1.failed, released := e1.released, holding := e1.holding,
                      queued := e1.queued, starters := e1.starters, leaving := e1.leaving,
                      stoppers := e1.stoppers, done := e1.done)
    ensures Inv(c, e1)
  {
  }

  lemma InFlightPositive(e: Engine, i: nat)
    requires CountersAgree(e)
    requires i in e.queued || i in e.starters || i in e.leaving || i in e.stoppers || i in e.done
    ensures e.inFlight > 0
  {
  }

  lemma BeginInv(c: Config, e: Engine, i: nat)
    requires Inv(c, e) && i in e.queued && i < |e.procs|
    ensures Inv(c, BeginWork(e, i))
  {
    InFlightPositive(e, i);
    BeginJobs(e, i);
    assert Sized(c, e);
    hide Inv, Load, JobCount, PhaseJobs, BeginWork;
    WorkBegins(e, i);
    MoveInv(c, e, BeginWork(e, i), i);
  }

  lemma BeginJobs(e: Engine, i: nat)
    requires i in e.queued && i < |e.procs|
    requires PhaseJobs(e)
    ensures PhaseJobs(BeginWork(e, i))
    ensures JobCount(BeginWork(e, i)) == JobCount(e)
    ensures forall k: nat :: Load(BeginWork(e, i), k) == Load(e, k)
  {
    if e.state != InTransition {
    } else if e.starting {
      if e.procs[i] == Idle || e.procs[i] == Terminated {
      } else {
      }
    } else {
    }
  }

  lemma AttemptOverInv(c: Config, e: Engine, i: nat)
    requires Inv(c, e) && i in e.starters
    ensures Inv(c, AttemptOver(e, i))
  {
    var e1 := AttemptOver(e, i);
    InFlightPositive(e, i);
    MoveInv(c, e, e1, i);
  }

  lemma StopOverInv(c: Config, e: Engine, i: nat)
    requires Inv(c, e) && i in e.stoppers
    ensures Inv(c, StopOver(e, i))
  {
    var e1 := StopOver(e, i);
    InFlightPositive(e, i);
    MoveInv(c, e, e1, i);
  }

  lemma RespawnInv(c: Config, e: Engine, i: nat)
    requires Inv(c, e) && Enabled(c, e, Respawn(i))
    ensures Inv(c, Apply(c, e, Respawn(i)))
  {
    var e1 := Apply(c, e, Respawn(i));
    InFlightPositive(e, i);
    MoveInv(c, e, e1, i);
  }

  lemma LeaveStartInv(c: Config, e: Engine, i: nat)
    requires Inv(c, e) && Enabled(c, e, LeaveStart(i))
    ensures Inv(c, Apply(c, e, LeaveStart(i)))
  {
    var e1 := Apply(c, e, LeaveStart(i));
    InFlightPositive(e, i);
    MoveInv(c, e, e1, i);
  }

  lemma ReleaseDependentsInv(c: Config, e: Engine, i: nat)
    requires Inv(c, e) && i in e.starters
    ensures Inv(c, ReleaseDependents(c, e, i))
  {
    InFlightPositive(e, i);
    var amounts := StartAmounts(c, e, i);
    LowerInv(c, e, amounts);
    var e1 := Lower(e, amounts);
    var e2 := ReleaseDependents(c, e, i);
    assert forall k: nat :: Load(e2, k) == Load(e1, k);
  }

  lemma ReleaseDependenciesInv(c: Config, e: Engine, i: nat)
    requires Inv(c, e) && i in e.stoppers && i < |c.deps|
    ensures Inv(c, ReleaseDependencies(c, e, i))
  {
    InFlightPositive(e, i);
    var amounts := StopAmounts(c, e, i);
    LowerInv(c, e, amounts);
    var e1 := Lower(e, amounts);
    var e2 := ReleaseDependencies(c, e, i);
    assert forall k: nat :: Load(e2, k) == Load(e1, k);
  }

  // ---- Steps that move no job ----

  /** Changing process states, or leaving the transition with jobs in flight, keeps the invariant. */
  lemma FrameInv(c: Config, e: Engine, e1: Engine)
    requires Inv(c, e)
    requires |e1.procs| == |e.procs|
    requires e1 == e.(procs := e1.procs, failed := e1.failed, state := e1.state, event := e1.event, abortCode := e1.abortCode)
    requires e1.state != e.state ==> e1.state != InTransition
    requires Quiet(e1)
    ensures Inv(c, e1)
  {
    assert forall k: nat :: Load(e1, k) == Load(e, k);
  }

  // ---- Completion ----

  lemma ExecutedInv(c: Config, e: Engine, i: nat)
    requires Inv(c, e) && i in e.done
    ensures Inv(c, NodeExecuted(c, e.(done := e.done - multiset{i}), i))
  {
    if e.state == InTransition {
      ExecutedInTransition(c, e, i);
      assert Sized(c, e);
      hide Inv, NodeExecuted, OnceEach, PhaseJobs, JobCount, Sized;
      CompletionInPhase(c, e, i);
      var e1 := OneLess(e, i);
      if e1.toExecute == 0 {
        AllExecuted(c, e1);
        if e1.starting {
          FrameInvAtSuccess(c, e1);
        } else {
          QueueStartJobsInv(c, e1);
        }
      }
    } else {
      ExecutedWhileDraining(c, e, i);
    }
  }

  /** The graph after it has counted node `i` as executed. */
  function OneLess(e: Engine, i: nat): Engine
    requires e.toExecute > 0
  {
    e.(done := e.done - multiset{i}, inFlight := e.inFlight - 1, toExecute := e.toExecute - 1,
       executed := e.executed + {i})
  }

  lemma CompletionInPhase(c: Config, e: Engine, i: nat)
    requires Sized(c, e) && e.state == InTransition && e.toExecute > 0
    ensures NodeExecuted(c, e.(done := e.done - multiset{i}), i) ==
            if e.toExecute > 1 then OneLess(e, i)
            else if e.starting then OneLess(e, i).(state := Success, event := SetStateSuccess)
            else QueueStartJobs(c, OneLess(e, i))
  {
    hide QueueStartJobs;
  }

  lemma DoneJobs(e: Engine, e1: Engine, i: nat)
    requires i in e.done
    requires e1.queued == e.queued && e1.starters == e.starters && e1.leaving == e.leaving
    requires e1.stoppers == e.stoppers && e1.done == e.done - multiset{i}
    ensures JobCount(e1) == JobCount(e) - 1
    ensures forall k: nat :: Load(e1, k) == Load(e, k) - (if k == i then 1 else 0)
  {
  }

  lemma ExecutedInTransition(c: Config, e: Engine, i: nat)
    requires Inv(c, e) && i in e.done && e.state == InTransition
    ensures var e1 := OneLess(e, i);
            && Sized(c, e1) && OnceEach(e1) && PhaseJobs(e1)
            && e1.inFlight == JobCount(e1) && e1.executed <= e1.included
            && e1.toExecute == |e1.included| - |e1.executed|
            && (e1.toExecute > 0 ==> Inv(c, e1))
  {
    var e1 := OneLess(e, i);
    DoneJobs(e, e1, i);
    assert Load(e, i) >= 1;
    assert i !in e.executed && i in e.included;
    assert |e1.executed| == |e.executed| + 1;
  }

  lemma ExecutedWhileDraining(c: Config, e: Engine, i: nat)
    requires Inv(c, e) && i in e.done && e.state != InTransition
    ensures Inv(c, NodeExecuted(c, e.(done := e.done - multiset{i}), i))
  {
    var e1 := NodeExecuted(c, e.(done := e.done - multiset{i}), i);
    InFlightPositive(e, i);
    DoneJobs(e, e1, i);
  }

  /** When no node is left to execute, no job is in flight either. */
  lemma AllExecuted(c: Config, e: Engine)
    requires Sized(c, e) && OnceEach(e)
    requires e.executed <= e.included && |e.included| == |e.executed|
    ensures e.executed == e.included
    ensures JobCount(e) == 0
  {
    SubsetSameSize(e.executed, e.included);
    forall i: nat
      ensures Load(e, i) == 0
    {
    }
    assert forall i: nat :: e.queued[i] <= Load(e, i) && e.starters[i] <= Load(e, i) && e.leaving[i] <= Load(e, i)
                            && e.stoppers[i] <= Load(e, i) && e.done[i] <= Load(e, i);
    assert e.queued == e.starters == e.leaving == e.stoppers == e.done == multiset{};
  }

  lemma SubsetSameSize(a: set<nat>, b: set<nat>)
    requires a <= b && |a| == |b|
    ensures a == b
  {
    assert b == a + (b - a);
    assert |b - a| == 0;
  }

  lemma FrameInvAtSuccess(c: Config, e: Engine)
    requires Sized(c, e) && OnceEach(e) && PhaseJobs(e)
    requires e.executed <= e.included
    requires JobCount(e) == 0 && e.inFlight == 0
    requires e.state == InTransition
    ensures Inv(c, e.(state := Success, event := SetStateSuccess))
  {
    var e1 := e.(state := Success, event := SetStateSuccess);
    assert forall k: nat :: Load(e1, k) == Load(e, k);
  }

  // ---- Every step ----

  lemma ReportRunningInv(c: Config, e: Engine, i: nat)
    requires Inv(c, e) && i in e.starters && i < |e.procs|
    ensures Inv(c, AttemptOver(ReleaseDependents(c, e.(procs := e.procs[i := Running]), i), i))
  {
    var e0 := e.(procs := e.procs[i := Running]);
    FrameInv(c, e, e0);
    ReleaseDependentsInv(c, e0, i);
    AttemptOverInv(c, ReleaseDependents(c, e0, i), i);
  }

  lemma ReportEndedInv(c: Config, e: Engine, i: nat)
    requires Inv(c, e) && i in e.starters
    ensures Inv(c, AttemptOver(ReleaseDependents(c, e, i), i))
  {
    ReleaseDependentsInv(c, e, i);
    AttemptOverInv(c, ReleaseDependents(c, e, i), i);
  }

  lemma FinishStopInv(c: Config, e: Engine, i: nat)
    requires Inv(c, e) && i in e.stoppers && i < |e.procs|
    ensures Inv(c, StopOver(ReleaseDependencies(c, e, i), i))
  {
    ReleaseDependenciesInv(c, e, i);
    StopOverInv(c, ReleaseDependencies(c, e, i), i);
  }

  lemma AbortInv(c: Config, e: Engine, reason: Code)
    requires Inv(c, e)
    ensures Inv(c, Abort(e, reason))
  {
    FrameInv(c, e, Abort(e, reason));
  }

  lemma EndedInv(c: Config, e: Engine, i: nat, status: int)
    requires Inv(c, e) && i < |e.procs|
    ensures Inv(c, ProcessEnded(c, e, i, status))
  {
    FrameInv(c, e, ProcessEnded(c, e, i, status));
  }

  lemma CancelInv(c: Config, e: Engine)
    requires Inv(c, e)
    ensures Inv(c, Cancel(e))
  {
    FrameInv(c, e, Cancel(e));
  }

  lemma KillStartingInv(c: Config, e: Engine, i: nat)
    requires Inv(c, e) && i < |e.procs|
    ensures Inv(c, e.(procs := e.procs[i := Terminating]))
  {
    FrameInv(c, e, e.(procs := e.procs[i := Terminating]));
  }

  /** Every step keeps the invariant. */
  lemma StepInv(c: Config, e: Engine, s: Step)
    requires Inv(c, e) && Enabled(c, e, s)
    ensures Inv(c, Apply(c, e, s))
  {
    match s
    case Transition(indexes) => StartTransitionInv(c, e, indexes);
    case Begin(i) => BeginInv(c, e, i);
    case Respawn(i) => RespawnInv(c, e, i);
    case LeaveStart(i) => LeaveStartInv(c, e, i);
    case KillStarting(i) => KillStartingInv(c, e, i);
    case ReportRunning(i) => ReportRunningInv(c, e, i);
    case ReportEnded(i) => ReportEndedInv(c, e, i);
    case GiveUp(i) => AttemptOverInv(c, e, i);
    case FailStart(i, reason) => AbortInv(c, e, reason);
    case FinishStop(i) => FinishStopInv(c, e, i);
    case Executed(i) => ExecutedInv(c, e, i);
    case Ended(i, status) => EndedInv(c, e, i, status);
    case CancelRequest => CancelInv(c, e);
  }
}
