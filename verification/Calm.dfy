/** Failure-free runs: every requested start succeeds, every requested stop takes effect, nobody
    cancels, and no process ends on its own unless it is configured to. */
module Calm {
  import opened States
  import opened Counting
  import opened Engine
  import opened EngineInvariant
  import opened StopOrder

  /** A process that may end cleanly before the launch manager has registered it. */
  predicate Quick(c: Config, i: nat) {
    i in c.selfTerminating && i !in c.reporting
  }

  /** The steps of a failure-free run in transition. */
  predicate CalmStep(c: Config, e: Engine, s: Step) {
    && e.state == InTransition
    && Enabled(c, e, s)
    && match s
       case Begin(_) => true
       case ReportRunning(_) => true
       case ReportEnded(_) => true
       case GiveUp(i) => i < |e.procs| && e.procs[i] == Terminated && Quick(c, i) && i !in e.failed
       case LeaveStart(_) => true
       case FinishStop(i) => e.procs[i] == Terminated
       case Executed(_) => true
       case Ended(i, status) =>
         || (i in e.stoppers && e.procs[i] == Terminating)
         || (i in c.selfTerminating && status == 0 && e.procs[i] != Terminating)
       case _ => false
  }

  // ---- Stop phase ----

  /** A waiting node that is alive waits for exactly the entries still held. */
  ghost predicate ExactHeld(c: Config, e: Engine)
    requires Sized(c, e)
  {
    forall i: nat :: i in e.included && e.counters[i] > 0 && e.procs[i] != Terminated ==>
      e.counters[i] == CountHeld(c.deps, e.holding, i, |c.deps|)
  }

  ghost predicate StopProcs(c: Config, e: Engine)
    requires Sized(c, e)
  {
    && (forall k: nat :: k in e.holding ==> k < |c.deps| && (k in e.included || k in e.requested))
    && (forall k: nat :: k in e.done || k in e.executed ==> k !in e.holding && k < |c.deps| && e.procs[k] == Terminated)
    && (forall k: nat :: k < |c.deps| ==> e.procs[k] != Starting)
    && (forall k: nat :: k < |c.deps| && e.procs[k] == Terminating ==> k in e.stoppers)
    && (forall k: nat :: k < |c.deps| && e.procs[k] == Running ==> k in e.included || k in e.requested)
    && (forall k: nat :: k in e.included ==> k !in e.requested)
    && (forall k: nat :: k in e.included && e.counters[k] > 0 && e.procs[k] == Terminated ==> k in c.selfTerminating)
    && (forall k: nat :: k in e.included ==> e.procs[k] != Idle)
  }

  ghost predicate CalmStop(c: Config, e: Engine)
    requires Sized(c, e)
  {
    ExactHeld(c, e) && StopProcs(c, e)
  }

  lemma CalmStopBegins(c: Config, e: Engine)
    requires Sized(c, e) && Settled(e) && JobCount(e) == 0
    ensures var e1 := QueueHeadNodes(c, e, false); Sized(c, e1) && CalmStop(c, e1)
  {
    assert e.done == multiset{};
  }

  lemma CalmStopBegin(c: Config, e: Engine, i: nat)
    requires Sized(c, e) && CalmStop(c, e) && e.state == InTransition && !e.starting
    requires i in e.queued && i < |e.procs|
    requires i in e.included && e.counters[i] == 0
    ensures CalmStop(c, BeginWork(e, i))
  {
    var e1 := BeginWork(e, i);
    assert forall k: nat :: k < |c.deps| && k != i ==> e1.procs[k] == e.procs[k];
    assert forall k: nat :: k in e.stoppers ==> k in e1.stoppers;
    assert i in e1.stoppers;
  }

  lemma CalmStopFinishHeld(c: Config, e: Engine, i: nat)
    requires Sized(c, e) && ExactHeld(c, e) && i in e.holding && i < |c.deps|
    ensures ExactHeld(c, ReleaseDependencies(c, e, i))
  {
    var e1 := ReleaseDependencies(c, e, i);
    forall k: nat | k in e1.included && e1.counters[k] > 0 && e1.procs[k] != Terminated
      ensures e1.counters[k] == CountHeld(c.deps, e1.holding, k, |c.deps|)
    {
      CountHeldRemove(c.deps, e.holding, k, i, |c.deps|);
    }
  }

  lemma CalmStopFinish(c: Config, e: Engine, i: nat)
    requires Sized(c, e) && CalmStop(c, e)
    requires i in e.stoppers && i < |e.procs| && i in e.holding && e.procs[i] == Terminated
    ensures CalmStop(c, StopOver(ReleaseDependencies(c, e, i), i))
  {
    CalmStopFinishHeld(c, e, i);
    var e1 := ReleaseDependencies(c, e, i);
    var e2 := StopOver(e1, i);
    assert ExactHeld(c, e2);
    assert forall k: nat :: k in e2.done ==> k == i || k in e.done;
    assert forall k: nat :: k in e.stoppers && k != i ==> k in e2.stoppers;
  }

  lemma CalmStopExecuted(c: Config, e: Engine, i: nat)
    requires Sized(c, e) && CalmStop(c, e) && e.toExecute > 0 && i in e.done
    ensures CalmStop(c, OneLess(e, i))
  {
    var e1 := OneLess(e, i);
    assert forall k: nat :: k in e1.done ==> k in e.done;
  }

  lemma CalmStopEnded(c: Config, e: Engine, i: nat, status: int)
    requires Sized(c, e) && CalmStop(c, e) && i < |e.procs| && !e.starting
    requires i in c.selfTerminating || (i in e.included ==> e.counters[i] == 0)
    ensures CalmStop(c, ProcessEnded(c, e, i, status))
  {
  }

  // ---- Start phase ----

  ghost predicate ExactOutstanding(c: Config, e: Engine)
    requires Sized(c, e)
  {
    forall i: nat :: i in e.included ==> e.counters[i] == CountOutside(c.deps[i], e.released)
  }

  predicate InHand(e: Engine, i: nat) {
    i in e.starters || i in e.leaving || i in e.done || i in e.executed
  }

  predicate Over(e: Engine, i: nat) {
    i in e.leaving || i in e.done || i in e.executed
  }

  /** The process is running, or has run and ended as it may. */
  predicate RanWell(c: Config, e: Engine, i: nat) {
    i < |e.procs| && (e.procs[i] == Running || (e.procs[i] == Terminated && i in c.selfTerminating))
  }

  ghost predicate StartProcs(c: Config, e: Engine)
    requires Sized(c, e)
  {
    && (forall k: nat :: k in e.requested ==> k in e.included || k in e.released)
    && (forall k: nat :: k in e.included ==> k in e.requested)
    && (forall k: nat :: k < |c.deps| && k !in e.requested ==>
          e.procs[k] == Idle || e.procs[k] == Terminated || (e.procs[k] == Running && k in e.released))
    && (forall k: nat :: k in e.included && !InHand(e, k) ==> e.procs[k] == Idle || e.procs[k] == Terminated)
    && (forall k: nat :: k in e.starters && k < |c.deps| ==>
          e.procs[k] == Starting || (e.procs[k] == Terminated && k in c.selfTerminating && k !in e.failed))
    && (forall k: nat :: k in e.released ==> RanWell(c, e, k))
    && (forall k: nat :: Over(e, k) && k !in e.released ==> k < |c.deps| && Quick(c, k) && e.procs[k] == Terminated)
  }

  ghost predicate CalmStart(c: Config, e: Engine)
    requires Sized(c, e)
  {
    ExactOutstanding(c, e) && StartProcs(c, e)
  }

  lemma CalmStartBegins(c: Config, e: Engine)
    requires Sized(c, e) && Settled(e) && JobCount(e) == 0
    ensures var e1 := QueueHeadNodes(c, e, true); Sized(c, e1) && CalmStart(c, e1)
  {
    assert e.starters == e.leaving == e.done == multiset{};
  }

  lemma CalmStartBegin(c: Config, e: Engine, i: nat)
    requires Sized(c, e) && CalmStart(c, e) && e.state == InTransition && e.starting
    requires i in e.queued && i < |e.procs| && i in e.included && !InHand(e, i) && i !in e.released
    ensures CalmStart(c, BeginWork(e, i))
  {
    var e1 := BeginWork(e, i);
    assert forall k: nat :: k in e1.starters <==> k == i || k in e.starters;
  }

  lemma CalmStartReleaseOutstanding(c: Config, e: Engine, i: nat)
    requires Sized(c, e) && ExactOutstanding(c, e) && i !in e.released
    ensures ExactOutstanding(c, ReleaseDependents(c, e, i))
  {
    var e1 := ReleaseDependents(c, e, i);
    forall k: nat | k in e1.included
      ensures e1.counters[k] == CountOutside(c.deps[k], e1.released)
    {
      CountOutsideAdd(c.deps[k], e.released, i);
    }
  }

  /** The outcome of an attempt to start process `i`: it is accepted as running or, having
      ended too quickly, overlooked. */
  lemma StartOutcome(c: Config, e: Engine, e1: Engine, i: nat)
    requires Sized(c, e) && StartProcs(c, e) && Sized(c, e1) && i < |c.deps| && i in e.starters
    requires e1.requested == e.requested && e1.included == e.included && e1.failed == e.failed
    requires e1.done == e.done && e1.executed == e.executed
    requires e1.starters == e.starters - multiset{i} && e1.leaving == e.leaving + multiset{i}
    requires forall k :: 0 <= k < |e.procs| && k != i ==> e1.procs[k] == e.procs[k]
    requires e1.procs[i] == Running || e1.procs[i] == e.procs[i]
    requires i in e.requested && e.starters[i] == 1 && i !in e.released
    requires || (e1.released == e.released + {i} && RanWell(c, e1, i))
             || (e1.released == e.released && Quick(c, i) && e1.procs[i] == Terminated)
    ensures StartProcs(c, e1)
  {
    assert forall k: nat :: k in e1.leaving <==> k == i || k in e.leaving;
    assert forall k: nat :: k in e1.starters <==> k != i && k in e.starters;
    forall k: nat | k in e1.released
      ensures RanWell(c, e1, k)
    {
      assert k != i ==> RanWell(c, e, k);
    }
    assert forall k: nat :: k != i ==> (InHand(e1, k) <==> InHand(e, k)) && (Over(e1, k) <==> Over(e, k));
  }

  /** A running process is accepted: its dependents are let go. */
  lemma CalmStartAccept(c: Config, e: Engine, i: nat)
    requires Sized(c, e) && CalmStart(c, e) && i < |c.deps| && i in e.starters
    requires i in e.requested && e.starters[i] == 1 && i !in e.released
    ensures CalmStart(c, AttemptOver(ReleaseDependents(c, e.(procs := e.procs[i := Running]), i), i))
  {
    var e0 := e.(procs := e.procs[i := Running]);
    var e1 := AttemptOver(ReleaseDependents(c, e0, i), i);
    assert ExactOutstanding(c, e1) by {
      hide StartProcs;
      CalmStartReleaseOutstanding(c, e0, i);
    }
    assert StartProcs(c, e1) by {
      hide StartProcs, ExactOutstanding;
      StartOutcome(c, e, e1, i);
    }
  }

  /** So is a self-terminating one that has cleanly ended meanwhile. */
  lemma CalmStartAcceptEnded(c: Config, e: Engine, i: nat)
    requires Sized(c, e) && CalmStart(c, e) && i < |c.deps| && i in e.starters
    requires i in e.requested && e.starters[i] == 1 && i !in e.released
    requires i in c.selfTerminating && e.procs[i] == Terminated
    ensures CalmStart(c, AttemptOver(ReleaseDependents(c, e, i), i))
  {
    var e1 := AttemptOver(ReleaseDependents(c, e, i), i);
    assert ExactOutstanding(c, e1) by {
      hide StartProcs;
      CalmStartReleaseOutstanding(c, e, i);
    }
    assert StartProcs(c, e1) by {
      hide StartProcs, ExactOutstanding;
      StartOutcome(c, e, e1, i);
    }
  }

  lemma CalmStartOverlook(c: Config, e: Engine, i: nat)
    requires Sized(c, e) && CalmStart(c, e) && i < |c.deps| && i in e.starters
    requires i in e.requested && e.starters[i] == 1 && i !in e.released
    requires Quick(c, i) && e.procs[i] == Terminated
    ensures CalmStart(c, AttemptOver(e, i))
  {
    StartOutcome(c, e, AttemptOver(e, i), i);
  }

  lemma CalmStartLeave(c: Config, e: Engine, i: nat)
    requires Sized(c, e) && CalmStart(c, e) && i in e.leaving
    ensures CalmStart(c, e.(leaving := e.leaving - multiset{i}, done := e.done + multiset{i}))
  {
    var e1 := e.(leaving := e.leaving - multiset{i}, done := e.done + multiset{i});
    assert forall k: nat :: Over(e1, k) <==> Over(e, k);
    assert forall k: nat :: InHand(e1, k) <==> InHand(e, k);
    assert forall k: nat :: RanWell(c, e1, k) <==> RanWell(c, e, k);
  }

  lemma CalmStartExecuted(c: Config, e: Engine, i: nat)
    requires Sized(c, e) && CalmStart(c, e) && e.toExecute > 0 && i in e.done
    ensures CalmStart(c, OneLess(e, i))
  {
    var e1 := OneLess(e, i);
    assert forall k: nat :: Over(e1, k) <==> Over(e, k);
    assert forall k: nat :: InHand(e1, k) <==> InHand(e, k);
    assert forall k: nat :: RanWell(c, e1, k) <==> RanWell(c, e, k);
  }

  /** A self-terminating process ends on its own. */
  lemma CalmStartEnded(c: Config, e: Engine, i: nat)
    requires Sized(c, e) && CalmStart(c, e) && i < |e.procs| && i in c.selfTerminating
    ensures CalmStart(c, ProcessEnded(c, e, i, 0))
  {
    var e1 := ProcessEnded(c, e, i, 0);
    assert forall k: nat :: RanWell(c, e, k) ==> RanWell(c, e1, k);
  }
}
