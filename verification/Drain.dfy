/** What happens after a transition has been aborted or cancelled. */
module Drain {
  import opened States
  import opened Engine
  import opened EngineInvariant
  import opened Runs
  import opened Failures

  /** A graph that has left its transition: `reason` is why it was aborted, `cancelled` whether
      a cancel has arrived while jobs were in flight. */
  ghost predicate Draining(e: Engine, cancelled: bool, reason: Code) {
    match e.state
    case Aborting => !cancelled && e.inFlight > 0 && e.abortCode == reason
    case Cancelled => cancelled && e.inFlight > 0 && e.event == SetStateCancelled
    case Undefined => e.inFlight == 0 && e.event == (if cancelled then SetStateCancelled else reason)
    case _ => false
  }

  ghost predicate CancelsNow(e: Engine, s: Step) {
    s.CancelRequest? && e.state != Undefined
  }

  /** Outside a transition, a step that is neither a completion nor a cancel leaves the graph and
      its number of jobs as they are. */
  lemma QuietStep(c: Config, e: Engine, s: Step)
    requires Sized(c, e) && Enabled(c, e, s)
    requires e.state == Aborting || e.state == Cancelled || e.state == Undefined
    requires !s.Transition? && !s.Executed? && !s.CancelRequest?
    ensures var e1 := Apply(c, e, s);
            e1.state == e.state && e1.inFlight == e.inFlight && e1.event == e.event && e1.abortCode == e.abortCode
  {
    if Works(s) {
      hide Apply, Enabled;
      WorkFrame(c, e, s);
    }
  }

  lemma DrainExecuted(c: Config, e: Engine, i: nat, cancelled: bool, reason: Code)
    requires Inv(c, e) && i in e.done
    requires Draining(e, cancelled, reason)
    ensures var e1 := NodeExecuted(c, e.(done := e.done - multiset{i}), i);
            Draining(e1, cancelled, reason) && e1.inFlight == e.inFlight - 1
  {
    InFlightPositive(e, i);
  }

  lemma DrainCancel(e: Engine, cancelled: bool, reason: Code)
    requires Draining(e, cancelled, reason)
    ensures Draining(Cancel(e), cancelled || e.state != Undefined, reason) && Cancel(e).inFlight == e.inFlight
  {
  }

  /** One step of draining: only a completion lowers the number of jobs in flight, and it does so by
      one; nothing raises it. */
  lemma DrainStep(c: Config, e: Engine, s: Step, cancelled: bool, reason: Code)
    requires Inv(c, e) && Enabled(c, e, s) && !s.Transition?
    requires Draining(e, cancelled, reason)
    ensures Draining(Apply(c, e, s), cancelled || CancelsNow(e, s), reason)
    ensures Apply(c, e, s).inFlight == e.inFlight - (if s.Executed? then 1 else 0)
  {
    if s.Executed? {
      assert Sized(c, e);
      hide Inv, Sized, NodeExecuted;
      DrainExecuted(c, e, s.node, cancelled, reason);
    } else if s.CancelRequest? {
      hide Inv;
      DrainCancel(e, cancelled, reason);
    } else {
      assert Sized(c, e);
      hide Inv, Sized, Apply, Enabled;
      QuietStep(c, e, s);
    }
  }

  /** Whoever picks up a job outside a transition leaves the process alone. */
  lemma DrainProcs(c: Config, e: Engine, s: Step)
    requires Sized(c, e) && Enabled(c, e, s) && e.state != InTransition && s.Begin?
    ensures Apply(c, e, s).procs == e.procs
  {
    StepProcs(c, e, s);
    hide Apply;
  }

  function Completions(steps: seq<Step>): nat {
    if steps == [] then 0 else Completions(steps[..|steps| - 1]) + (if steps[|steps| - 1].Executed? then 1 else 0)
  }

  ghost predicate CancelledWhileDraining(run: seq<Engine>, steps: seq<Step>, a: nat, t: nat)
    requires |run| == |steps| + 1 && t < |run|
  {
    exists u :: a <= u < t && CancelsNow(run[u], steps[u])
  }

  lemma CompletionsStep(steps: seq<Step>, a: nat, t: nat)
    requires a < t <= |steps|
    ensures Completions(steps[a..t]) == Completions(steps[a..t - 1]) + (if steps[t - 1].Executed? then 1 else 0)
  {
    assert steps[a..t][..|steps[a..t]| - 1] == steps[a..t - 1];
  }

  lemma CancelledStep(run: seq<Engine>, steps: seq<Step>, a: nat, t: nat)
    requires |run| == |steps| + 1 && a < t < |run|
    ensures CancelledWhileDraining(run, steps, a, t) <==>
            CancelledWhileDraining(run, steps, a, t - 1) || CancelsNow(run[t - 1], steps[t - 1])
  {
  }

  lemma {:induction false} DrainRun(c: Config, run: seq<Engine>, steps: seq<Step>, a: nat, t: nat, reason: Code)
    requires IsRun(c, run, steps) && Inv(c, run[0]) && a <= t < |run|
    requires SameTransition(steps, a, t)
    requires Draining(run[a], run[a].state == Cancelled, reason) && run[a].state != Undefined
    ensures Draining(run[t], run[a].state == Cancelled || CancelledWhileDraining(run, steps, a, t), reason)
    ensures run[t].inFlight == run[a].inFlight - Completions(steps[a..t])
    decreases t - a
  {
    hide Apply, Enabled, Inv, Sized;
    if t == a {
      assert steps[a..t] == [];
    } else {
      DrainRun(c, run, steps, a, t - 1, reason);
      RunKeepsInv(c, run, steps, t - 1);
      var cancelled := run[a].state == Cancelled || CancelledWhileDraining(run, steps, a, t - 1);
      assert StepAt(c, run, steps, t - 1);
      DrainStep(c, run[t - 1], steps[t - 1], cancelled, reason);
      CompletionsStep(steps, a, t);
      CancelledStep(run, steps, a, t);
    }
  }

  /** What is promised of a graph that is draining at time `t`, with `jobs` in flight at time `a`: it stays out of its
      transition, it is undefined exactly when no job is in flight, every completion takes one job away and
      nothing adds one, and whoever picks up a job leaves the process alone. */
  ghost predicate Drains(c: Config, run: seq<Engine>, steps: seq<Step>, a: nat, t: nat, jobs: int)
    requires |run| == |steps| + 1 && a <= t < |run|
  {
    && (run[t].state == Aborting || run[t].state == Cancelled || run[t].state == Undefined)
    && (run[t].state == Undefined <==> run[t].inFlight == 0)
    && run[t].inFlight == jobs - Completions(steps[a..t])
    && (t < |steps| && steps[t].Begin? ==> run[t + 1].procs == run[t].procs)
  }

  lemma DrainsAt(c: Config, run: seq<Engine>, steps: seq<Step>, a: nat, t: nat, reason: Code)
    requires IsRun(c, run, steps) && Inv(c, run[0]) && a <= t < |run| && SameTransition(steps, a, t)
    requires Draining(run[a], run[a].state == Cancelled, reason) && run[a].state != Undefined
    ensures Drains(c, run, steps, a, t, run[a].inFlight)
    ensures Draining(run[t], run[a].state == Cancelled || CancelledWhileDraining(run, steps, a, t), reason)
  {
    hide Apply, Enabled, Inv, Sized, CancelledWhileDraining;
    DrainRun(c, run, steps, a, t, reason);
    if t < |steps| && steps[t].Begin? {
      assert StepAt(c, run, steps, t);
      DrainProcs(c, run[t], steps[t]);
    }
  }

  /** After a failing start or the noticed end of a process has aborted a transition that has a job in flight, the graph
      drains, and the event left for the control client is the cancellation if a cancel arrived before the graph was
      undefined, and otherwise the reason of the first abort. */
  lemma AbortDrains(c: Config, run: seq<Engine>, steps: seq<Step>, a: nat, t: nat)
    requires IsWholeRun(c, run, steps) && a < t < |run| && SameTransition(steps, a, t)
    requires run[a].state == InTransition && run[a].inFlight > 0 && Raises(c, run[a], steps[a])
    ensures run[a + 1].state == Aborting && run[a + 1].abortCode == Reason(steps[a])
    ensures Drains(c, run, steps, a + 1, t, run[a].inFlight)
    ensures run[t].state == Undefined ==>
              run[t].event == if CancelledWhileDraining(run, steps, a + 1, t) then SetStateCancelled else Reason(steps[a])
  {
    hide Inv, Apply, Enabled, Raises;
    AbortsExactly(c, run, steps, a);
    InitialInv(c);
    DrainsAt(c, run, steps, a + 1, t, Reason(steps[a]));
  }

  /** A transition that hangs has no job in flight. If it is aborted, by the end of a process, it stays that way until somebody
      cancels it. */
  lemma {:induction false} AbortWithoutJobs(c: Config, run: seq<Engine>, steps: seq<Step>, a: nat, t: nat)
    requires IsWholeRun(c, run, steps) && a < t < |run| && SameTransition(steps, a, t)
    requires run[a].state == InTransition && run[a].inFlight == 0 && Raises(c, run[a], steps[a])
    ensures run[t].inFlight == 0 && run[t].abortCode == Reason(steps[a])
    ensures if CancelledWhileDraining(run, steps, a + 1, t) then run[t].state == Undefined && run[t].event == SetStateCancelled
            else run[t].state == Aborting && run[t].event == run[a + 1].event
    decreases t
  {
    hide Inv, Apply, Enabled, Raises, CancelsNow;
    if t == a + 1 {
      AbortsExactly(c, run, steps, a);
    } else {
      AbortWithoutJobs(c, run, steps, a, t - 1);
      InitialInv(c);
      RunKeepsInv(c, run, steps, t - 1);
      assert StepAt(c, run, steps, t - 1);
      StuckStep(c, run[t - 1], steps[t - 1]);
      CancelledStep(run, steps, a + 1, t);
    }
  }

  lemma StuckStep(c: Config, e: Engine, s: Step)
    requires Inv(c, e) && Enabled(c, e, s) && !s.Transition? && e.inFlight == 0 && (e.state == Aborting || e.state == Undefined)
    ensures var e1 := Apply(c, e, s);
            && e1.inFlight == 0 && e1.abortCode == e.abortCode
            && (CancelsNow(e, s) ==> e1.state == Undefined && e1.event == SetStateCancelled)
            && (!CancelsNow(e, s) ==> e1.state == e.state && e1.event == e.event)
  {
    assert Sized(c, e);
    hide Inv, Enabled;
    if s.Executed? {
      NobodyWorksInSuccess(c, e, s);
    } else if !s.CancelRequest? {
      hide Apply;
      QuietStep(c, e, s);
    }
  }

  /** After a cancel of a transition, or of one that is being aborted, with a job in flight: the same, with the
      cancellation as the event from then on. */
  lemma CancelDrains(c: Config, run: seq<Engine>, steps: seq<Step>, a: nat, t: nat)
    requires IsWholeRun(c, run, steps) && a < t < |run| && steps[a] == CancelRequest
    requires (run[a].state == InTransition || run[a].state == Aborting) && run[a].inFlight > 0
    requires SameTransition(steps, a, t)
    ensures run[a + 1].state == Cancelled
    ensures Drains(c, run, steps, a + 1, t, run[a].inFlight)
    ensures run[t].event == SetStateCancelled
  {
    InitialInv(c);
    RunKeepsInv(c, run, steps, a);
    assert StepAt(c, run, steps, a);
    CancelStep(c, run[a]);
    hide Inv, Apply, Enabled;
    DrainsAt(c, run, steps, a + 1, t, run[a + 1].abortCode);
  }

  /** A cancel makes the graph cancelled with the cancellation as its event, or, when no job is in
      flight, undefined at once. A graph that is in no transition becomes undefined, without an event. */
  lemma CancelStep(c: Config, e: Engine)
    requires Inv(c, e)
    ensures Cancel(e).state == if e.inFlight > 0 then Cancelled else Undefined
    ensures Cancel(e).event == if e.state == Success || e.state == Undefined then e.event else SetStateCancelled
    ensures Cancel(e) == e.(state := Cancel(e).state, event := Cancel(e).event)
  {
  }
}
