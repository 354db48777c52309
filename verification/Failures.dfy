/** What the failure of a start and the end of a process do to their group, in every run. */
module Failures {
  import opened States
  import opened Engine
  import opened EngineInvariant
  import opened Runs

  /** The steps that are more than a worker going about its job. */
  lemma OtherSteps(c: Config, e: Engine, s: Step)
    requires Sized(c, e) && Enabled(c, e, s)
    ensures s.Transition? ==> Apply(c, e, s) == StartTransition(c, e, s.indexes) && (e.state == Success || e.state == Undefined)
    ensures s.Executed? ==> s.node in e.done && Apply(c, e, s) == NodeExecuted(c, e.(done := e.done - multiset{s.node}), s.node)
    ensures s.Ended? ==> s.node < |e.procs| && e.procs[s.node] != Idle && Apply(c, e, s) == ProcessEnded(c, e, s.node, s.status)
    ensures s.FailStart? ==> Apply(c, e, s) == Abort(e, s.reason)
    ensures s.CancelRequest? ==> Apply(c, e, s) == Cancel(e)
  {
    hide StartTransition, NodeExecuted, ProcessEnded, Abort, Cancel;
  }

  // ---- The end of a process ----

  /** Only a self-terminating process may end, and only with status zero. */
  predicate Unexpected(c: Config, i: nat, status: int) {
    i !in c.selfTerminating || status != 0
  }

  /** The group takes notice of the end: it is unexpected, nothing is being stopped, and the group is in a defined state
      or in a transition in which the process had been started. A worker that is still starting the process finds out by
      itself. */
  ghost predicate Noticed(c: Config, e: Engine, i: nat, status: int)
    requires i < |e.procs|
  {
    && Unexpected(c, i, status) && e.starting
    && (e.state == Success || (e.state == InTransition && e.procs[i] != Starting))
  }

  /** In every run the end of a process changes the state of its group exactly when it is noticed: a defined state
      becomes undefined, and a transition is aborted, each with its reason. It is on record whether the end was
      unexpected; nothing else changes. */
  lemma EndOfProcess(c: Config, run: seq<Engine>, steps: seq<Step>, t: nat)
    requires IsWholeRun(c, run, steps) && t < |steps| && steps[t].Ended?
    ensures var e, e1, i, status := run[t], run[t + 1], steps[t].node, steps[t].status;
            && i < |e.procs|
            && (e1.state != e.state <==> Noticed(c, e, i, status))
            && (Noticed(c, e, i, status) && e.state == Success ==>
                  e1.state == Undefined && e1.abortCode == FailedUnexpectedTermination)
            && (Noticed(c, e, i, status) && e.state == InTransition ==>
                  e1.state == Aborting && e1.abortCode == FailedUnexpectedTerminationOnEnter)
            && (!Noticed(c, e, i, status) ==> e1.abortCode == e.abortCode)
            && (i in e1.failed <==> Unexpected(c, i, status))
            && e1 == e.(state := e1.state, abortCode := e1.abortCode, procs := e.procs[i := Terminated],
                        failed := if Unexpected(c, i, status) then e.failed + {i} else e.failed - {i})
  {
    assert StepAt(c, run, steps, t);
  }

  /** Success comes from a start phase, except that a fresh group, in which nothing runs, counts as successful. */
  ghost predicate SuccessByStart(e: Engine) {
    e.state == Success ==> e.starting || forall i :: 0 <= i < |e.procs| ==> e.procs[i] == Idle
  }

  lemma StartsToSuccess(c: Config, e: Engine)
    requires Sized(c, e)
    ensures QueueStartJobs(c, e).starting
  {
  }

  lemma SuccessByStartStep(c: Config, e: Engine, s: Step)
    requires Inv(c, e) && Enabled(c, e, s) && SuccessByStart(e)
    ensures SuccessByStart(Apply(c, e, s))
  {
    assert Sized(c, e);
    hide Inv, Enabled, Apply, Sized, StartTransition, NodeExecuted, ProcessEnded, Abort, Cancel;
    OtherSteps(c, e, s);
    if Works(s) {
      NobodyWorksInSuccess(c, e, s);
      WorkFrame(c, e, s);
    } else if s.Transition? {
      TransitionSucceedsByStart(c, e, s.indexes);
    } else if s.Executed? {
      CompletionSucceedsByStart(c, e, s.node);
    } else {
      FailuresDoNotSucceed(c, e);
    }
  }

  lemma FailuresDoNotSucceed(c: Config, e: Engine)
    ensures Cancel(e).state != Success && forall reason :: Abort(e, reason).state != Success
    ensures forall i: nat, status :: i < |e.procs| && ProcessEnded(c, e, i, status).state == Success ==>
              e.state == Success && ProcessEnded(c, e, i, status).starting == e.starting
  {
  }

  /** In a settled group no worker has anything to do. */
  lemma NobodyWorksInSuccess(c: Config, e: Engine, s: Step)
    requires Inv(c, e) && Enabled(c, e, s) && (Works(s) || s.Executed? || s.FailStart?)
    ensures e.state != Success && e.state != Undefined && e.inFlight > 0
  {
    InFlightPositive(e, s.node);
  }

  lemma TransitionSucceedsByStart(c: Config, e: Engine, indexes: seq<nat>)
    requires Sized(c, e) && (e.state == Success || e.state == Undefined)
    ensures var e1 := StartTransition(c, e, indexes); e1.state == InTransition || e1.starting
  {
    hide QueueStartJobs;
    var e0 := e.(state := InTransition, requested := set i | i in indexes && i < |c.deps|);
    StartsToSuccess(c, QueueHeadNodes(c, e0, false));
  }

  lemma CompletionSucceedsByStart(c: Config, e: Engine, i: nat)
    requires Inv(c, e) && i in e.done
    ensures var e1 := NodeExecuted(c, e.(done := e.done - multiset{i}), i); e1.state == Success ==> e1.starting
  {
    InFlightPositive(e, i);
    if e.state == InTransition {
      assert Sized(c, e);
      hide Inv, NodeExecuted, QueueStartJobs;
      CompletionInPhase(c, e, i);
      StartsToSuccess(c, OneLess(e, i));
    }
  }

  lemma {:induction false} SuccessByStartInRun(c: Config, run: seq<Engine>, steps: seq<Step>, t: nat)
    requires IsWholeRun(c, run, steps) && t < |run|
    ensures Inv(c, run[t]) && SuccessByStart(run[t])
  {
    hide Apply, Enabled, SuccessByStart, Inv;
    if t == 0 {
      InitialInv(c);
      assert SuccessByStart(Initial(c)) by { FreshSuccess(c); }
    } else {
      SuccessByStartInRun(c, run, steps, t - 1);
      assert StepAt(c, run, steps, t - 1);
      SuccessByStartStep(c, run[t - 1], steps[t - 1]);
      StepInv(c, run[t - 1], steps[t - 1]);
    }
  }

  lemma FreshSuccess(c: Config)
    ensures SuccessByStart(Initial(c))
  {
  }

  /** In a defined state every unexpected end of a process is noticed: the group is undefined from then on, and stays as it is
      exactly when a self-terminating process ended well. */
  lemma EndInDefinedState(c: Config, run: seq<Engine>, steps: seq<Step>, t: nat)
    requires IsWholeRun(c, run, steps) && t < |steps| && steps[t].Ended? && run[t].state == Success
    ensures run[t + 1].state == if Unexpected(c, steps[t].node, steps[t].status) then Undefined else Success
    ensures Unexpected(c, steps[t].node, steps[t].status) ==> run[t + 1].abortCode == FailedUnexpectedTermination
  {
    SuccessByStartInRun(c, run, steps, t);
    assert StepAt(c, run, steps, t);
    EndOfProcess(c, run, steps, t);
  }

  // ---- The failure of a start ----

  /** In every run a start that fails in a transition aborts it, with its reason. Before that the group was in its
      transition or had left it, and nothing else changes. */
  lemma FailureOfStart(c: Config, run: seq<Engine>, steps: seq<Step>, t: nat)
    requires IsWholeRun(c, run, steps) && t < |steps| && steps[t].FailStart?
    ensures run[t].inFlight > 0 && (run[t].state == InTransition || Left(run[t].state))
    ensures run[t + 1] ==
            if run[t].state == InTransition then run[t].(state := Aborting, abortCode := steps[t].reason) else run[t]
  {
    InitialInv(c);
    RunKeepsInv(c, run, steps, t);
    assert StepAt(c, run, steps, t);
    NobodyWorksInSuccess(c, run[t], steps[t]);
  }

  /** The step aborts the transition: a start fails, or the end of a process is noticed. */
  ghost predicate Raises(c: Config, e: Engine, s: Step) {
    s.FailStart? || (s.Ended? && s.node < |e.procs| && Noticed(c, e, s.node, s.status))
  }

  ghost function Reason(s: Step): Code {
    if s.FailStart? then s.reason else FailedUnexpectedTerminationOnEnter
  }

  /** A transition is aborted exactly by these steps, each with its reason, and its jobs stay in flight. */
  lemma AbortsExactly(c: Config, run: seq<Engine>, steps: seq<Step>, t: nat)
    requires IsWholeRun(c, run, steps) && t < |steps| && run[t].state == InTransition
    ensures run[t + 1].state == Aborting <==> Raises(c, run[t], steps[t])
    ensures Raises(c, run[t], steps[t]) ==>
              run[t + 1].abortCode == Reason(steps[t]) && run[t + 1].inFlight == run[t].inFlight
  {
    InitialInv(c);
    RunKeepsInv(c, run, steps, t);
    assert StepAt(c, run, steps, t);
    if steps[t].FailStart? {
      FailureOfStart(c, run, steps, t);
    } else if steps[t].Ended? {
      EndOfProcess(c, run, steps, t);
    } else {
      NoAbort(c, run[t], steps[t]);
    }
  }

  lemma NoAbort(c: Config, e: Engine, s: Step)
    requires Inv(c, e) && Enabled(c, e, s) && e.state == InTransition && !s.FailStart? && !s.Ended?
    ensures Apply(c, e, s).state != Aborting
  {
    assert Sized(c, e);
    hide Apply, Enabled, Inv;
    OtherSteps(c, e, s);
    if Works(s) {
      WorkFrame(c, e, s);
    } else if s.Executed? {
      hide NodeExecuted;
      ExecutedState(c, e, s.node);
    }
  }

  lemma ExecutedState(c: Config, e: Engine, i: nat)
    requires Inv(c, e) && i in e.done && e.state == InTransition
    ensures var e1 := NodeExecuted(c, e.(done := e.done - multiset{i}), i);
            e1.state == InTransition || e1.state == Success
  {
  }

  // ---- No success after a failure ----

  /** The part of a run from `a` to `t` holds no new transition. */
  ghost predicate SameTransition(steps: seq<Step>, a: nat, t: nat)
    requires t <= |steps|
  {
    forall u :: a <= u < t ==> !steps[u].Transition?
  }

  /** The group is not, and will not without a new transition be, in a defined state. */
  predicate Over(s: GraphState) {
    Left(s) || s == Undefined
  }

  lemma OverStep(c: Config, e: Engine, s: Step)
    requires Sized(c, e) && Enabled(c, e, s) && Over(e.state) && !s.Transition?
    ensures Over(Apply(c, e, s).state)
  {
    hide Apply, Enabled, Sized, NodeExecuted, ProcessEnded, Abort, Cancel;
    OtherSteps(c, e, s);
    if Works(s) {
      WorkFrame(c, e, s);
    } else if s.Executed? {
      OverCompletion(c, e, s.node);
    } else {
      StaysOver(c, e);
    }
  }

  lemma OverCompletion(c: Config, e: Engine, i: nat)
    requires Sized(c, e) && Over(e.state)
    ensures Over(NodeExecuted(c, e.(done := e.done - multiset{i}), i).state)
  {
  }

  lemma StaysOver(c: Config, e: Engine)
    requires Over(e.state)
    ensures Over(Cancel(e).state) && forall reason :: Abort(e, reason) == e
    ensures forall i: nat, status :: i < |e.procs| ==> ProcessEnded(c, e, i, status).state == e.state
  {
  }

  lemma {:induction false} OverInRun(c: Config, run: seq<Engine>, steps: seq<Step>, a: nat, t: nat)
    requires IsRun(c, run, steps) && a <= t < |run| && Over(run[a].state) && SameTransition(steps, a, t)
    ensures Over(run[t].state)
    decreases t
  {
    hide Apply, Enabled, Over;
    if a < t {
      OverInRun(c, run, steps, a, t - 1);
      assert StepAt(c, run, steps, t - 1);
      OverStep(c, run[t - 1], steps[t - 1]);
    }
  }

  /** A transition in which a start failed, or in which the end of a process was noticed, is never successful, whatever
      else happens. */
  lemma FailureExcludesSuccess(c: Config, run: seq<Engine>, steps: seq<Step>, a: nat, t: nat)
    requires IsWholeRun(c, run, steps) && a < t < |run| && SameTransition(steps, a, t)
    requires Raises(c, run[a], steps[a])
    ensures run[t].state != Success && run[t].state != InTransition
  {
    if steps[a].FailStart? {
      FailureOfStart(c, run, steps, a);
    } else {
      EndOfProcess(c, run, steps, a);
    }
    OverInRun(c, run, steps, a + 1, t);
  }
}
