/** The life of a process and of its recorded status over whole runs, and what a phase has done when it is complete. */
module Lifecycle {
  import opened States
  import opened Engine
  import opened EngineInvariant
  import opened Runs
  import opened StopOrder
  import opened Failures

  predicate Alive(s: ProcessState) {
    s == Starting || s == Running || s == Terminating
  }

  // ---- What a phase covers ----

  /** In a stop phase every process that is alive and not requested takes part, and nobody takes part who was never started. */
  ghost predicate StopCovers(procs: seq<ProcessState>, requested: set<nat>, included: set<nat>) {
    && (forall i: nat :: i < |procs| && i in included ==> procs[i] != Idle)
    && forall i: nat :: i < |procs| && i !in requested && Alive(procs[i]) ==> i in included
  }

  /** Whoever is not requested and has not been told to terminate has a job that no worker has begun. */
  ghost predicate Untold(e: Engine) {
    forall i: nat :: i < |e.procs| && i !in e.requested && (e.procs[i] == Starting || e.procs[i] == Running) ==>
      i !in e.stoppers && i !in e.done && i !in e.executed
  }

  ghost predicate Covers(e: Engine) {
    if e.starting then e.requested - e.included <= e.released
    else StopCovers(e.procs, e.requested, e.included) && (e.state == InTransition ==> Untold(e))
  }

  lemma PhaseCovers(c: Config, e: Engine, start: bool)
    requires Sized(c, e) && JobCount(e) == 0
    ensures Covers(QueueHeadNodes(c, e, start))
  {
    var e1 := QueueHeadNodes(c, e, start);
    assert e.stoppers == e.done == multiset{};
  }

  lemma TransitionCovers(c: Config, e: Engine, indexes: seq<nat>)
    requires Inv(c, e) && (e.state == Success || e.state == Undefined)
    ensures Covers(StartTransition(c, e, indexes))
  {
    var e0 := e.(state := InTransition, requested := set i | i in indexes && i < |c.deps|);
    assert Sized(c, e) && JobCount(e) == 0;
    hide Inv, QueueHeadNodes, QueueStartJobs, StartTransition, Covers;
    TransitionBegins(c, e, indexes);
    PhaseCovers(c, e0, false);
    if QueueHeadNodes(c, e0, false).inFlight <= 0 {
      StartJobsCover(c, QueueHeadNodes(c, e0, false));
    }
  }

  lemma TransitionBegins(c: Config, e: Engine, indexes: seq<nat>)
    requires Sized(c, e) && JobCount(e) == 0 && (e.state == Success || e.state == Undefined)
    ensures var e0 := e.(state := InTransition, requested := set i | i in indexes && i < |c.deps|);
            && Sized(c, e0) && JobCount(e0) == 0 && Sized(c, QueueHeadNodes(c, e0, false))
            && (QueueHeadNodes(c, e0, false).inFlight <= 0 ==> JobCount(QueueHeadNodes(c, e0, false)) == 0)
            && StartTransition(c, e, indexes) ==
               if QueueHeadNodes(c, e0, false).inFlight > 0 then QueueHeadNodes(c, e0, false)
               else QueueStartJobs(c, QueueHeadNodes(c, e0, false))
  {
    var e0 := e.(state := InTransition, requested := set i | i in indexes && i < |c.deps|);
    NoneQueued(c, e0);
    hide QueueHeadNodes, QueueStartJobs, Sized, JobCount;
  }

  lemma NoneQueued(c: Config, e: Engine)
    requires Sized(c, e) && JobCount(e) == 0
    ensures var e1 := QueueHeadNodes(c, e, false); Sized(c, e1) && (e1.inFlight <= 0 ==> JobCount(e1) == 0)
  {
  }

  lemma StartJobsCover(c: Config, e: Engine)
    requires Sized(c, e) && JobCount(e) == 0
    ensures Covers(QueueStartJobs(c, e)) && QueueStartJobs(c, e).starting
  {
    PhaseCovers(c, e, true);
  }

  lemma CompletionCovers(c: Config, e: Engine, i: nat)
    requires Inv(c, e) && i in e.done && Covers(e)
    ensures Covers(NodeExecuted(c, e.(done := e.done - multiset{i}), i))
  {
    assert Sized(c, e) && (e.state == InTransition ==> e.toExecute > 0);
    hide Inv, NodeExecuted, QueueStartJobs, OnceEach, PhaseJobs, JobCount, Sized;
    if e.state == InTransition {
      ExecutedInTransition(c, e, i);
      CompletionInPhase(c, e, i);
      OneLessCovers(e, i);
      if e.toExecute == 1 && !e.starting {
        AllExecuted(c, OneLess(e, i));
        hide Covers;
        StartJobsCover(c, OneLess(e, i));
      }
    } else {
      LeftCompletion(c, e, i);
    }
  }

  lemma OneLessCovers(e: Engine, i: nat)
    requires Covers(e) && i in e.done && e.toExecute > 0
    ensures Covers(OneLess(e, i))
  {
    assert forall k :: k in OneLess(e, i).done ==> k in e.done;
  }

  lemma LeftCompletion(c: Config, e: Engine, i: nat)
    requires Sized(c, e) && e.state != InTransition && Covers(e)
    ensures Covers(NodeExecuted(c, e.(done := e.done - multiset{i}), i))
  {
  }

  /** A worker's steps in a stop phase, seen from the nodes that have been begun. */
  lemma BegunNodes(c: Config, e: Engine, s: Step)
    requires Sized(c, e) && Enabled(c, e, s) && !e.starting && (s.Begin? || s.FinishStop?) && e.state == InTransition
    ensures var e1 := Apply(c, e, s);
            forall k: nat :: k in e1.stoppers || k in e1.done ==> k in e.stoppers || k in e.done || (s.Begin? && k == s.node)
  {
    match s
    case Begin(i) =>
      hide BeginWork;
      WorkBegins(e, i);
    case FinishStop(i) =>
      hide ReleaseDependencies;
      ReleaseEffect(c, e, i);
  }

  lemma StopWorkCovers(c: Config, e: Engine, s: Step)
    requires Inv(c, e) && Enabled(c, e, s) && !e.starting && (s.Begin? || s.FinishStop?) && Covers(e)
    ensures Covers(Apply(c, e, s))
  {
    assert Sized(c, e) && s.node < |e.procs|;
    hide Inv, Apply, Enabled, Sized, Covers;
    if s.Begin? {
      BegunIncluded(c, e, s);
    }
    WorkFrame(c, e, s);
    StepProcs(c, e, s);
    if e.state == InTransition {
      BegunNodes(c, e, s);
    }
    StopWorkFrame(e, Apply(c, e, s), s);
  }

  lemma StopWorkFrame(e: Engine, e1: Engine, s: Step)
    requires Covers(e) && !e.starting && SameGraph(e, e1) && (s.Begin? || s.FinishStop?)
    requires s.Begin? ==> s.node in e.included && s.node < |e.procs|
    requires e1.procs == NextProcs(e, s)
    requires e.state == InTransition ==>
               forall k: nat :: k in e1.stoppers || k in e1.done ==> k in e.stoppers || k in e.done || (s.Begin? && k == s.node)
    ensures Covers(e1)
  {
  }

  lemma BegunIncluded(c: Config, e: Engine, s: Step)
    requires Inv(c, e) && Enabled(c, e, s) && s.Begin?
    ensures s.node in e.included && s.node < |e.procs|
  {
    assert Load(e, s.node) >= 1;
  }

  lemma CoversStep(c: Config, e: Engine, s: Step)
    requires Inv(c, e) && Enabled(c, e, s) && Covers(e)
    ensures Covers(Apply(c, e, s))
  {
    assert Sized(c, e);
    hide Inv, Apply, Enabled, Covers;
    OtherSteps(c, e, s);
    if s.Transition? {
      TransitionCovers(c, e, s.indexes);
    } else if s.Executed? {
      CompletionCovers(c, e, s.node);
    } else if e.starting {
      StartCoversStep(c, e, s);
    } else {
      StopPhaseSteps(c, e, s);
      if s.Ended? {
        EndCovers(c, e, s.node, s.status);
      } else if s.CancelRequest? {
        CancelCovers(e);
      } else {
        StopWorkCovers(c, e, s);
      }
    }
  }

  lemma StartCoversStep(c: Config, e: Engine, s: Step)
    requires Sized(c, e) && Enabled(c, e, s) && Covers(e) && e.starting && !s.Transition? && !s.Executed?
    ensures Covers(Apply(c, e, s))
  {
    hide Apply, Enabled, Sized;
    OtherSteps(c, e, s);
    if Works(s) {
      WorkFrame(c, e, s);
    }
  }

  lemma EndCovers(c: Config, e: Engine, i: nat, status: int)
    requires Covers(e) && !e.starting && i < |e.procs| && e.procs[i] != Idle
    ensures Covers(ProcessEnded(c, e, i, status))
  {
  }

  lemma CancelCovers(e: Engine)
    requires Covers(e) && !e.starting
    ensures Covers(Cancel(e))
  {
  }

  lemma {:induction false} CoversInRun(c: Config, run: seq<Engine>, steps: seq<Step>, t: nat)
    requires IsWholeRun(c, run, steps) && t < |run|
    ensures Inv(c, run[t]) && Covers(run[t])
  {
    hide Apply, Enabled, Inv;
    if t == 0 {
      InitialInv(c);
    } else {
      hide Covers;
      CoversInRun(c, run, steps, t - 1);
      assert StepAt(c, run, steps, t - 1);
      CoversStep(c, run[t - 1], steps[t - 1]);
      StepInv(c, run[t - 1], steps[t - 1]);
    }
  }

  /** In every run, failures or not: when a stop phase is completed and the start phase begins, every process that is
      alive and not requested has had its job done, and none of them is starting or running any more. */
  lemma StopPhaseIsComplete(c: Config, run: seq<Engine>, steps: seq<Step>, t: nat, i: nat)
    requires IsWholeRun(c, run, steps) && t < |steps| && steps[t].Executed?
    requires run[t].state == InTransition && !run[t].starting && run[t + 1].starting
    requires i < |run[t].procs| && i !in run[t].requested
    ensures run[t + 1].procs == run[t].procs && run[t + 1].requested == run[t].requested
    ensures Alive(run[t].procs[i]) ==> i in run[t].executed || steps[t] == Executed(i)
    ensures run[t].procs[i] != Starting && run[t].procs[i] != Running
  {
    CoversInRun(c, run, steps, t);
    assert StepAt(c, run, steps, t);
    LastCompletion(c, run[t], steps[t].node);
    StepProcs(c, run[t], steps[t]);
  }

  lemma LastCompletion(c: Config, e: Engine, i: nat)
    requires Inv(c, e) && i in e.done && e.state == InTransition && !e.starting
    requires NodeExecuted(c, e.(done := e.done - multiset{i}), i).starting
    ensures e.executed + {i} == e.included && NodeExecuted(c, e.(done := e.done - multiset{i}), i).requested == e.requested
  {
    ExecutedInTransition(c, e, i);
    var e1 := OneLess(e, i);
    assert Sized(c, e) && e.toExecute > 0;
    hide Inv;
    if e1.toExecute == 0 {
      AllExecuted(c, e1);
    }
  }

  /** When a start phase is completed, every requested process has had its job done or let its dependents go, if only by
      running when the phase began. */
  lemma StartPhaseIsComplete(c: Config, run: seq<Engine>, steps: seq<Step>, t: nat)
    requires IsWholeRun(c, run, steps) && t < |steps| && steps[t].Executed?
    requires run[t].state == InTransition && run[t].starting && run[t + 1].state == Success
    ensures run[t + 1].requested <= run[t + 1].executed + run[t + 1].released
  {
    CompletionAnnouncesSuccessOnlyWhenAllExecuted(c, run, steps, t);
    CoversInRun(c, run, steps, t + 1);
    assert StepAt(c, run, steps, t);
    hide Inv, Enabled;
  }

  // ---- The states of a process ----

  /** The changes that the state of a process can make. */
  predicate Moves(from: ProcessState, to: ProcessState) {
    match from
    case Idle => to == Starting
    case Starting => to == Running || to == Terminating || to == Terminated
    case Running => to == Terminating || to == Terminated
    case Terminating => to == Terminated
    case Terminated => to == Starting
  }

  /** A worker begins to start the process, or makes another attempt. */
  ghost predicate Starts(e: Engine, s: Step, i: nat)
    requires i < |e.procs|
  {
    s == Respawn(i) || (s == Begin(i) && e.state == InTransition && e.starting && !Alive(e.procs[i]))
  }

  /** A worker begins to stop the process, or gives up on starting it. */
  ghost predicate Stops(e: Engine, s: Step, i: nat)
    requires i < |e.procs|
  {
    s == KillStarting(i) || (s == Begin(i) && e.state == InTransition && !e.starting && Alive(e.procs[i]))
  }

  /** Process `i` came from its state to `to` by a change that there is, for its own reason. */
  ghost predicate Caused(e: Engine, s: Step, i: nat, to: ProcessState)
    requires i < |e.procs|
  {
    var from := e.procs[i];
    && (to == from || Moves(from, to))
    && (Starts(e, s, i) ==> to == Starting) && (to == Starting && from != Starting ==> Starts(e, s, i))
    && (Stops(e, s, i) ==> to == Terminating) && (to == Terminating && from != Terminating ==> Stops(e, s, i))
    && (to == Running && from != Running <==> s == ReportRunning(i))
    && (to == Terminated && from != Terminated <==> s.Ended? && s.node == i)
  }

  lemma ProcessStep(c: Config, e: Engine, s: Step, i: nat)
    requires Inv(c, e) && Covers(e) && Enabled(c, e, s) && i < |e.procs|
    ensures i < |Apply(c, e, s).procs| && Caused(e, s, i, Apply(c, e, s).procs[i])
  {
    assert Sized(c, e);
    hide Inv, Apply, Enabled, Sized, Untold, Caused;
    StepProcs(c, e, s);
    EnabledProcs(c, e, s);
    if s.Begin? {
      BegunIncluded(c, e, s);
    }
    assert s.Begin? && !e.starting ==> e.procs[s.node] != Idle;
    NextCaused(c, e, s, i);
  }

  lemma NextCaused(c: Config, e: Engine, s: Step, i: nat)
    requires s.Begin? || s.Respawn? || s.KillStarting? || s.ReportRunning? || s.Ended? ==> s.node < |e.procs|
    requires s.KillStarting? || s.ReportRunning? ==> e.procs[s.node] == Starting
    requires s.Respawn? ==> e.procs[s.node] == Terminated
    requires s.Ended? ==> Alive(e.procs[s.node])
    requires s.Begin? && !e.starting ==> e.procs[s.node] != Idle
    requires i < |e.procs|
    ensures |NextProcs(e, s)| == |e.procs| && Caused(e, s, i, NextProcs(e, s)[i])
  {
  }

  lemma EnabledProcs(c: Config, e: Engine, s: Step)
    requires Enabled(c, e, s)
    ensures s.Begin? || s.Respawn? || s.KillStarting? || s.ReportRunning? || s.Ended? ==> s.node < |e.procs|
    ensures s.KillStarting? || s.ReportRunning? ==> e.procs[s.node] == Starting
    ensures s.Respawn? ==> e.procs[s.node] == Terminated
    ensures s.Ended? ==> Alive(e.procs[s.node])
  {
  }

  /** In every run the state of a process changes only in these ways, and each change has exactly its cause: it is
      starting because a worker began to start it, running because it reported so, terminating because a worker began to
      stop or kill it, and terminated because its end was reported. */
  lemma ProcessLife(c: Config, run: seq<Engine>, steps: seq<Step>, t: nat, i: nat)
    requires IsWholeRun(c, run, steps) && t < |steps| && i < |run[t].procs|
    ensures i < |run[t + 1].procs| && Caused(run[t], steps[t], i, run[t + 1].procs[i])
  {
    CoversInRun(c, run, steps, t);
    assert StepAt(c, run, steps, t);
    hide Inv, Apply, Enabled, Covers, Caused;
    ProcessStep(c, run[t], steps[t], i);
  }

  /** A process is in the running state exactly when its worker has reported so and it has been in that state ever since. */
  lemma {:induction false} RunningMeansReported(c: Config, run: seq<Engine>, steps: seq<Step>, t: nat, i: nat)
    requires IsWholeRun(c, run, steps) && t < |run| && i < |c.deps|
    ensures run[t].procs[i] == Running <==> exists u: nat :: ReportedAt(run, steps, i, u, t)
  {
    hide Apply, Enabled, Moves, Starts, Stops;
    if t > 0 {
      RunningMeansReported(c, run, steps, t - 1, i);
      ProcessLife(c, run, steps, t - 1, i);
      if steps[t - 1] == ReportRunning(i) {
        assert ReportedAt(run, steps, i, t - 1, t);
      } else if run[t].procs[i] == Running {
        var u: nat :| ReportedAt(run, steps, i, u, t - 1);
        assert ReportedAt(run, steps, i, u, t);
      }
    }
  }

  ghost predicate ReportedAt(run: seq<Engine>, steps: seq<Step>, i: nat, u: nat, t: nat) {
    && u < t < |run| && u < |steps| && steps[u] == ReportRunning(i)
    && forall v :: u < v <= t ==> i < |run[v].procs| && run[v].procs[i] == Running
  }

  // ---- The job of a node ----

  /** The step ends an attempt to start the process. */
  predicate EndsAttempt(s: Step, i: nat) {
    s == ReportRunning(i) || s == ReportEnded(i) || s == GiveUp(i)
  }

  /** Where the job of node `i` is after the step: what brings it into each stage, and what takes it out again. */
  ghost predicate JobMoved(e: Engine, s: Step, e1: Engine, i: nat)
    requires i < |e.procs|
  {
    && (i in e1.starters <==> Starts(e, s, i) || (i in e.starters && !EndsAttempt(s, i)))
    && (i in e1.leaving <==> EndsAttempt(s, i) || (i in e.leaving && s != Respawn(i) && s != LeaveStart(i)))
    && (i in e1.stoppers <==>
        (s == Begin(i) && e.state == InTransition && !e.starting) || (i in e.stoppers && s != FinishStop(i)))
    && (i in e1.done <==>
        || s == LeaveStart(i) || s == FinishStop(i)
        || (s == Begin(i) && (e.state != InTransition || (e.starting && Alive(e.procs[i]))))
        || (i in e.done && s != Executed(i)))
    && (i in e.queued ==> (i !in e1.queued <==> s == Begin(i)))
  }

  /** No two jobs of one node. */
  ghost predicate Single(e: Engine, i: nat) {
    e.queued[i] + e.starters[i] + e.leaving[i] + e.stoppers[i] + e.done[i] <= 1
  }

  lemma ReleasesJobs(c: Config, e: Engine, k: nat)
    requires Sized(c, e) && k < |c.deps|
    ensures var e1 := ReleaseDependents(c, e, k);
            e1 == e.(counters := e1.counters, queued := e1.queued, inFlight := e1.inFlight, released := e1.released)
            && forall i :: i in e.queued ==> i in e1.queued
    ensures var e1 := ReleaseDependencies(c, e, k);
            e1 == e.(counters := e1.counters, queued := e1.queued, inFlight := e1.inFlight, holding := e1.holding)
            && forall i :: i in e.queued ==> i in e1.queued
  {
    LowerFrame(e, StartAmounts(c, e, k));
    LowerFrame(e, StopAmounts(c, e, k));
    LowerQueues(e, StartAmounts(c, e, k));
    LowerQueues(e, StopAmounts(c, e, k));
    hide Lower, StartAmounts, StopAmounts;
  }

  lemma LowerQueues(e: Engine, amounts: seq<nat>)
    requires |amounts| == |e.counters|
    ensures forall i :: i in e.queued ==> i in Lower(e, amounts).queued
  {
  }

  lemma BeginMovesJob(e: Engine, k: nat, i: nat)
    requires k in e.queued && k < |e.procs| && i < |e.procs| && Single(e, i)
    ensures JobMoved(e, Begin(k), BeginWork(e, k), i)
  {
    hide BeginWork;
    WorkBegins(e, k);
  }

  /** The job of node `k` goes from one stage to another, and others may be queued. */
  lemma AttemptMovesJob(e: Engine, s: Step, e1: Engine, i: nat)
    requires (s.ReportRunning? || s.ReportEnded? || s.GiveUp?) && s.node in e.starters && i < |e.procs| && Single(e, i)
    requires e1.starters == e.starters - multiset{s.node} && e1.leaving == e.leaving + multiset{s.node}
    requires e1.stoppers == e.stoppers && e1.done == e.done && forall k :: k in e.queued ==> k in e1.queued
    ensures JobMoved(e, s, e1, i)
  {
  }

  lemma FinishMovesJob(e: Engine, s: Step, e1: Engine, i: nat)
    requires s.FinishStop? && s.node in e.stoppers && i < |e.procs| && Single(e, i)
    requires e1.stoppers == e.stoppers - multiset{s.node} && e1.done == e.done + multiset{s.node}
    requires e1.starters == e.starters && e1.leaving == e.leaving && forall k :: k in e.queued ==> k in e1.queued
    ensures JobMoved(e, s, e1, i)
  {
  }

  lemma LeavingMovesJob(c: Config, e: Engine, s: Step, i: nat)
    requires Sized(c, e) && Enabled(c, e, s) && (s.Respawn? || s.LeaveStart? || s.KillStarting?) && i < |e.procs| && Single(e, i)
    ensures JobMoved(e, s, Apply(c, e, s), i)
  {
    hide Sized;
  }

  lemma WorkMovesJob(c: Config, e: Engine, s: Step, i: nat)
    requires Sized(c, e) && Enabled(c, e, s) && Works(s) && i < |e.procs| && Single(e, i)
    ensures JobMoved(e, s, Apply(c, e, s), i)
  {
    hide BeginWork, ReleaseDependents, ReleaseDependencies, JobMoved, Single;
    match s
    case Begin(k) => BeginMovesJob(e, k, i);
    case ReportRunning(k) =>
      ReleasesJobs(c, e.(procs := e.procs[k := Running]), k);
      AttemptMovesJob(e, s, Apply(c, e, s), i);
    case ReportEnded(k) =>
      ReleasesJobs(c, e, k);
      AttemptMovesJob(e, s, Apply(c, e, s), i);
    case GiveUp(k) => AttemptMovesJob(e, s, Apply(c, e, s), i);
    case FinishStop(k) =>
      ReleasesJobs(c, e, k);
      FinishMovesJob(e, s, Apply(c, e, s), i);
    case _ => LeavingMovesJob(c, e, s, i);
  }

  lemma CompletionMovesJob(c: Config, e: Engine, k: nat, i: nat)
    requires Inv(c, e) && k in e.done && i < |e.procs|
    ensures JobMoved(e, Executed(k), NodeExecuted(c, e.(done := e.done - multiset{k}), k), i)
  {
    SingleJob(c, e, i);
    assert Sized(c, e) && (e.state == InTransition ==> e.toExecute > 0);
    hide Inv, NodeExecuted, QueueStartJobs, JobMoved, Single, Sized;
    if e.state == InTransition {
      CompletionInPhase(c, e, k);
      QueuesOnly(c, OneLess(e, k), true);
    } else {
      LeftCompletionJobs(c, e, k);
    }
    DoneMovesJob(e, NodeExecuted(c, e.(done := e.done - multiset{k}), k), k, i);
  }

  lemma LeftCompletionJobs(c: Config, e: Engine, k: nat)
    requires Sized(c, e) && e.state != InTransition
    ensures var e1 := NodeExecuted(c, e.(done := e.done - multiset{k}), k); SameJobs(e.(done := e.done - multiset{k}), e1)
  {
  }

  lemma DoneMovesJob(e: Engine, e1: Engine, k: nat, i: nat)
    requires k in e.done && i < |e.procs| && Single(e, i)
    requires e1.starters == e.starters && e1.leaving == e.leaving && e1.stoppers == e.stoppers
    requires e1.done == e.done - multiset{k} && forall j :: j in e.queued ==> j in e1.queued
    ensures JobMoved(e, Executed(k), e1, i)
  {
  }

  lemma SingleJob(c: Config, e: Engine, i: nat)
    requires Inv(c, e)
    ensures Single(e, i)
  {
    assert Load(e, i) <= 1;
  }

  lemma QueuesOnly(c: Config, e: Engine, start: bool)
    requires Sized(c, e)
    ensures var e1 := QueueHeadNodes(c, e, start);
            e1.starters == e.starters && e1.leaving == e.leaving && e1.stoppers == e.stoppers && e1.done == e.done
            && forall i :: i in e.queued ==> i in e1.queued
    ensures var e1 := QueueStartJobs(c, e);
            e1.starters == e.starters && e1.leaving == e.leaving && e1.stoppers == e.stoppers && e1.done == e.done
            && forall i :: i in e.queued ==> i in e1.queued
  {
  }

  lemma TransitionMovesNoJob(c: Config, e: Engine, indexes: seq<nat>, i: nat)
    requires Inv(c, e) && (e.state == Success || e.state == Undefined) && i < |e.procs|
    ensures JobMoved(e, Transition(indexes), StartTransition(c, e, indexes), i)
  {
    assert Sized(c, e) && JobCount(e) == 0;
    assert e.queued == e.starters == e.leaving == e.stoppers == e.done == multiset{};
    hide Inv, QueueHeadNodes, QueueStartJobs, StartTransition, JobCount, Sized, JobMoved;
    TransitionBegins(c, e, indexes);
    var e0 := e.(state := InTransition, requested := set k | k in indexes && k < |c.deps|);
    QueuesOnly(c, e0, false);
    QueuesOnly(c, QueueHeadNodes(c, e0, false), true);
    NoJobToMove(e, StartTransition(c, e, indexes), indexes, i);
  }

  lemma NoJobToMove(e: Engine, e1: Engine, indexes: seq<nat>, i: nat)
    requires i < |e.procs| && e.queued == multiset{}
    requires e1.starters == e1.leaving == e1.stoppers == e1.done == multiset{}
    requires e.starters == e.leaving == e.stoppers == e.done == multiset{}
    ensures JobMoved(e, Transition(indexes), e1, i)
  {
  }

  lemma FailuresMoveNoJob(c: Config, e: Engine)
    ensures SameJobs(e, Cancel(e)) && forall reason :: SameJobs(e, Abort(e, reason))
    ensures forall i: nat, status :: i < |e.procs| ==> SameJobs(e, ProcessEnded(c, e, i, status))
  {
  }

  ghost predicate SameJobs(e: Engine, e1: Engine) {
    && e1.queued == e.queued && e1.starters == e.starters && e1.leaving == e.leaving && e1.stoppers == e.stoppers
    && e1.done == e.done
  }

  lemma StepMovesJob(c: Config, e: Engine, s: Step, i: nat)
    requires Inv(c, e) && Enabled(c, e, s) && i < |e.procs|
    ensures JobMoved(e, s, Apply(c, e, s), i)
  {
    assert Sized(c, e);
    SingleJob(c, e, i);
    hide Inv, Apply, Enabled, Sized, StartTransition, NodeExecuted, ProcessEnded, Abort, Cancel, Single, JobMoved, SameJobs;
    OtherSteps(c, e, s);
    if Works(s) {
      WorkMovesJob(c, e, s, i);
    } else if s.Transition? {
      TransitionMovesNoJob(c, e, s.indexes, i);
    } else if s.Executed? {
      CompletionMovesJob(c, e, s.node, i);
    } else {
      FailuresMoveNoJob(c, e);
      UnmovedJob(e, s, Apply(c, e, s), i);
    }
  }

  lemma UnmovedJob(e: Engine, s: Step, e1: Engine, i: nat)
    requires SameJobs(e, e1) && i < |e.procs| && (s.Ended? || s.FailStart? || s.CancelRequest?)
    ensures JobMoved(e, s, e1, i)
  {
  }

  /** In every run the job of a node goes from stage to stage only by the steps made for that: a worker takes it from
      the queue to start or to stop the process, or to do nothing; an attempt that is over leaves room for another one,
      and only when the worker leaves the loop is the job done; and only a completion takes it away. */
  lemma JobLife(c: Config, run: seq<Engine>, steps: seq<Step>, t: nat, i: nat)
    requires IsWholeRun(c, run, steps) && t < |steps| && i < |run[t].procs|
    ensures JobMoved(run[t], steps[t], run[t + 1], i)
  {
    hide Inv, Apply, Enabled, JobMoved;
    InitialInv(c);
    RunKeepsInv(c, run, steps, t);
    assert StepAt(c, run, steps, t);
    StepMovesJob(c, run[t], steps[t], i);
  }

  // ---- The status of a process ----

  predicate EndsBadly(c: Config, s: Step, i: nat) {
    s.Ended? && s.node == i && Unexpected(c, i, s.status)
  }

  /** The status is cleared by every attempt to start the process, even one that is refused, and by a good end. */
  predicate Clears(c: Config, e: Engine, s: Step, i: nat) {
    || s == Respawn(i)
    || (s == Begin(i) && e.state == InTransition && e.starting)
    || (s.Ended? && s.node == i && !Unexpected(c, i, s.status))
  }

  lemma StepFailed(c: Config, e: Engine, s: Step, i: nat)
    requires Sized(c, e) && Enabled(c, e, s)
    ensures i in Apply(c, e, s).failed <==> EndsBadly(c, s, i) || (i in e.failed && !Clears(c, e, s, i))
  {
    hide StartTransition, NodeExecuted, ProcessEnded, Abort, Cancel, Apply, Enabled;
    OtherSteps(c, e, s);
    match s
    case Transition(indexes) => TransitionKeepsFailed(c, e, indexes);
    case Executed(k) => CompletionKeepsFailed(c, e.(done := e.done - multiset{k}), k);
    case Ended(_, _) => FailuresAndFailed(c, e);
    case FailStart(_, _) => FailuresAndFailed(c, e);
    case CancelRequest => FailuresAndFailed(c, e);
    case _ => WorkFailed(c, e, s, i);
  }

  lemma FailuresAndFailed(c: Config, e: Engine)
    ensures Cancel(e).failed == e.failed && forall reason :: Abort(e, reason).failed == e.failed
    ensures forall i: nat, status :: i < |e.procs| ==>
              ProcessEnded(c, e, i, status).failed == if Unexpected(c, i, status) then e.failed + {i} else e.failed - {i}
  {
  }

  lemma WorkFailed(c: Config, e: Engine, s: Step, i: nat)
    requires Sized(c, e) && Enabled(c, e, s) && Works(s)
    ensures i in Apply(c, e, s).failed <==> i in e.failed && !Clears(c, e, s, i)
  {
    hide BeginWork, ReleaseDependents, ReleaseDependencies;
    match s
    case Begin(k) => WorkBegins(e, k);
    case ReportRunning(k) => ReleaseKeepsFailed(c, e.(procs := e.procs[k := Running]), k);
    case ReportEnded(k) => ReleaseKeepsFailed(c, e, k);
    case FinishStop(k) => ReleaseEffect(c, e, k);
    case _ =>
  }

  lemma ReleaseKeepsFailed(c: Config, e: Engine, i: nat)
    requires Sized(c, e)
    ensures ReleaseDependents(c, e, i).failed == e.failed
  {
    hide Lower;
    LowerFrame(e, StartAmounts(c, e, i));
  }

  lemma TransitionKeepsFailed(c: Config, e: Engine, indexes: seq<nat>)
    requires Sized(c, e)
    ensures StartTransition(c, e, indexes).failed == e.failed
  {
  }

  lemma CompletionKeepsFailed(c: Config, e: Engine, i: nat)
    requires Sized(c, e)
    ensures NodeExecuted(c, e, i).failed == e.failed
  {
  }

  /** A bad status is on record exactly when the process ended badly and nothing has cleared the status since. */
  lemma {:induction false} FailedMeansEndedBadly(c: Config, run: seq<Engine>, steps: seq<Step>, t: nat, i: nat)
    requires IsWholeRun(c, run, steps) && t < |run|
    ensures i in run[t].failed <==> exists u: nat :: BadSince(c, run, steps, i, u, t)
  {
    hide Apply, Enabled, EndsBadly, Clears;
    if t > 0 {
      FailedMeansEndedBadly(c, run, steps, t - 1, i);
      assert StepAt(c, run, steps, t - 1);
      StepFailed(c, run[t - 1], steps[t - 1], i);
      if EndsBadly(c, steps[t - 1], i) {
        assert BadSince(c, run, steps, i, t - 1, t);
      } else if i in run[t].failed {
        var u: nat :| BadSince(c, run, steps, i, u, t - 1);
        assert BadSince(c, run, steps, i, u, t);
      } else if u: nat :| BadSince(c, run, steps, i, u, t) {
        assert BadSince(c, run, steps, i, u, t - 1);
      }
    }
  }

  ghost predicate BadSince(c: Config, run: seq<Engine>, steps: seq<Step>, i: nat, u: nat, t: nat) {
    && u < t <= |steps| <= |run| && EndsBadly(c, steps[u], i)
    && forall v :: u < v < t ==> !Clears(c, run[v], steps[v], i)
  }
}
