/** One process group's transition engine: the graph, its nodes and the jobs it has
    handed to the worker threads, as a state machine.

    A transition first stops, dependents first, every process that is alive and not
    requested; then it starts, dependencies first, every requested process that is not
    running. Jobs are picked up and completed in any order. Every dependency waits for
    its target to be running. */
module Engine {
  import opened States
  import opened Counting

  /** `deps[i]` lists the processes that process `i` depends on; `selfTerminating` are the
      processes that may end on their own with status zero; `reporting` are those that
      report when they are running. */
  datatype Config = Config(deps: seq<seq<nat>>, selfTerminating: set<nat>, reporting: set<nat>)

  /** Every dependency names a process of the group. */
  ghost predicate ValidConfig(c: Config) {
    forall i, d :: 0 <= i < |c.deps| && d in c.deps[i] ==> d < |c.deps|
  }

  /** The state of the engine. A job of node `i` waits in `queued`. A worker that starts the
      process is among the `starters` during an attempt and among `leaving` once the attempt
      has its outcome and only the restart condition is left; one that stops the process is among
      the `stoppers`. In `done` the worker has only to tell the graph. `failed` are the
      processes whose last status is not zero. The last four fields are history: no step's effect on the other
      fields depends on them.
      - `executed`: nodes executed in the present phase;
      - `released`: in the start phase, processes that were running when the phase began or
        have since let their dependents go;
      - `holding`: in the stop phase, processes that were running when it began and have not
        yet let their dependencies go;
      - `epoch`: how many phases have begun. */
  datatype Engine = Engine(
    state: GraphState,
    starting: bool,
    toExecute: nat,
    inFlight: int,
    event: Code,
    abortCode: Code,
    procs: seq<ProcessState>,
    failed: set<nat>,
    counters: seq<nat>,
    requested: set<nat>,
    included: set<nat>,
    queued: multiset<nat>,
    starters: multiset<nat>,
    leaving: multiset<nat>,
    stoppers: multiset<nat>,
    done: multiset<nat>,
    executed: set<nat>,
    released: set<nat>,
    holding: set<nat>,
    epoch: nat)

  function Initial(c: Config): Engine {
    Engine(Success, false, 0, 0, NotSet, NotSet,
           seq(|c.deps|, i => Idle), {}, seq(|c.deps|, i => 0), {}, {},
           multiset{}, multiset{}, multiset{}, multiset{}, multiset{}, {}, {}, {}, 0)
  }

  ghost predicate Sized(c: Config, e: Engine) {
    && |e.procs| == |c.deps|
    && |e.counters| == |c.deps|
    && (forall i :: i in e.included ==> i < |c.deps|)
    && (forall i :: i in e.requested ==> i < |c.deps|)
  }

  function RunningSet(procs: seq<ProcessState>): set<nat> {
    set i: nat | i < |procs| && procs[i] == Running
  }

  // ---- Starting a phase ----

  /** How long node `i` has to wait in the phase that begins now. */
  function InitialCounter(c: Config, procs: seq<ProcessState>, start: bool, i: nat): nat
    requires i < |c.deps|
  {
    if start then CountOutside(c.deps[i], RunningSet(procs))
    else CountHeld(c.deps, RunningSet(procs), i, |c.deps|)
  }

  /** Does node `i` take part in the phase that begins now? */
  predicate Includes(procs: seq<ProcessState>, requested: set<nat>, start: bool, i: nat)
    requires i < |procs|
  {
    if start then i in requested && procs[i] != Running
    else i !in requested && procs[i] != Idle && procs[i] != Terminated
  }

  function InitialCounters(c: Config, procs: seq<ProcessState>, start: bool): seq<nat> {
    seq(|c.deps|, i requires 0 <= i < |c.deps| => InitialCounter(c, procs, start, i))
  }

  function IncludedSet(procs: seq<ProcessState>, requested: set<nat>, start: bool): set<nat> {
    set i: nat | i < |procs| && Includes(procs, requested, start, i)
  }

  function Heads(included: set<nat>, counters: seq<nat>): set<nat>
    requires forall i :: i in included ==> i < |counters|
  {
    set i | i in included && counters[i] == 0
  }

  /** Build the phase's node list. */
  function BuildPhase(c: Config, e: Engine, start: bool): Engine {
    var included := IncludedSet(e.procs, e.requested, start);
    e.(starting := start,
       counters := InitialCounters(c, e.procs, start),
       included := included,
       toExecute := |included|,
       inFlight := 0,
       executed := {},
       released := if start then RunningSet(e.procs) else {},
       holding := if start then {} else RunningSet(e.procs),
       epoch := e.epoch + 1)
  }

  /** Build the phase's node list and queue the nodes that wait for nothing. */
  function QueueHeadNodes(c: Config, e: Engine, start: bool): Engine
    requires Sized(c, e)
  {
    var e1 := BuildPhase(c, e, start);
    var heads := if e1.state == InTransition then Heads(e1.included, e1.counters) else {};
    e1.(inFlight := |heads|, queued := e1.queued + multiset(heads))
  }

  function QueueStartJobs(c: Config, e: Engine): Engine
    requires Sized(c, e)
  {
    var e1 := QueueHeadNodes(c, e, true);
    if e1.inFlight > 0 then e1
    else e1.(state := TableEntry(Success, e1.state), event := SetStateSuccess)
  }

  function QueueStopJobs(c: Config, e: Engine, indexes: seq<nat>): Engine
    requires Sized(c, e)
  {
    var e0 := e.(requested := set i | i in indexes && i < |c.deps|);
    var e1 := QueueHeadNodes(c, e0, false);
    if e1.inFlight > 0 then e1 else QueueStartJobs(c, e1)
  }

  /** Start a transition to the state whose processes are `indexes`. The stored list
      and the state check come first; a refused transition changes only what
      asking for `InTransition` changes. */
  function StartTransition(c: Config, e: Engine, indexes: seq<nat>): Engine
    requires Sized(c, e)
  {
    var e0 := e.(state := TableEntry(InTransition, e.state));
    if e0.state == InTransition then QueueStopJobs(c, e0, indexes) else e0
  }

  // ---- Letting other nodes go ----

  /** Lower the counters by `amounts`; a counter that reaches zero queues its node,
      unless the graph has left its transition. */
  function Lower(e: Engine, amounts: seq<nat>): Engine
    requires |amounts| == |e.counters|
  {
    WithCounters(e, Lowered(e.counters, amounts), Ready(e.counters, amounts))
  }

  function WithCounters(e: Engine, counters: seq<nat>, ready: set<nat>): Engine {
    if e.state != InTransition then e.(counters := counters)
    else e.(counters := counters, queued := e.queued + multiset(ready), inFlight := e.inFlight + |ready|)
  }

  function Lowered(counters: seq<nat>, amounts: seq<nat>): seq<nat>
    requires |amounts| == |counters|
  {
    seq(|counters|, i requires 0 <= i < |counters| => Minus(counters[i], amounts[i]))
  }

  function Ready(counters: seq<nat>, amounts: seq<nat>): set<nat>
    requires |amounts| == |counters|
  {
    set i: nat | i < |counters| && counters[i] > 0 && counters[i] <= amounts[i]
  }

  /** What lowering counters leaves alone. */
  lemma LowerFrame(e: Engine, amounts: seq<nat>)
    requires |amounts| == |e.counters|
    ensures var e1 := Lower(e, amounts);
            && e1 == e.(counters := e1.counters, queued := e1.queued, inFlight := e1.inFlight)
            && (e.state != InTransition ==> e1.inFlight == e.inFlight)
  {
    hide Lowered, Ready;
  }

  /** Process `j` is running: every waiting node counts its entries naming `j` as met. */
  function StartAmounts(c: Config, e: Engine, j: nat): seq<nat> {
    seq(|c.deps|, i requires 0 <= i < |c.deps| => if i in e.included then Count(c.deps[i], j) else 0)
  }

  /** Process `j` has been stopped: each of its dependencies waits for one entry less,
      unless that dependency has itself terminated. */
  function StopAmounts(c: Config, e: Engine, j: nat): seq<nat>
    requires j < |c.deps|
    requires |e.procs| == |c.deps|
  {
    seq(|c.deps|, i requires 0 <= i < |c.deps| =>
      if i in e.included && e.procs[i] != Terminated then Count(c.deps[j], i) else 0)
  }

  function ReleaseDependents(c: Config, e: Engine, j: nat): Engine
    requires Sized(c, e)
  {
    Lower(e, StartAmounts(c, e, j)).(released := e.released + {j})
  }

  function ReleaseDependencies(c: Config, e: Engine, j: nat): Engine
    requires Sized(c, e) && j < |c.deps|
  {
    Lower(e, StopAmounts(c, e, j)).(holding := e.holding - {j})
  }

  // ---- Completion, abort and cancel ----

  function NodeExecuted(c: Config, e: Engine, i: nat): Engine
    requires Sized(c, e)
  {
    if e.state == InTransition then
      if e.toExecute == 0 then e
      else
        var e1 := e.(inFlight := e.inFlight - 1, toExecute := e.toExecute - 1, executed := e.executed + {i});
        if e1.toExecute > 0 then e1
        else if e1.starting then e1.(state := TableEntry(Success, e1.state), event := SetStateSuccess)
        else QueueStartJobs(c, e1)
    else
      var e1 := e.(inFlight := e.inFlight - 1);
      if e1.inFlight > 0 then e1
      else e1.(state := TableEntry(Undefined, e1.state),
               event := if e.state == Aborting then e1.abortCode else e1.event)
  }

  function Abort(e: Engine, reason: Code): Engine {
    if e.state.Rank() < Aborting.Rank() then
      e.(state := TableEntry(Aborting, e.state), abortCode := reason)
    else e
  }

  function Cancel(e: Engine): Engine {
    var e1 := e.(state := TableEntry(Cancelled, e.state));
    var e2 := if e1.state == Cancelled then e1.(event := SetStateCancelled) else e1;
    if e2.inFlight == 0 then e2.(state := TableEntry(Undefined, e2.state)) else e2
  }

  /** The operating system reports that process `i` has ended. */
  function ProcessEnded(c: Config, e: Engine, i: nat, status: int): Engine
    requires i < |e.procs|
  {
    var e1 :=
      if (i in c.selfTerminating && status == 0) || !e.starting then e
      else if e.state == Success then Abort(e, FailedUnexpectedTermination)
      else if e.procs[i] == Starting then e
      else if e.state == InTransition then Abort(e, FailedUnexpectedTerminationOnEnter)
      else e;
    e1.(procs := e1.procs[i := Terminated],
        failed := if i in c.selfTerminating && status == 0 then e1.failed - {i} else e1.failed + {i})
  }

  // ---- Steps ----

  datatype Step =
    | Transition(indexes: seq<nat>)    // the control thread starts a transition
    | Begin(node: nat)                 // a worker picks up the node's job
    | Respawn(node: nat)               // the restart loop makes another attempt
    | LeaveStart(node: nat)            // the restart loop ends
    | KillStarting(node: nat)          // the start attempt timed out and is being terminated
    | ReportRunning(node: nat)         // the start succeeded
    | ReportEnded(node: nat)           // accepted as running, but already cleanly terminated
    | GiveUp(node: nat)                // the attempt ends without letting dependents go
    | FailStart(node: nat, reason: Code) // the start raises an abort
    | FinishStop(node: nat)            // the stop is over
    | Executed(node: nat)              // the worker tells the graph
    | Ended(node: nat, status: int)    // the reaper reports the end of a process
    | CancelRequest                    // the control thread cancels

  /** When a step can happen. */
  predicate Enabled(c: Config, e: Engine, s: Step) {
    match s
    case Transition(_) => e.state == Success || e.state == Undefined
    case Begin(i) => i in e.queued && i < |e.procs|
    case Respawn(i) => i in e.leaving && i < |e.procs| && e.procs[i] == Terminated && i in e.failed
    case LeaveStart(i) => i in e.leaving
    case KillStarting(i) => i in e.starters && i < |e.procs| && e.procs[i] == Starting
    case ReportRunning(i) => i in e.starters && i < |e.procs| && e.procs[i] == Starting
    case ReportEnded(i) => i in e.starters && i < |e.procs| && e.procs[i] == Terminated
                           && i in c.selfTerminating && i !in e.failed
    case GiveUp(i) => i in e.starters
    case FailStart(i, _) => i in e.starters
    case FinishStop(i) => i in e.stoppers && i < |e.procs|
    case Executed(i) => i in e.done
    case Ended(i, _) => i < |e.procs| && (e.procs[i] == Starting || e.procs[i] == Running || e.procs[i] == Terminating)
    case CancelRequest => true
  }

  /** A worker takes the job of node `i`: outside a transition it does nothing; when starting
      it clears the status and needs the process idle or terminated; when stopping it needs it not terminated. */
  function BeginWork(e: Engine, i: nat): Engine
    requires i < |e.procs|
  {
    var e1 := e.(queued := e.queued - multiset{i});
    if e.state != InTransition then e1.(done := e.done + multiset{i})
    else if e.starting then
      if e.procs[i] == Idle || e.procs[i] == Terminated then
        e1.(starters := e.starters + multiset{i}, procs := e.procs[i := Starting], failed := e.failed - {i})
      else e1.(done := e.done + multiset{i}, failed := e.failed - {i})
    else
      e1.(stoppers := e.stoppers + multiset{i},
          procs := if e.procs[i] == Terminated then e.procs else e.procs[i := Terminating])
  }

  function AttemptOver(e: Engine, i: nat): Engine {
    e.(starters := e.starters - multiset{i}, leaving := e.leaving + multiset{i})
  }

  function StopOver(e: Engine, i: nat): Engine {
    e.(stoppers := e.stoppers - multiset{i}, done := e.done + multiset{i})
  }

  function Apply(c: Config, e: Engine, s: Step): Engine
    requires Sized(c, e) && Enabled(c, e, s)
  {
    match s
    case Transition(indexes) => StartTransition(c, e, indexes)
    case Begin(i) => BeginWork(e, i)
    case Respawn(i) => e.(leaving := e.leaving - multiset{i}, starters := e.starters + multiset{i},
                          procs := e.procs[i := Starting], failed := e.failed - {i})
    case LeaveStart(i) => e.(leaving := e.leaving - multiset{i}, done := e.done + multiset{i})
    case KillStarting(i) => e.(procs := e.procs[i := Terminating])
    case ReportRunning(i) => AttemptOver(ReleaseDependents(c, e.(procs := e.procs[i := Running]), i), i)
    case ReportEnded(i) => AttemptOver(ReleaseDependents(c, e, i), i)
    case GiveUp(i) => AttemptOver(e, i)
    case FailStart(i, reason) => Abort(e, reason)
    case FinishStop(i) => StopOver(ReleaseDependencies(c, e, i), i)
    case Executed(i) => NodeExecuted(c, e.(done := e.done - multiset{i}), i)
    case Ended(i, status) => ProcessEnded(c, e, i, status)
    case CancelRequest => Cancel(e)
  }

  /** The part of the engine that only transitions, completions, aborts and cancels change. */
  predicate SameGraph(e: Engine, e1: Engine) {
    && e1.state == e.state && e1.starting == e.starting && e1.toExecute == e.toExecute
    && e1.event == e.event && e1.abortCode == e.abortCode && e1.requested == e.requested
    && e1.included == e.included && e1.executed == e.executed && e1.epoch == e.epoch
  }

  /** Steps in which a worker goes about its job. */
  predicate Works(s: Step) {
    !s.Transition? && !s.FailStart? && !s.Executed? && !s.Ended? && !s.CancelRequest?
  }

  lemma ReleaseFrame(c: Config, e: Engine, i: nat)
    requires Sized(c, e) && i < |c.deps|
    ensures var e1 := ReleaseDependents(c, e, i);
            && SameGraph(e, e1) && e1.released == e.released + {i} && e1.holding == e.holding
            && (e.state != InTransition ==> e1.inFlight == e.inFlight)
    ensures var e1 := ReleaseDependencies(c, e, i);
            && SameGraph(e, e1) && e1.released == e.released && e1.holding == e.holding - {i}
            && (e.state != InTransition ==> e1.inFlight == e.inFlight)
  {
    hide Lower;
    LowerFrame(e, StartAmounts(c, e, i));
    LowerFrame(e, StopAmounts(c, e, i));
  }

  /** The ways a job begins. */
  lemma WorkBegins(e: Engine, i: nat)
    requires i < |e.procs|
    ensures var e1 := e.(queued := e.queued - multiset{i});
            && (e.state != InTransition ==> BeginWork(e, i) == e1.(done := e.done + multiset{i}))
            && (e.state == InTransition && e.starting && (e.procs[i] == Idle || e.procs[i] == Terminated) ==>
                  BeginWork(e, i) == e1.(starters := e.starters + multiset{i}, procs := e.procs[i := Starting],
                                           failed := e.failed - {i}))
            && (e.state == InTransition && e.starting && e.procs[i] != Idle && e.procs[i] != Terminated ==>
                  BeginWork(e, i) == e1.(done := e.done + multiset{i}, failed := e.failed - {i}))
            && (e.state == InTransition && !e.starting ==>
                  BeginWork(e, i) ==
                  e1.(stoppers := e.stoppers + multiset{i},
                      procs := if e.procs[i] == Terminated then e.procs else e.procs[i := Terminating]))
  {
  }

  lemma BeginFrame(e: Engine, i: nat)
    requires i < |e.procs|
    ensures var e1 := BeginWork(e, i);
            SameGraph(e, e1) && e1.inFlight == e.inFlight && e1.released == e.released && e1.holding == e.holding
  {
    hide BeginWork;
    WorkBegins(e, i);
  }

  /** Who has let its dependents go after a worker's step, */
  function NextReleased(e: Engine, s: Step): set<nat> {
    if s.ReportRunning? || s.ReportEnded? then e.released + {s.node} else e.released
  }

  /** and who has not yet let its dependencies go. */
  function NextHolding(e: Engine, s: Step): set<nat> {
    if s.FinishStop? then e.holding - {s.node} else e.holding
  }

  /** A worker's steps leave the graph as it is, and outside a transition its number of jobs too. */
  lemma WorkFrame(c: Config, e: Engine, s: Step)
    requires Sized(c, e) && Enabled(c, e, s) && Works(s)
    ensures var e1 := Apply(c, e, s);
            && SameGraph(e, e1) && e1.released == NextReleased(e, s) && e1.holding == NextHolding(e, s)
            && (e.state != InTransition ==> e1.inFlight == e.inFlight)
  {
    hide ReleaseDependents, ReleaseDependencies, BeginWork;
    match s {
      case Begin(i) => BeginFrame(e, i);
      case ReportRunning(i) => ReleaseFrame(c, e.(procs := e.procs[i := Running]), i);
      case ReportEnded(i) => ReleaseFrame(c, e, i);
      case FinishStop(i) => ReleaseFrame(c, e, i);
      case _ =>
    }
  }

  /** What a step does to the processes. */
  function NextProcs(e: Engine, s: Step): seq<ProcessState>
    requires s.Begin? || s.Respawn? || s.KillStarting? || s.ReportRunning? || s.Ended? ==> s.node < |e.procs|
  {
    match s
    case Begin(i) =>
      if e.state != InTransition then e.procs
      else if e.starting then
        if e.procs[i] == Idle || e.procs[i] == Terminated then e.procs[i := Starting] else e.procs
      else if e.procs[i] == Terminated then e.procs else e.procs[i := Terminating]
    case Respawn(i) => e.procs[i := Starting]
    case KillStarting(i) => e.procs[i := Terminating]
    case ReportRunning(i) => e.procs[i := Running]
    case Ended(i, _) => e.procs[i := Terminated]
    case _ => e.procs
  }

  lemma StepProcs(c: Config, e: Engine, s: Step)
    requires Sized(c, e) && Enabled(c, e, s)
    ensures Apply(c, e, s).procs == NextProcs(e, s)
  {
    match s {
      case Transition(indexes) => TransitionProcs(c, e, indexes);
      case Executed(i) => ExecutedProcs(c, e.(done := e.done - multiset{i}), i);
      case _ =>
    }
  }

  lemma TransitionProcs(c: Config, e: Engine, indexes: seq<nat>)
    requires Sized(c, e)
    ensures StartTransition(c, e, indexes).procs == e.procs
  {
  }

  lemma ExecutedProcs(c: Config, e: Engine, i: nat)
    requires Sized(c, e)
    ensures NodeExecuted(c, e, i).procs == e.procs
  {
  }
}
