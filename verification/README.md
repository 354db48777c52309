# Verification of the launch manager and the health monitors

The launch manager starts and stops the processes of process groups in the order of their dependencies; the health
monitors watch deadlines and heartbeats of the processes. This project models the parts of both that are hard to get
right and proves what they promise, for all configurations, all runs and all interleavings.

`dafny verify dfyconfig.toml` checks everything.

## What is modelled

**The transition engine.** `Engine.dfy` is one process group as a state machine: the graph with its state, its two counters
and its pending event, the nodes with their process states and dependency counters, and the jobs that are queued, being
worked on or about to be reported. A step is one of: the control thread starts a transition or cancels; a worker picks up
a job, finishes an attempt to start or stop a process, tries again, raises an abort or reports completion; the reaper
reports the end of a process. Steps come in any order. `Graph.dfy` is the same thing as the object it is in the source, with fields and
loops; each method is proved to do the engine's step. On the engine rest the invariant (`EngineInvariant`), the counters and
exactly-once queueing (`Runs`), the order of stopping and starting (`StopOrder`, `StartOrder`), draining after aborts and cancels
(`Drain`), what failing starts and ending processes do to a group (`Failures`), the states of a process and what a completed phase has done (`Lifecycle`), termination and the meaning of a failure-free transition (`Calm`, `CalmSteps`, `Progress`, with `Acyclicity`), exactly when such a
transition can hang because processes end on their own (`Stalls` within a phase, `Hangs` for whole transitions) or die (`Deaths`), how
it ends over cyclic and unclosed dependencies (`Outcome`), that a request can always be met (`Attainable`), runs that show all this
(`Examples`), and the capacity of the job queue (`JobCapacity`).

A transition is failure-free, or calm, when every attempt to start or stop a process succeeds and a process ends only when it is told to or
is self-terminating. It hangs when the graph is in transition with no job in flight. Dependencies are closed for a request when every requested
process has its dependencies requested too.

**Races.** `StateRace` interleaves any number of calls that change the graph's state, load by load and exchange by exchange. `NodeRace`
does the same for the state of one process, its worker and the reaper. `Restart` is the loop that starts one process with further attempts.

**Queues and slots.** `JobQueue` interleaves the semaphore, index and slot accesses of producers and consumers, and `JobOrder`
says for which capacities and numbers of threads no job is lost. `RingBuffer` is
the circular buffer, proved to be a bounded queue; `ProcessReports` puts a notifier and a receiver at its ends. `RecoverySlots` interleaves the
senders of recovery requests with their handler; `RecoveryClient` has the same calls one at a time, and the handler's loop.

**Monitors.** `Heartbeat` and `Deadline` pack a history of timed events into one word and are proved to agree with that history.

**Configuration.** `Configuration` builds the index lists that the engine is given.

## What turned out to be false

Each of these has a lemma with a concrete case or run. Where the list says "exactly", a theorem for all inputs says when the code does
what is expected.

- A failure-free transition over acyclic, closed dependencies need not come to an end. A stop node whose process ends on its own while it
  waits is never queued, and a process that ends cleanly before it is in the process map lets no dependent go. From the running processes, the
  request and the configuration, `Hangs.TransitionHangsExactlyWhenExposed` says exactly when the transition can hang;
  `Hangs.UnexposedByConfiguration` names configurations in which none can (`Examples.StartCanHang`, `Examples.StopCanHang`).
- A process that dies while its stop node waits strands that node too, and no abort is raised. The stop phase can be left hanging this way
  exactly when some process has to be stopped after another (`Deaths.StopStrandsExactlyWhenSomebodyWaits`).
- Over a cycle, or with a dependency that is not requested, a transition can succeed without starting what was requested
  (`Examples.CycleSucceedsUnstarted`), or hang beside processes that did start (`Examples.CycleBesideOthersHangs`). Without
  self-terminating processes every maximal run ends in the same way, and `Outcome.OutcomeIsDetermined` says exactly how.
- An aborted graph becomes undefined only when a job comes back. A transition that hangs has none, so if it is aborted by the end of a process it
  stays aborting until somebody cancels it (`Drain.AbortWithoutJobs`); with a job in flight it always drains (`Drain.AbortDrains`).
- A request for the undefined state can be lost to an abort that happens at the same time (`StateRace.UndefinedCanBeLost`); exactly those
  calls are the ones that do not act atomically (`StateRace.FinishedCallsAreAtomic`).
- A self-terminating process that reports, exits cleanly before it does so and has attempts left is neither started again
  nor reported (`Restart.CleanExitGoesUnreported`, exactly by `Restart.UnreportedStart`).
- The job queue delivers every job, in order, exactly when it has at most one slot, or no thread adds or none takes, or one
  thread adds, one takes and the capacity divides 2^32 (`JobOrder.JobsKeptExactly`). In all other cases some run loses a job
  (`JobOrder.TwoConsumersLoseAJob`, `JobOrder.TwoProducersLoseAJob`, `JobOrder.WrapAroundLosesAJob`).
- Evaluations exactly the shortest gap apart can already see two beats that are in range. The builder accepts cycles of up to
  twice that gap, and for all of those at or above it healthy beats can be reported (`Heartbeat.HealthyCanBeReported`).
- An evaluation takes its snapshot of a deadline before it reads the clock. What it reports agrees with the history at that time exactly
  unless the interval it saw running was stopped after the snapshot, in time for the deadline but not for the clock, or too early, or all it saw was
  met and a later interval was missed
  (`Deadline.SplitEvaluationAgreesExactly`, with `Deadline.StopInTimeReported` and `Deadline.EarlyStopOverlooked`).
- The numbers of process instances tell them apart exactly when there are at most 2^32 of them (`Configuration.NumberedExactly`).
- A state lists the index of a process exactly unless the index is cut off, at 31 bits for a process that is in the group already and at 32
  bits for a new one (`Configuration.ListedExactly`).
- A dependency whose target is not in the group silently names process zero (`Configuration.MissingTargetIsProcessZero`).

Where code and comments disagree the model follows the code. The comment at processinfonode.cpp:186 says that an unexpected end
in a defined state must be reported; the code moves the graph to the undefined state and sets no event, because the abort's own request
for the aborting state becomes undefined there. The list of allowed changes at graph.hpp:100-118 has a transition become undefined both among the allowed and
among the replaced changes, and leaves out what becomes of a cancel; the table below it decides. The error text of the heartbeat builder speaks of two shortest ranges, see above.

## Model

| member | source | states |
|---|---|---|
| `EngineInvariant.StepInv` | src/launch_manager_daemon/src/process_group_manager/graph.cpp:150-368 | every step, failures, aborts and cancels included, keeps the engine invariant: each included node has at most one job or execution, and exactly one once its counter is zero while in transition; both global counters mean what their names say; a settled graph has no job |
| `Runs.CountersAgreeInEveryRun` | src/launch_manager_daemon/src/process_group_manager/graph.cpp:150-196 | in every state of every run the in-flight counter is the number of jobs queued or worked on, and in transition the other counter is the number of included nodes not yet executed, which is positive |
| `Runs.CompletionAnnouncesSuccessOnlyWhenAllExecuted` | src/launch_manager_daemon/src/process_group_manager/graph.cpp:292-315 | a completion that announces success does so only when every included node of the start phase has been executed |
| `Runs.JobsAreDistinct` | src/launch_manager_daemon/src/process_group_manager/graph.cpp:178-196 | in every run no node has two jobs at once, and only included, unexecuted nodes have one |
| `Runs.QueuedAtMostOncePerPhase` | src/launch_manager_daemon/src/process_group_manager/processinfonode.cpp:372-389 | in every run a node that was queued in a phase is not queued again in that phase |
| `StopOrder.DependentsStopFirst` | src/launch_manager_daemon/src/process_group_manager/processinfonode.cpp:59-75 | in the stop phase of every run from settled states, aborted and cancelled runs included, no process begins to terminate while a process that depends on it is running |
| `StopOrder.StepStop` | src/launch_manager_daemon/src/process_group_manager/processinfonode.cpp:391-408 | every step keeps the invariant behind the stop order: a waiting counter is at least the number of entries of dependents that have not let go |
| `StartOrder.DependenciesRunFirst` | src/launch_manager_daemon/src/process_group_manager/processinfonode.cpp:76-95 | in every run, over cyclic and repeated dependencies too, a process enters the starting state only after each of its dependencies was running in the same phase, or was accepted as running after ending cleanly as it may |
| `StartOrder.StepStart` | src/launch_manager_daemon/src/process_group_manager/processinfonode.cpp:348-389 | every step keeps the invariant behind the start order: a waiting counter is the number of entries whose target has not let its dependents go |
| `Drain.AbortDrains` | src/launch_manager_daemon/src/process_group_manager/graph.cpp:317-345 | after a failing start or the noticed end of a process in a transition with a job in flight, up to the next transition: the graph is aborting with that reason, stays out of its transition, is undefined exactly when no job is in flight, each completion takes one job away and nothing adds one, no job picked up touches its process, and the event is the cancellation if a cancel came in between and the reason of the first abort otherwise |
| `Drain.CancelDrains` | src/launch_manager_daemon/src/process_group_manager/graph.cpp:347-368 | the same after a cancel of a transition or of an aborting graph with a job in flight: the graph is cancelled, drains and ends undefined with the cancellation as the event |
| `Drain.CancelStep` | src/launch_manager_daemon/src/process_group_manager/graph.cpp:347-368 | a cancel leaves the graph cancelled, or undefined if no job is in flight; the event is the cancellation if there was a transition to cancel, and as before otherwise |
| `Drain.AbortWithoutJobs` | src/launch_manager_daemon/src/process_group_manager/graph.cpp:317-345 | if a transition that hangs is aborted, the graph stays aborting with its reason until a cancel, which makes it undefined |
| `Failures.EndOfProcess` | src/launch_manager_daemon/src/process_group_manager/processinfonode.cpp:179-226 | in every run the end of a process changes the state of its group exactly when it is unexpected, nothing is being stopped, and the group is in success or in a transition with the process past starting: success becomes undefined and a transition aborting, each with its reason; the status is recorded and nothing else changes |
| `Failures.EndInDefinedState` | src/launch_manager_daemon/src/process_group_manager/processinfonode.cpp:185-187 | in success every unexpected end of a process makes the group undefined, and only that |
| `Failures.FailureOfStart` | src/launch_manager_daemon/src/process_group_manager/processinfonode.cpp:267-268 | in every run a start that fails in a transition aborts it with its reason and changes nothing else; outside a transition it changes nothing |
| `Failures.AbortsExactly` | src/launch_manager_daemon/src/process_group_manager/graph.cpp:339-345 | a transition is aborted exactly by a failing start or the noticed end of a process |
| `Failures.FailureExcludesSuccess` | src/launch_manager_daemon/src/process_group_manager/graph.cpp:292-345 | no transition in which a start failed or the end of a process was noticed is successful before the next transition |
| `Lifecycle.ProcessLife` | src/launch_manager_daemon/src/process_group_manager/processinfonode.cpp:115-126 | in every run the state of a process makes only the changes of its life, and is starting, running, terminating or terminated for exactly one kind of reason each |
| `Lifecycle.RunningMeansReported` | src/launch_manager_daemon/src/process_group_manager/processinfonode.cpp:348-362 | a process is running exactly when its worker reported so and it has been running since |
| `Lifecycle.JobLife` | src/launch_manager_daemon/src/process_group_manager/processinfonode.cpp:234-275 | in every run the job of a node goes from the queue to a worker that starts or stops the process, from an attempt that is over to another attempt or out of the loop, and from there to its completion, each by exactly the steps made for that |
| `Lifecycle.FailedMeansEndedBadly` | src/launch_manager_daemon/src/process_group_manager/processinfonode.cpp:204-218 | a bad status is on record exactly when the process ended unexpectedly and no attempt to start it and no good end has come since |
| `Lifecycle.StopPhaseIsComplete` | src/launch_manager_daemon/src/process_group_manager/processinfonode.cpp:59-75 | in every run, failures included, when a stop phase is completed every process alive and not requested has had its job done, and none is starting or running |
| `Lifecycle.StartPhaseIsComplete` | src/launch_manager_daemon/src/process_group_manager/processinfonode.cpp:76-95 | when a start phase is completed every requested process has had its job done or was running |
| `Progress.JobAlwaysInFlight` | src/launch_manager_daemon/src/process_group_manager/processinfonode.cpp:56-98 | over acyclic, closed dependencies some job is in flight in every state of a failure-free transition that has no exposed process |
| `Progress.StepNearer` | src/launch_manager_daemon/src/process_group_manager/graph.cpp:282-315 | every step of a failure-free transition lowers a measure of the steps left |
| `Progress.CalmRunIsShort` | src/launch_manager_daemon/src/process_group_manager/graph.cpp:198-222 | no failure-free transition, over any dependencies, takes more than 13 steps per process plus two, in any worker order |
| `Hangs.CalmRunGoesOn` | src/launch_manager_daemon/src/process_group_manager/graph.cpp:198-222 | over acyclic, closed dependencies and with no exposed process, a failure-free transition that has not succeeded has a job in flight and a possible next step, so every maximal run succeeds |
| `Progress.CalmRunReachesRequest` | src/launch_manager_daemon/src/process_group_manager/graph.cpp:224-248 | over acyclic, closed dependencies a failure-free transition that succeeds leaves running only requested processes and all of those that are not self-terminating, so exactly the requested ones if none is; all others are idle or terminated, the event is success, and the group is ready for the next transition |
| `Progress.OffStateStopsEverything` | src/launch_manager_daemon/src/process_group_manager/graph.cpp:263-280 | the transition to the off state leaves every process idle or terminated, self-terminating ones included |
| `Acyclicity.AcyclicRanked` | src/launch_manager_daemon/src/process_group_manager/graph.cpp:86-108 | dependencies without a cycle can be ranked so that every process ranks above those it depends on |
| `Acyclicity.RankedAcyclic` | src/launch_manager_daemon/src/process_group_manager/graph.cpp:86-108 | ranked dependencies have no cycle |
| `Stalls.StopStallsExactlyWhenExposed` | src/launch_manager_daemon/src/process_group_manager/processinfonode.cpp:166-176 | from any state within it, a failure-free stop phase can get stuck exactly when a self-terminating process is waiting to be stopped |
| `Stalls.StartStallsExactlyWhenExposed` | src/launch_manager_daemon/src/process_group_manager/processinfonode.cpp:312-328 | from any state within it, a failure-free start phase can get stuck exactly when a node waits for a self-terminating, non-reporting process of the same phase |
| `Stalls.SuccessWithoutStarting` | src/launch_manager_daemon/src/process_group_manager/graph.cpp:217-222 | when a start phase begins, success is announced at once with a requested process not running exactly when each such process depends on one that is not running; what happens otherwise is in `Outcome.OutcomeIsDetermined` |
| `Hangs.TransitionHangsExactlyWhenExposed` | src/launch_manager_daemon/src/process_group_manager/processinfonode.cpp:150-177 | a transition requested in a ready group, over acyclic, closed dependencies, can hang without any failure exactly when a self-terminating process has to be stopped after a process that depends on it, or a process has to be started after one that ends on its own and does not report; told from the configuration, the running processes and the request alone |
| `Hangs.UnexposedByConfiguration` | src/launch_manager_daemon/src/process_group_manager/processinfonode.cpp:150-177 | if no process depends on a self-terminating one, no transition between any states is exposed |
| `Outcome.OutcomeIsDetermined` | src/launch_manager_daemon/src/process_group_manager/graph.cpp:198-222 | with no self-terminating process and over any dependencies, cyclic or unclosed, every maximal failure-free run ends with the same processes running, given by two least sets: what can be stopped and what can be reached from what is running; and it succeeds, or hangs, exactly as these say |
| `Attainable.RequestCanBeMet` | src/launch_manager_daemon/src/process_group_manager/graph.cpp:224-248 | over acyclic, closed dependencies some failure-free run from any ready state, self-terminating processes or not, succeeds with exactly the requested processes running |
| `Deaths.StopStrandsExactlyWhenSomebodyWaits` | src/launch_manager_daemon/src/process_group_manager/processinfonode.cpp:179-232 | when any process may die, a stop phase can be left hanging without an abort exactly when some process has to be stopped after one that depends on it |
| `Examples.StopCanHang` | src/launch_manager_daemon/src/process_group_manager/processinfonode.cpp:166-176 | a whole run from the initial state: a two-process group is started, is asked to stop, and hangs because the first process ends on its own |
| `Examples.StartCanHang` | src/launch_manager_daemon/src/process_group_manager/processinfonode.cpp:312-328 | the first transition of a two-process group can hang |
| `Examples.CycleSucceedsUnstarted` | src/launch_manager_daemon/src/process_group_manager/graph.cpp:217-222 | a process that depends on itself is requested: success is announced and it stays idle |
| `Examples.CycleBesideOthersHangs` | src/launch_manager_daemon/src/process_group_manager/graph.cpp:150-164 | a process that depends on itself is requested beside one that can start: every maximal failure-free run starts the other and hangs |
| `JobCapacity.InitializeProcessGroups` | src/launch_manager_daemon/src/process_group_manager/processgroupmanager.cpp:188-230 | succeeds exactly when there is a group and all processes together are within the limit; the total is the sum over the groups created |
| `JobCapacity.SumAdds` | src/launch_manager_daemon/src/process_group_manager/processgroupmanager.cpp:188-230 | the total of groups taken together is the sum of their totals, and that of one group its number of processes |
| `JobCapacity.QueueNeverOverflows` | src/launch_manager_daemon/src/process_group_manager/processgroupmanager.cpp:235-247 | in every run of every set of groups the queued jobs are no more than all processes together, the queue's capacity |
| `Graph.CreateSuccessorLists` | src/launch_manager_daemon/src/process_group_manager/graph.cpp:86-108 | the list of node i names every node that depends on i exactly as often as that node lists i; entries that name no node are passed over |
| `Graph.Graph.constructor` | src/launch_manager_daemon/src/process_group_manager/graph.cpp:58-73 | a new graph is the initial state of the engine, with its successor lists |
| `Graph.Graph.ConstructGraphNode` | src/launch_manager_daemon/src/process_group_manager/processinfonode.cpp:56-98 | the node knows how many entries it waits for, whether it takes part and whether it is a head, and no other node changes |
| `Graph.Graph.CountRunningDependents` | src/launch_manager_daemon/src/process_group_manager/processinfonode.cpp:59-75 | counts over the successor list what the dependency lists of the running processes say about the node |
| `Graph.Graph.CountUnmetDependencies` | src/launch_manager_daemon/src/process_group_manager/processinfonode.cpp:76-95 | counts the entries whose target is not running |
| `Graph.Graph.CountExecutableNodes` | src/launch_manager_daemon/src/process_group_manager/graph.cpp:166-176 | every node is prepared, and the number of included nodes is returned |
| `Graph.Graph.QueueHeadNodesForExecution` | src/launch_manager_daemon/src/process_group_manager/graph.cpp:178-196 | every head node is queued once and counted, if the graph is in transition |
| `Graph.Graph.QueueHeadNodes` | src/launch_manager_daemon/src/process_group_manager/graph.cpp:150-164 | does what the engine does when a phase begins, and says whether a job is in flight |
| `Graph.Graph.QueueStartJobs` | src/launch_manager_daemon/src/process_group_manager/graph.cpp:217-222 | refines the engine's begin of the start phase, success included |
| `Graph.Graph.QueueStopJobs` | src/launch_manager_daemon/src/process_group_manager/graph.cpp:198-215 | refines the engine's begin of the stop phase: exactly the listed nodes in range are requested |
| `Graph.Graph.StartTransition` | src/launch_manager_daemon/src/process_group_manager/graph.cpp:224-248 | refines the engine's transition; an unknown state changes nothing; says exactly when a transition was started |
| `Graph.Graph.StartTransitionToOffState` | src/launch_manager_daemon/src/process_group_manager/graph.cpp:263-280 | the transition with an empty list |
| `Graph.Graph.ProcessSuccessorNodes` | src/launch_manager_daemon/src/process_group_manager/processinfonode.cpp:372-389 | going through the successors one entry at a time lowers every included counter by the number of its entries, and queues exactly the nodes that reach zero |
| `Graph.Graph.QueueTerminationSuccessorJobs` | src/launch_manager_daemon/src/process_group_manager/processinfonode.cpp:150-177 | the same for the dependencies of a stopped process, passing over those that have terminated |
| `Graph.Graph.NodeExecuted` | src/launch_manager_daemon/src/process_group_manager/graph.cpp:282-337 | refines the engine's completion step in and outside a transition |
| `Graph.Graph.Abort` | src/launch_manager_daemon/src/process_group_manager/graph.cpp:339-345 | refines the engine's abort: only the first abort leaves its reason |
| `Graph.Graph.Cancel` | src/launch_manager_daemon/src/process_group_manager/graph.cpp:347-368 | refines the engine's cancel |
| `Graph.Graph.ProcessTerminated` | src/launch_manager_daemon/src/process_group_manager/processinfonode.cpp:179-232 | refines the engine's step for the end of a process |
| `Graph.Graph.BeginWork` | src/launch_manager_daemon/src/process_group_manager/processinfonode.cpp:446-455 | refines the engine's step in which a worker takes a job |
| `Graph.Graph.ReportRunning` | src/launch_manager_daemon/src/process_group_manager/processinfonode.cpp:348-370 | refines the engine's step for a process that has reported running |
| `Graph.Graph.FinishStop` | src/launch_manager_daemon/src/process_group_manager/processinfonode.cpp:391-408 | refines the engine's step for a process that has been stopped |
| `Graph.Graph.SetState` | src/launch_manager_daemon/src/process_group_manager/graph.cpp:110-148 | without interference the exchange loop sets the table entry: the state asked for if that change is allowed, and otherwise what takes its place |
| `StateRace.FinishedCallsAreAtomic` | src/launch_manager_daemon/src/process_group_manager/graph.cpp:110-148 | under every interleaving of any number of calls a finished call acts as one application of its table row at a moment of the call, exactly unless it asked for the undefined state and gave up, without writing, on an aborting graph; that needs a transition during the call |
| `StateRace.ExchangesAreBounded` | src/launch_manager_daemon/src/process_group_manager/graph.cpp:110-148 | a call makes at most one exchange more than there were changes between its start and the moment it acts at |
| `StateRace.EveryChangeIsOneCall` | src/launch_manager_daemon/src/process_group_manager/graph.cpp:110-148 | every change of the state in a run is the table row of exactly one call |
| `StateRace.EntriesIntoStates` | src/launch_manager_daemon/src/process_group_manager/graph.hpp:120-132 | in every run success is entered only from a transition, and a transition only from success or the undefined state |
| `StateRace.FinishedCallFollows` | src/launch_manager_daemon/src/process_group_manager/graph.hpp:100-132 | under every interleaving, and without reference to the table: a finished call leaves the state it asked for if that change is allowed, and otherwise the replacement; a late success and an abort or cancel of a graph in no transition leave it undefined, a cancel overrides an abort and never the reverse, a new transition waits for one that was left; only a request for the undefined state on an aborting graph can be without effect |
| `StateRace.EveryChangeIsAllowed` | src/launch_manager_daemon/src/process_group_manager/graph.hpp:100-132 | every change in a run is an allowed one and follows from the request of the one call that made it |
| `StateRace.LeftUntilUndefined` | src/launch_manager_daemon/src/process_group_manager/graph.hpp:100-132 | from an abort or cancel on, the state only moves from aborting to cancelled until it is undefined |
| `StateRace.SuccessIsEarned` | src/launch_manager_daemon/src/process_group_manager/graph.cpp:292-315 | every success was entered from a transition that has been neither aborted nor cancelled since it began |
| `StateRace.UndefinedCanBeLost` | src/launch_manager_daemon/src/process_group_manager/graph.hpp:120-132 | a run in which a request for the undefined state is lost to an abort |
| `NodeRace.OnlyMovesUp` | src/launch_manager_daemon/src/process_group_manager/processinfonode.cpp:115-126 | under every interleaving of one worker and the reaper the visible state only moves up, except from terminated to idle |
| `NodeRace.EndIsNeverOverwritten` | src/launch_manager_daemon/src/process_group_manager/processinfonode.cpp:204-219 | a process seen terminated is seen in another state only after it has been idle, so no late running or terminating report hides its end |
| `NodeRace.FailureMeansOvertaken` | src/launch_manager_daemon/src/process_group_manager/processinfonode.cpp:115-126 | a call fails only for the worker, and only when the state is by then above what it asked for |
| `NodeRace.CallSucceedsExactly` | src/launch_manager_daemon/src/process_group_manager/processinfonode.cpp:115-126 | a call succeeds exactly when it asks for no less than the state by then, or for idle after it saw the process terminated, and then sets what it asked for |
| `NodeRace.TwoWorkersMoveDown` | src/launch_manager_daemon/src/process_group_manager/processinfonode.cpp:115-126 | with two workers the state can move from starting back to idle |
| `Restart.ProcessNode.StartProcess` | src/launch_manager_daemon/src/process_group_manager/processinfonode.cpp:234-275 | the loop with its counter, including the wrap-around of the final decrement, does what the recursive description of the attempts says; a process that cannot be set idle is left alone |
| `Restart.RestartsThenAborts` | src/launch_manager_daemon/src/process_group_manager/processinfonode.cpp:291-328 | if every attempt dies with a bad status while starting, exactly the configured number of further attempts is made and the graph is aborted exactly once, by the last and with the reason of its ending |
| `Restart.LoopOutcome` | src/launch_manager_daemon/src/process_group_manager/processinfonode.cpp:234-275 | however the attempts go: how many are made, that only the last can abort the graph and exactly when it does, and exactly when the dependents are let go |
| `Restart.LoopLeavesBehind` | src/launch_manager_daemon/src/process_group_manager/processinfonode.cpp:234-370 | what the loop leaves behind, however the attempts go: running exactly when the last attempt succeeded and the process is still there, terminated exactly when it could not be created or has gone, starting exactly when the graph left its transition meanwhile, terminating exactly when it is being killed; the status of the process if it has gone and zero otherwise; and the counter |
| `Restart.UnreportedStart` | src/launch_manager_daemon/src/process_group_manager/processinfonode.cpp:312-328 | a failed start is neither retried nor reported exactly when attempts are left and the last one ended with status zero |
| `Restart.CleanExitGoesUnreported` | src/launch_manager_daemon/src/process_group_manager/processinfonode.cpp:312-328 | an example of such a start |
| `JobQueue.TakenInOrder` | src/launch_manager_daemon/src/process_group_manager/jobqueue.cpp:38-65 | with one producer and one consumer, in every interleaving of wait, index, slot and post steps, what was taken is a prefix of what was added, in order and once each; at most the capacity waits; and when both are back and no item is left, all was taken |
| `JobQueue.NothingOverwritten` | src/launch_manager_daemon/src/process_group_manager/jobqueue.cpp:52-65 | no job is stored over one that has not been taken |
| `JobQueue.SlotsDifferWhenIndexable` | src/launch_manager_daemon/src/process_group_manager/jobqueue.cpp:42-60 | jobs that can wait together have different slots as long as the 32-bit indexes have not wrapped around or the capacity divides their number |
| `JobOrder.JobsKeptExactly` | src/launch_manager_daemon/src/process_group_manager/jobqueue.cpp:38-65 | for every capacity and every number of producers and consumers: in every run the taken jobs are the first of the added ones, in order, exactly when there is at most one slot, or no producer or no consumer, or one of each and the capacity divides 2^32; and exactly then no run at rest has lost a job |
| `JobOrder.OneSlotStep` | src/launch_manager_daemon/src/process_group_manager/jobqueue.cpp:38-65 | with one slot the semaphores and all threads share a single permit, and every step keeps the jobs in order |
| `JobOrder.WrapAroundLosesAJob` | src/launch_manager_daemon/src/process_group_manager/jobqueue.cpp:42-60 | with one producer and one consumer and a capacity of at least two that does not divide 2^32, some run loses a job at the wrap-around of the indexes |
| `JobOrder.TwoConsumersLoseAJob` | src/launch_manager_daemon/src/process_group_manager/jobqueue.cpp:38-50 | with at least two slots and two consumers, some run ends at rest with a job that was never taken |
| `JobOrder.TwoProducersLoseAJob` | src/launch_manager_daemon/src/process_group_manager/jobqueue.cpp:52-65 | with at least two slots and two producers, some run takes an empty slot and ends at rest with a job that was never taken |
| `RingBuffer.RingBuffer.constructor` | externals/ipc_dropin/include/ipc_dropin/ringbuffer.hpp:27-41 | a new buffer is empty and has not overflowed |
| `RingBuffer.RingBuffer.TryEnqueue` | externals/ipc_dropin/include/ipc_dropin/ringbuffer.hpp:47-62 | the value is added at the end, or refused exactly when the buffer is full, which sets the flag |
| `RingBuffer.RingBuffer.TryDequeue` | externals/ipc_dropin/include/ipc_dropin/ringbuffer.hpp:83-98 | the value at the front is taken exactly when there is one and it has the size asked for |
| `RingBuffer.RingBuffer.TryPop` | externals/ipc_dropin/include/ipc_dropin/ringbuffer.hpp:100-107 | the front is dropped whatever its size |
| `RingBuffer.RingBuffer.TryPeek` | externals/ipc_dropin/include/ipc_dropin/ringbuffer.hpp:109-123 | the front is shown under the same condition as for taking it |
| `RingBuffer.RingBuffer.GetOverflowFlag` | externals/ipc_dropin/include/ipc_dropin/ringbuffer.hpp:125-131 | reads the flag and clears it only on request |
| `RingBuffer.WindowGrows` | externals/ipc_dropin/include/ipc_dropin/ringbuffer.hpp:136-137 | writing at the write head appends to what the circular window holds |
| `RingBuffer.WindowShrinks` | externals/ipc_dropin/include/ipc_dropin/ringbuffer.hpp:136-137 | advancing the read head removes the first element of the window |
| `RingBuffer.BufferAgreesWithLog` | externals/ipc_dropin/include/ipc_dropin/ringbuffer.hpp:47-131 | after any sequence of operations the buffer holds the accepted values that have not been taken, in order and no more than the capacity, values being refused only when that many wait, and the flag says whether one was refused since its reset |
| `RingBuffer.FrontAgreesWithLog` | externals/ipc_dropin/include/ipc_dropin/ringbuffer.hpp:83-123 | after any sequence of operations a value is handed out exactly if it is the oldest one not taken and has the size asked for |
| `ProcessReports.ProcessStateNotifier.QueuePosixProcess` | src/launch_manager_daemon/process_state_client_lib/src/processstatenotifier.cpp:33-42 | a notification is queued, or refused exactly when the buffer is full |
| `ProcessReports.ProcessStateReceiver.GetNextChangedPosixProcess` | src/launch_manager_daemon/process_state_client_lib/src/processstatereceiver.cpp:26-47 | what one receive returns and takes, errors included |
| `ProcessReports.NoSilentGap` | src/launch_manager_daemon/process_state_client_lib/src/processstatereceiver.cpp:26-47 | in every interleaving of notifications with the steps of receives, what was received is a prefix of all that was notified; while none was refused the rest is in the buffer; and no receive ends in a general error |
| `ProcessReports.RefusalIsReported` | src/launch_manager_daemon/process_state_client_lib/src/processstatereceiver.cpp:26-47 | after a refused notification every receive that begins returns a communication error |
| `ProcessReports.ReceiveReturns` | src/launch_manager_daemon/process_state_client_lib/src/processstatereceiver.cpp:26-47 | in every interleaving: a receive is refused at the flag exactly when a notification has been refused, returns nothing exactly when the buffer is empty, which means that all has been received unless one was refused, and otherwise returns the next notification |
| `ProcessReports.UndisturbedReceive` | src/launch_manager_daemon/process_state_client_lib/src/processstatereceiver.cpp:26-47 | the steps of a receive with nothing in between do what the call is proved to do |
| `RecoverySlots.EverySlotHasOneOwner` | src/launch_manager_daemon/recovery_client_lib/src/recovery_client.cpp:31-79 | in every interleaving of any number of senders and the handler a slot is in use exactly when exactly one sender, one request in the buffer or the handler has it |
| `RecoverySlots.EveryFutureIsResolvedOnce` | src/launch_manager_daemon/recovery_client_lib/src/recovery_client.cpp:31-79 | no future is resolved twice, and when every thread is back and the buffer is empty all futures are resolved and all slots are free |
| `RecoverySlots.BufferHasRoom` | src/launch_manager_daemon/recovery_client_lib/src/recovery_client.cpp:52-56 | with no more slots than buffer places a request that has a slot is never refused |
| `RecoverySlots.ErrorMeansAllBusy` | src/launch_manager_daemon/recovery_client_lib/src/recovery_client.cpp:33-60 | in every interleaving a sender takes the first slot it finds free, and gets an error for want of a slot only after it found every slot in use at some time during its call |
| `RecoverySlots.HandledInOrder` | src/launch_manager_daemon/recovery_client_lib/src/recovery_client.cpp:52-79 | the requests taken by the handler are the first of those put into the buffer, in order, and the rest is in the buffer |
| `RecoverySlots.StepInv` | src/launch_manager_daemon/recovery_client_lib/src/recovery_client.cpp:31-79 | every step keeps slots and futures in balance |
| `RecoveryClient.RecoveryClient.constructor` | src/launch_manager_daemon/recovery_client_lib/src/recovery_client.cpp:27-29 | a new client has no request and no slot in use |
| `RecoveryClient.RecoveryClient.FindFreeSlot` | src/launch_manager_daemon/recovery_client_lib/src/recovery_client.cpp:33-40 | claims the first free slot, if there is one |
| `RecoveryClient.RecoveryClient.SendRecoveryRequest` | src/launch_manager_daemon/recovery_client_lib/src/recovery_client.cpp:31-61 | the future is pending with its request at the end of the buffer exactly when a slot and space were left and the promise gave its future; otherwise it holds an error and the slot is free again; slots and futures stay in balance |
| `RecoveryClient.RecoveryClient.SetResponse` | src/launch_manager_daemon/recovery_client_lib/src/recovery_client.cpp:63-71 | answers the future of the slot and frees the slot |
| `RecoveryClient.RecoveryClient.GetNextRequest` | src/launch_manager_daemon/recovery_client_lib/src/recovery_client.cpp:73-79 | takes the first request, which then is the one being handled |
| `RecoveryClient.RefusedChangesNothing` | src/launch_manager_daemon/src/process_group_manager/processgroupmanager.cpp:548-579 | a group none of whose requests in the buffer is accepted stays as it is |
| `RecoveryClient.LastAcceptedDecides` | src/launch_manager_daemon/src/process_group_manager/processgroupmanager.cpp:548-579 | otherwise the last accepted request for the group decides the pending state, whatever was pending before, and a transition that was going on has been cancelled |
| `RecoveryClient.AnswersAsPromised` | src/launch_manager_daemon/src/process_group_manager/processgroupmanager.cpp:533-579 | the answer to every request of a drain, told from the groups before it: invalid for an unknown group; already in the state exactly for a group in success asked for its own state; in transition to the same state exactly if this and all earlier requests for the group name the state it is going to; accepted otherwise |
| `RecoveryClient.GroupsAsPromised` | src/launch_manager_daemon/src/process_group_manager/processgroupmanager.cpp:548-579 | the groups after a drain: a transition for which another state was asked is cancelled, or undefined if it has no job in flight, and no other state changes |
| `RecoveryClient.RecoveryActionHandler` | src/launch_manager_daemon/src/process_group_manager/processgroupmanager.cpp:523-581 | draining the buffer gives the future of every request in it the promised answer, in order, changes no other answered future and frees every slot |
| `Heartbeat.PackedLayout` | src/health_monitoring_lib/rust/heartbeat/heartbeat_state.rs:41-56 | the mask and shift expressions on the 64-bit word are the divisions and remainders of the model |
| `Heartbeat.PackedCounter` | src/health_monitoring_lib/rust/heartbeat/heartbeat_state.rs:58-63 | the same for writing the counter |
| `Heartbeat.BeatDecoded` | src/health_monitoring_lib/rust/heartbeat/heartbeat_state.rs:41-63 | after a beat the word holds its timestamp if it is the first since the reset, and several otherwise, however many |
| `Heartbeat.HeartbeatMonitor.Heartbeat` | src/health_monitoring_lib/rust/heartbeat/heartbeat_monitor.rs:190-201 | afterwards the word stands for this beat if it is the first since the last evaluation, and for several otherwise |
| `Heartbeat.HeartbeatMonitor.Evaluate` | src/health_monitoring_lib/rust/heartbeat/heartbeat_monitor.rs:203-269 | resets the word, returns the verdict on it and begins a new cycle exactly on a beat in range |
| `Heartbeat.Build` | src/health_monitoring_lib/rust/heartbeat/heartbeat_monitor.rs:59-78 | a monitor is built exactly when the processing cycle is shorter than twice the shortest gap, which then is at least one millisecond |
| `Heartbeat.ReportsTheHistory` | src/health_monitoring_lib/rust/heartbeat/heartbeat_monitor.rs:203-269 | up to and including the first error, every evaluation reports exactly what the plain history of beats and evaluations calls for |
| `Heartbeat.EveryReport` | src/health_monitoring_lib/rust/heartbeat/heartbeat_monitor.rs:203-269 | after errors too, every evaluation reports what the beats since the last one call for, measured from the last beat that was found alone and in range |
| `Heartbeat.WordCountsBeats` | src/health_monitoring_lib/rust/heartbeat/heartbeat_state.rs:41-63 | after any history the word holds the time of the last beat and the number of beats since the last evaluation, up to three |
| `Heartbeat.ErrorFreeExactly` | src/health_monitoring_lib/rust/heartbeat/heartbeat_monitor.rs:203-269 | a run is error-free exactly when the history gives no evaluation a reason to complain |
| `Heartbeat.NoErrorMeansInRange` | src/health_monitoring_lib/rust/heartbeat/heartbeat_monitor.rs:117-125 | an error-free run that ends with an evaluation has its first beat and all gaps in range |
| `Heartbeat.HealthyIsNeverReported` | src/health_monitoring_lib/rust/heartbeat/heartbeat_monitor.rs:203-269 | beats in range with evaluations less than the shortest gap apart, the first within that of the start, never lead to an error |
| `Heartbeat.HealthyCanBeReported` | src/health_monitoring_lib/rust/heartbeat/heartbeat_monitor.rs:65-74 | for every larger spacing that the builder accepts there are beats in range that are reported as several |
| `Heartbeat.HealthyReportedExample` | src/health_monitoring_lib/rust/heartbeat/heartbeat_monitor.rs:65-74 | an example with gaps of 100 to 200 ms and a cycle of 150 ms |
| `Deadline.PackedLayout` | src/health_monitoring_lib/rust/deadline/deadline_state.rs:36-55 | the mask and shift expressions on the 64-bit word are the divisions and remainders of the model |
| `Deadline.PackedRunning` | src/health_monitoring_lib/rust/deadline/deadline_state.rs:57-59 | the same for setting the running bit |
| `Deadline.PackedUnderrun` | src/health_monitoring_lib/rust/deadline/deadline_state.rs:61-63 | the same for setting the underrun bit |
| `Deadline.RunningDecoded` | src/health_monitoring_lib/rust/deadline/deadline_state.rs:36-59 | a word written by a start reads back as running until that time |
| `Deadline.UpdateOnStart` | src/health_monitoring_lib/rust/deadline/deadline_monitor.rs:154-177 | a start is taken exactly when the word stands for a stopped deadline, and then the word stands for one that runs until the latest time in 32-bit arithmetic |
| `Deadline.UpdateOnStop` | src/health_monitoring_lib/rust/deadline/deadline_monitor.rs:179-213 | what the word stands for after a stop: a running deadline stopped too early is marked for good, one stopped in time is stopped, one stopped too late stays as it is |
| `Deadline.DeadlineMonitor.Start` | src/health_monitoring_lib/rust/deadline/deadline_monitor.rs:154-177 | a start changes only its own deadline, and only if it is not refused |
| `Deadline.DeadlineMonitor.Stop` | src/health_monitoring_lib/rust/deadline/deadline_monitor.rs:179-224 | a stop changes only its own deadline |
| `Deadline.DeadlineMonitor.Evaluate` | src/health_monitoring_lib/rust/deadline/deadline_monitor.rs:261-292 | every deadline is looked at once, in order |
| `Deadline.ErrorsExactly` | src/health_monitoring_lib/rust/deadline/deadline_monitor.rs:261-292 | a deadline is named with an error exactly when its own word calls for that error |
| `Deadline.ErrorsInOrder` | src/health_monitoring_lib/rust/deadline/deadline_monitor.rs:261-292 | the errors come in the order of the deadlines, and no deadline has two |
| `Deadline.WordAgrees` | src/health_monitoring_lib/rust/deadline/deadline_monitor.rs:154-213 | the word stands for the history: earlier intervals were met, and it tells whether the last is met, early, or running or late |
| `Deadline.ReportsTheHistory` | src/health_monitoring_lib/rust/deadline/deadline_monitor.rs:261-292 | an evaluation reports an error exactly when some interval so far was stopped outside the range or runs past it, and says early exactly when one was stopped early |
| `Deadline.NothingStartsAfterMiss` | src/health_monitoring_lib/rust/deadline/deadline_monitor.rs:158-176 | from the stop that closes a missed interval on, every start is refused and no interval is added |
| `Deadline.MissIsReportedForever` | src/health_monitoring_lib/rust/deadline/deadline_monitor.rs:261-292 | and every later evaluation reports it |
| `Deadline.SplitEvaluationAgreesExactly` | src/health_monitoring_lib/rust/deadline/deadline_monitor.rs:261-292 | for every history and every number of events between snapshot and clock: the report agrees with the history at the clock exactly unless the interval seen running was stopped in time, is late by the clock and nothing later was missed, or was stopped early while the clock is not past its latest time, or all that was seen was met and an interval begun later was missed |
| `Deadline.StopInTimeReported` | src/health_monitoring_lib/rust/deadline/deadline_monitor.rs:264-288 | a family of false reports: the stop comes in time but after the snapshot, and the clock is read after the latest time |
| `Deadline.EarlyStopOverlooked` | src/health_monitoring_lib/rust/deadline/deadline_monitor.rs:264-288 | a family of missed reports: the stop comes too early, after the snapshot |
| `Deadline.LateAtOnce` | src/health_monitoring_lib/rust/deadline/deadline_monitor.rs:155-156 | a deadline is reported late at the moment of its start exactly when start plus maximum is beyond 32 bits |
| `Configuration.ConfigurationManager.NumberInstances` | src/launch_manager_daemon/src/configuration_manager/configurationmanager.cpp:418-424 | the loop gives the instances consecutive numbers, and the last number to all that come after it |
| `Configuration.NumbersTellApart` | src/launch_manager_daemon/src/configuration_manager/configurationmanager.cpp:418-424 | the numbers given from zero on are free of duplicates exactly when there are at most 2^32 instances |
| `Configuration.NumberedExactly` | src/launch_manager_daemon/src/configuration_manager/configurationmanager.cpp:418-424 | exactly then the numbers of assigned processes always tell them apart, as `Configuration.IndexListsDecode` needs, instances having different ids |
| `Configuration.ConfigurationManager.AssignOsProcessInstanceToProcessGroup` | src/launch_manager_daemon/src/configuration_manager/configurationmanager.cpp:690-723 | refines the assignment on values: first group and first state of the name, old index or a new one at the end, listed once |
| `Configuration.IndexListsDecode` | src/launch_manager_daemon/src/configuration_manager/configurationmanager.cpp:690-723 | after any assignments whose numbers tell processes apart, a state's index list is free of duplicates, in range and stands for exactly the processes assigned to it |
| `Configuration.IndexesStay` | src/launch_manager_daemon/src/configuration_manager/configurationmanager.cpp:698-716 | an index once given keeps naming the same process: processes and indexes are only added behind the others |
| `Configuration.ListedExactly` | src/launch_manager_daemon/src/configuration_manager/configurationmanager.cpp:698-720 | for any number of processes: the state lists the index of the assigned process exactly if it did before or the index is not cut off |
| `Configuration.ConfigurationManager.AssignOsProcessIndexesInDependencyList` | src/launch_manager_daemon/src/configuration_manager/configurationmanager.cpp:725-732 | every dependency of every process of every group is resolved, and nothing else changes |
| `Configuration.UpdateOsProcessIndexInDependencyList` | src/launch_manager_daemon/src/configuration_manager/configurationmanager.cpp:734-757 | resolves a list in place, entry by entry |
| `Configuration.DependencyNamesTarget` | src/launch_manager_daemon/src/configuration_manager/configurationmanager.cpp:738-748 | a dependency whose target is in the group gets the index of the first process with that id |
| `Configuration.DependenciesAreInRange` | src/launch_manager_daemon/src/configuration_manager/configurationmanager.cpp:725-757 | whatever the targets, the resolved lists are in range, as the graph needs them |
| `Configuration.MissingTargetIsProcessZero` | src/launch_manager_daemon/src/configuration_manager/configurationmanager.cpp:738-748 | a dependency whose target is missing stays as it was made, naming process zero, which is not its target |

## Left out

- Dependencies on termination and unknown dependency states: every dependency of the model waits for its target to be running.
- Finer interleavings of the engine: queueing the head nodes, adding a job together with counting it, completion, and the reaper's report are each one step, so a report that falls between the reaper's status and state writes is not modelled.
- StopOrder.DependentsStopFirst: transitions begin in settled states, in which every process is idle, running or terminated.
- StartOrder.DependenciesRunFirst: a self-terminating dependency accepted after a clean end counts as having been running, although its state never showed it.
- Runs.CompletionAnnouncesSuccessOnlyWhenAllExecuted: for completions of the start phase; when the last stop job completes and no start node is ready, success is announced at once, as in Stalls.SuccessWithoutStarting and Outcome.OutcomeIsDetermined.
- Hangs.TransitionHangsExactlyWhenExposed: for acyclic, closed dependencies; hangs that need both self-terminating processes and cyclic or unclosed dependencies are not characterised.
- Outcome.OutcomeIsDetermined: for groups without self-terminating processes; with them the set of running processes is not determined by the request, and Progress.CalmRunReachesRequest bounds it from both sides.
- Deaths.StopStrandsExactlyWhenSomebodyWaits: for transitions that begin with a stop phase; a death in a start phase aborts the transition.
- ProcessReports.NoSilentGap: for one receiver, whose receives do not overlap each other.
- JobQueue and JobOrder: the queue is modelled by its steps on values, not as an object updated in place; stopping the queue is not modelled.
- StateRace, NodeRace and RecoverySlots: modelled on values, since their threads interleave within a call; atomics are sequentially consistent.
- Graph.Graph: the nodes are the graph's lists of values, not objects of their own, so aliasing between nodes is not modelled; counters are unbounded.
- RingBuffer: a node holds a value and its size instead of bytes; the lock is taken for granted.
- Heartbeat and Deadline: durations beyond 64 or 32 bits of milliseconds and timestamps beyond 62 bits stop the program in the source and are outside the model; beats and evaluations are single steps, apart from the split in Deadline.SplitEvaluationAgreesExactly.
- Deadline: acquiring and releasing deadlines by tag, which would only add easy members.
- Restart: the launch manager's own entry in a process group, which is not started.
- RecoveryClient.HandleRequest: the group's start time and the responses to control clients.
- Reporting the result of the initial transition, restoring the requested state's name, delivering and clearing the pending event.
- The control thread's handler that picks pending transitions, and the routing of control client requests and responses.
- The process map, operating system calls, signals, semaphores' internals and worker threads: their outcomes are steps or parameters.
- Parsing of the configuration files, scheduling and environment settings.
- The foreign function interfaces, tags, logging and the timing loop of the health monitor; the lifecycle client, examples and generators.
