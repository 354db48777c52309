/** The graph of a process group as the object it is: fields updated in place by methods with loops. Every
    method is proved to do what the corresponding function of the state machine says. */
module Graph {
  import opened States
  import opened Counting
  import opened Engine
  import opened Wrappers
  import E = Engine

  class Graph {
    const config: Config
    /** For each node the nodes that depend on it, once per dependency entry. */
    var dependentOnRunning: seq<seq<nat>>

    var state: GraphState
    var starting: bool
    var nodesToExecute: nat
    var nodesInFlight: int
    var event: Code
    var abortCode: Code

    var processState: seq<ProcessState>
    var failed: set<nat>
    var dependencies: seq<nat>
    var inRequestedState: set<nat>
    var isIncluded: set<nat>
    var isHeadNode: set<nat>

    /** Jobs of this graph in the workers' queue and in the workers' hands. */
    var queued: multiset<nat>
    var starters: multiset<nat>
    var leaving: multiset<nat>
    var stoppers: multiset<nat>
    var done: multiset<nat>

    ghost var executed: set<nat>
    ghost var released: set<nat>
    ghost var holding: set<nat>
    ghost var epoch: nat

    ghost function Model(): Engine
      reads this
    {
      Engine(state, starting, nodesToExecute, nodesInFlight, event, abortCode, processState, failed, dependencies,
             inRequestedState, isIncluded, queued, starters, leaving, stoppers, done, executed, released, holding, epoch)
    }

    ghost predicate Valid()
      reads this
    {
      && ValidConfig(config)
      && |processState| == |config.deps| && |dependencies| == |config.deps|
      && (forall i :: i in isIncluded ==> i < |config.deps|)
      && (forall i :: i in inRequestedState ==> i < |config.deps|)
      && |dependentOnRunning| == |config.deps|
      && forall i :: 0 <= i < |config.deps| ==> Transposes(dependentOnRunning[i], config.deps, i)
    }

    constructor (config: Config)
      requires ValidConfig(config)
      ensures Valid() && this.config == config && Model() == Initial(config)
    {
      this.config := config;
      state, starting, nodesToExecute, nodesInFlight := Success, false, 0, 0;
      event, abortCode := NotSet, NotSet;
      processState, failed := seq(|config.deps|, i => Idle), {};
      dependencies, inRequestedState := seq(|config.deps|, i => 0), {};
      isIncluded, isHeadNode := {}, {};
      queued, starters, leaving, stoppers, done := multiset{}, multiset{}, multiset{}, multiset{}, multiset{};
      executed, released, holding, epoch := {}, {}, {}, 0;
      new;
      dependentOnRunning := CreateSuccessorLists(config);
    }

    // ---- Building the phase ----

    /** Node `i` knows how many entries it waits for, whether it takes part, and whether it is a head. */
    ghost predicate Prepared(start: bool, i: nat)
      reads this
    {
      && i < |config.deps| && |processState| == |config.deps| && |dependencies| == |config.deps|
      && dependencies[i] == InitialCounter(config, processState, start, i)
      && (i in isIncluded <==> Includes(processState, inRequestedState, start, i))
      && (i in isHeadNode <==> i in isIncluded && dependencies[i] == 0)
    }

    /** Prepare node `i` for a phase. */
    method ConstructGraphNode(start: bool, i: nat) returns (included: bool)
      requires Valid() && i < |config.deps|
      modifies this`dependencies, this`isIncluded, this`isHeadNode
      ensures Valid()
      ensures Prepared(start, i) && included == (i in isIncluded)
      ensures forall k: nat :: k < |config.deps| && k != i ==>
                && dependencies[k] == old(dependencies[k])
                && (k in isIncluded <==> k in old(isIncluded))
                && (k in isHeadNode <==> k in old(isHeadNode))
    {
      hide CountHeld, CountOutside, Transposes, RunningSet;
      var counter;
      if !start {
        counter := CountRunningDependents(i);
        included := !(processState[i] == Idle || processState[i] == Terminated) && i !in inRequestedState;
      } else {
        counter := CountUnmetDependencies(i);
        included := i in inRequestedState && processState[i] != Running;
      }
      dependencies := dependencies[i := counter];
      isIncluded := if included then isIncluded + {i} else isIncluded - {i};
      isHeadNode := if included && counter == 0 then isHeadNode + {i} else isHeadNode - {i};
    }

    method CountRunningDependents(i: nat) returns (counter: nat)
      requires Valid() && i < |config.deps|
      ensures counter == CountHeld(config.deps, RunningSet(processState), i, |config.deps|)
    {
      var list := dependentOnRunning[i];
      assert Transposes(list, config.deps, i);
      counter := 0;
      var m := 0;
      while m < |list|
        invariant 0 <= m <= |list|
        invariant counter == CountIn(list[..m], RunningSet(processState))
      {
        CountInAppend(list[..m], [list[m]], RunningSet(processState));
        assert list[..m] + [list[m]] == list[..m + 1];
        assert list[m] in list;
        if processState[list[m]] == Running {
          counter := counter + 1;
        }
        m := m + 1;
      }
      assert list[..m] == list;
      CountInTransposed(list, config.deps, RunningSet(processState), i);
    }

    method CountUnmetDependencies(i: nat) returns (counter: nat)
      requires Valid() && i < |config.deps|
      ensures counter == CountOutside(config.deps[i], RunningSet(processState))
    {
      var list := config.deps[i];
      counter := |list|;
      var m := 0;
      while m < |list|
        invariant 0 <= m <= |list|
        invariant counter == CountOutside(list[..m], RunningSet(processState)) + (|list| - m)
      {
        CountOutsideAppend(list[..m], [list[m]], RunningSet(processState));
        assert list[..m] + [list[m]] == list[..m + 1];
        assert list[m] in list;
        if processState[list[m]] == Running {
          counter := counter - 1;
        }
        m := m + 1;
      }
      assert list[..m] == list;
    }

    /** Prepare every node and count those that take part. */
    method CountExecutableNodes(start: bool) returns (executing: nat)
      requires Valid()
      modifies this`dependencies, this`isIncluded, this`isHeadNode
      ensures Valid()
      ensures dependencies == InitialCounters(config, processState, start)
      ensures isIncluded == IncludedSet(processState, inRequestedState, start)
      ensures forall i: nat :: i < |config.deps| ==> (i in isHeadNode <==> i in isIncluded && dependencies[i] == 0)
      ensures executing == |isIncluded|
    {
      hide InitialCounter, Includes, Transposes, ValidConfig;
      executing := 0;
      ghost var seen: set<nat> := {};
      var k := 0;
      while k < |config.deps|
        invariant 0 <= k <= |config.deps| && Valid()
        invariant forall i: nat :: i < k ==> Prepared(start, i)
        invariant forall i: nat :: i in seen <==> i < k && i in isIncluded
        invariant executing == |seen|
      {
        label before:
        var included := ConstructGraphNode(start, k);
        forall i: nat | i < k
          ensures Prepared(start, i)
        {
          assert old@before(Prepared(start, i));
        }
        if included {
          executing := executing + 1;
          seen := seen + {k};
        }
        k := k + 1;
      }
      assert seen == isIncluded;
      hide Prepared, InitialCounters, IncludedSet;
      AllPrepared(start);
    }

    lemma AllPrepared(start: bool)
      requires Valid() && forall i: nat :: i < |config.deps| ==> Prepared(start, i)
      ensures dependencies == InitialCounters(config, processState, start)
      ensures isIncluded == IncludedSet(processState, inRequestedState, start)
      ensures forall i: nat :: i < |config.deps| ==> (i in isHeadNode <==> i in isIncluded && dependencies[i] == 0)
    {
      hide CountHeld, CountOutside, RunningSet, Transposes, ValidConfig;
      forall i: nat | i < |config.deps|
        ensures dependencies[i] == InitialCounter(config, processState, start, i)
        ensures i in isIncluded <==> i in IncludedSet(processState, inRequestedState, start)
        ensures i in isHeadNode <==> i in isIncluded && dependencies[i] == 0
      {
        assert Prepared(start, i);
      }
    }

    /** Queue the job of node `i`, unless the graph has left its transition. */
    method TryQueueNode(i: nat)
      modifies this`queued, this`nodesInFlight
      ensures queued == if state == InTransition then old(queued) + multiset{i} else old(queued)
      ensures nodesInFlight == old(nodesInFlight) + (if state == InTransition then 1 else 0)
    {
      if state == InTransition {
        queued := queued + multiset{i};
        nodesInFlight := nodesInFlight + 1;
      }
    }

    method QueueHeadNodesForExecution()
      requires Valid() && nodesInFlight == 0
      requires forall i: nat :: i < |config.deps| ==> (i in isHeadNode <==> i in isIncluded && dependencies[i] == 0)
      modifies this`queued, this`nodesInFlight
      ensures var heads := if state == InTransition then Heads(isIncluded, dependencies) else {};
              queued == old(queued) + multiset(heads) && nodesInFlight == |heads|
    {
      ghost var heads: set<nat> := {};
      var k := 0;
      while k < |config.deps|
        invariant 0 <= k <= |config.deps|
        invariant forall i: nat :: i in heads <==> state == InTransition && i < k && i in isHeadNode
        invariant queued == old(queued) + multiset(heads) && nodesInFlight == |heads|
      {
        if k in isHeadNode {
          TryQueueNode(k);
          if state == InTransition {
            heads := heads + {k};
          }
        }
        k := k + 1;
      }
      assert heads == if state == InTransition then Heads(isIncluded, dependencies) else {};
    }

    method ResetPhase(start: bool)
      modifies this`starting, this`nodesInFlight, this`executed, this`released, this`holding, this`epoch
      ensures starting == start && nodesInFlight == 0 && executed == {} && epoch == old(epoch) + 1
      ensures released == if start then RunningSet(processState) else {}
      ensures holding == if start then {} else RunningSet(processState)
    {
      starting := start;
      nodesInFlight := 0;
      executed, epoch := {}, epoch + 1;
      released := if start then RunningSet(processState) else {};
      holding := if start then {} else RunningSet(processState);
    }

    /** Build the node list of a phase. */
    method BuildPhase(start: bool)
      requires Valid()
      modifies this
      ensures Valid() && dependentOnRunning == old(dependentOnRunning)
      ensures forall i: nat :: i < |config.deps| ==> (i in isHeadNode <==> i in isIncluded && dependencies[i] == 0)
      ensures Model() == E.BuildPhase(config, old(Model()), start)
    {
      hide InitialCounters, IncludedSet, RunningSet, Transposes, ValidConfig;
      ResetPhase(start);
      ghost var m := Model();
      var executing := CountExecutableNodes(start);
      nodesToExecute := executing;
      assert Model() == m.(counters := dependencies, included := isIncluded, toExecute := executing);
    }

    /** Build a phase and queue its heads; false if there were none. */
    method QueueHeadNodes(start: bool) returns (queuedSome: bool)
      requires Valid()
      modifies this
      ensures Valid() && dependentOnRunning == old(dependentOnRunning)
      ensures Model() == E.QueueHeadNodes(config, old(Model()), start)
      ensures queuedSome == (nodesInFlight > 0)
    {
      hide InitialCounters, IncludedSet, RunningSet, Transposes, ValidConfig;
      BuildPhase(start);
      if nodesToExecute > 0 {
        QueueHeadNodesForExecution();
      } else {
        assert isIncluded == {};
        assert Heads(isIncluded, dependencies) == {};
      }
      queuedSome := nodesInFlight > 0;
    }

    method QueueStartJobs()
      requires Valid()
      modifies this
      ensures Valid() && dependentOnRunning == old(dependentOnRunning)
      ensures Model() == E.QueueStartJobs(config, old(Model()))
    {
      var queuedSome := QueueHeadNodes(true);
      if !queuedSome {
        SetState(Success);
        event := SetStateSuccess;
      }
    }

    method QueueStopJobs(indexes: seq<nat>)
      requires Valid()
      modifies this
      ensures Valid() && dependentOnRunning == old(dependentOnRunning)
      ensures Model() == E.QueueStopJobs(config, old(Model()), indexes)
    {
      inRequestedState := {};
      var k := 0;
      while k < |indexes|
        invariant 0 <= k <= |indexes|
        invariant inRequestedState == set i | i in indexes[..k] && i < |config.deps|
        invariant Valid() && Model() == old(Model()).(requested := inRequestedState)
        invariant dependentOnRunning == old(dependentOnRunning)
      {
        assert indexes[..k + 1] == indexes[..k] + [indexes[k]];
        if indexes[k] < |config.deps| {
          inRequestedState := inRequestedState + {indexes[k]};
        }
        k := k + 1;
      }
      assert indexes[..k] == indexes;
      var queuedSome := QueueHeadNodes(false);
      if !queuedSome {
        QueueStartJobs();
      }
    }

    /** Start a transition to the state whose processes are listed, if that state is known. */
    method StartTransition(indexes: Option<seq<nat>>) returns (started: bool)
      requires Valid()
      modifies this
      ensures Valid() && dependentOnRunning == old(dependentOnRunning)
      ensures indexes.None? ==> !started && Model() == old(Model())
      ensures indexes.Some? ==> Model() == E.StartTransition(config, old(Model()), indexes.value)
      ensures started <==> indexes.Some? && TableEntry(InTransition, old(state)) == InTransition
    {
      started := false;
      if indexes.Some? {
        SetState(InTransition);
        if state == InTransition {
          QueueStopJobs(indexes.value);
          started := true;
        }
      }
    }

    method StartTransitionToOffState() returns (started: bool)
      requires Valid()
      modifies this
      ensures Valid() && dependentOnRunning == old(dependentOnRunning)
      ensures Model() == E.StartTransition(config, old(Model()), [])
      ensures started <==> TableEntry(InTransition, old(state)) == InTransition
    {
      started := StartTransition(Some([]));
    }

    // ---- Letting other nodes go ----

    /** One entry naming node `k` is met. */
    method ProcessJob(k: nat)
      requires k < |dependencies|
      modifies this`dependencies, this`queued, this`nodesInFlight
      ensures Model() == OneEntry(old(Model()), k)
    {
      ghost var e := Model();
      if k in isIncluded && dependencies[k] > 0 {
        dependencies := dependencies[k := dependencies[k] - 1];
        if dependencies[k] == 0 {
          TryQueueNode(k);
        }
      }
      assert Model() == e.(counters := dependencies, queued := queued, inFlight := nodesInFlight);
    }

    /** Go through the nodes that depend on process `j`, which is running. */
    method ProcessSuccessorNodes(j: nat)
      requires Valid() && j < |config.deps|
      modifies this`dependencies, this`queued, this`nodesInFlight
      ensures |dependencies| == old(|dependencies|)
      ensures Model() == Lower(old(Model()), StartAmounts(config, old(Model()), j))
    {
      var list := dependentOnRunning[j];
      assert Transposes(list, config.deps, j);
      hide Entries, Lower, OneEntry, StartAmounts, ValidConfig;
      ghost var e := Model();
      EntriesMet(e, [], isIncluded);
      var m := 0;
      while m < |list|
        invariant 0 <= m <= |list|
        invariant Model() == Lower(e, Entries(e, list[..m], isIncluded))
      {
        assert list[m] in list;
        LowerSize(e, Entries(e, list[..m], isIncluded));
        OneMoreMet(e, list, m, isIncluded);
        ProcessJob(list[m]);
        m := m + 1;
      }
      assert list[..m] == list;
      LowerSize(e, Entries(e, list, isIncluded));
      EntriesAreStartAmounts(config, e, j, list);
    }

    /** A dependency that has itself terminated is passed over. */
    method ProcessDependency(k: nat)
      requires k < |processState| && k < |dependencies|
      modifies this`dependencies, this`queued, this`nodesInFlight
      ensures |dependencies| == old(|dependencies|)
      ensures k in isIncluded && processState[k] != Terminated ==> Model() == OneEntry(old(Model()), k)
      ensures k !in isIncluded || processState[k] == Terminated ==> Model() == old(Model())
    {
      OneEntrySize(Model(), k);
      UncountedEntry(Model(), k);
      hide OneEntry;
      if processState[k] != Terminated {
        ProcessJob(k);
      }
    }

    /** Go through the dependencies of process `j`, which has been stopped. */
    method QueueTerminationSuccessorJobs(j: nat)
      requires Valid() && j < |config.deps|
      modifies this`dependencies, this`queued, this`nodesInFlight
      ensures |dependencies| == old(|dependencies|)
      ensures Model() == Lower(old(Model()), StopAmounts(config, old(Model()), j))
    {
      hide Entries, Lower, StopAmounts, Transposes, Alive;
      ghost var e := Model();
      MeetDependencies(config.deps[j]);
      EntriesAreStopAmounts(config, e, j);
      LowerSize(e, Entries(e, config.deps[j], Alive(e)));
    }

    method MeetDependencies(list: seq<nat>)
      requires |dependencies| == |processState| && forall x :: x in list ==> x < |dependencies|
      requires forall i :: i in isIncluded ==> i < |processState|
      modifies this`dependencies, this`queued, this`nodesInFlight
      ensures Model() == Lower(old(Model()), Entries(old(Model()), list, Alive(old(Model()))))
    {
      hide Entries, Lower, OneEntry, Alive;
      ghost var e := Model();
      ghost var alive := Alive(e);
      EntriesMet(e, [], alive);
      var m := 0;
      while m < |list|
        invariant 0 <= m <= |list| && |dependencies| == |processState|
        invariant Model() == Lower(e, Entries(e, list[..m], alive))
      {
        assert list[m] in list;
        ghost var before := Model();
        ProcessDependency(list[m]);
        DependencyMet(e, list, m, before, Model());
        m := m + 1;
      }
      assert list[..m] == list;
    }

    /** The start of process `j` succeeded, or it has ended as it may: its dependents go. */
    method ReleaseDependents(j: nat)
      requires Valid() && j < |config.deps|
      modifies this`dependencies, this`queued, this`nodesInFlight, this`released
      ensures Valid() && Model() == E.ReleaseDependents(config, old(Model()), j)
    {
      hide Lower, StartAmounts, Transposes, ValidConfig;
      ProcessSuccessorNodes(j);
      ghost var e := Model();
      released := released + {j};
      assert Model() == e.(released := e.released + {j});
    }

    /** Process `j` has been stopped: its dependencies go. */
    method ReleaseDependencies(j: nat)
      requires Valid() && j < |config.deps|
      modifies this`dependencies, this`queued, this`nodesInFlight, this`holding
      ensures Valid() && Model() == E.ReleaseDependencies(config, old(Model()), j)
    {
      hide Lower, StopAmounts, Transposes, ValidConfig;
      QueueTerminationSuccessorJobs(j);
      ghost var e := Model();
      holding := holding - {j};
      assert Model() == e.(holding := e.holding - {j});
    }

    // ---- Completion, abort and cancel ----

    /** A worker has finished with the job of node `i`. */
    method NodeExecuted(i: nat)
      requires Valid() && i in done
      modifies this
      ensures Valid() && dependentOnRunning == old(dependentOnRunning)
      ensures Model() == Apply(config, old(Model()), Executed(i))
    {
      hide Apply, Enabled, E.NodeExecuted, Transposes, ValidConfig;
      DropJob(i);
      if state == InTransition {
        ExecutedInTransition(i);
      } else {
        ExecutedOutsideTransition(i);
      }
      ExecutedEffect(config, old(Model()), i);
    }

    method DropJob(i: nat)
      modifies this`done
      ensures Model() == old(Model()).(done := old(done) - multiset{i})
    {
      done := done - multiset{i};
    }

    method ExecutedInTransition(i: nat)
      requires Valid() && state == InTransition
      modifies this
      ensures Valid() && dependentOnRunning == old(dependentOnRunning)
      ensures Model() == E.NodeExecuted(config, old(Model()), i)
    {
      hide E.QueueStartJobs, Transposes, ValidConfig, E.NodeExecuted;
      ExecutedCases(config, old(Model()), i);
      if nodesToExecute > 0 {
        CountExecuted(i);
        if nodesToExecute == 0 {
          if starting {
            Announce(Success, SetStateSuccess);
          } else {
            QueueStartJobs();
          }
        }
      }
    }

    method Announce(newState: GraphState, code: Code)
      modifies this`state, this`event
      ensures Model() == old(Model()).(state := TableEntry(newState, old(state)), event := code)
    {
      SetState(newState);
      event := code;
    }

    method CountExecuted(i: nat)
      requires nodesToExecute > 0
      modifies this`nodesInFlight, this`nodesToExecute, this`executed
      ensures Model() == old(Model()).(inFlight := old(nodesInFlight) - 1, toExecute := old(nodesToExecute) - 1,
                                       executed := old(executed) + {i})
    {
      nodesInFlight := nodesInFlight - 1;
      nodesToExecute := nodesToExecute - 1;
      executed := executed + {i};
      assert Model() == old(Model()).(inFlight := nodesInFlight, toExecute := nodesToExecute, executed := executed);
    }

    method ExecutedOutsideTransition(i: nat)
      requires Valid() && state != InTransition
      modifies this`state, this`nodesInFlight, this`event
      ensures Valid() && Model() == E.NodeExecuted(config, old(Model()), i)
    {
      hide E.QueueStartJobs, Transposes, ValidConfig, E.NodeExecuted;
      ExecutedCases(config, old(Model()), i);
      nodesInFlight := nodesInFlight - 1;
      assert Model() == old(Model()).(inFlight := old(nodesInFlight) - 1);
      if nodesInFlight <= 0 {
        Announce(Undefined, if state == Aborting then abortCode else event);
      }
    }

    method Abort(reason: Code)
      modifies this`state, this`abortCode
      ensures Model() == E.Abort(old(Model()), reason)
    {
      if state.Rank() < Aborting.Rank() {
        SetState(Aborting);
        abortCode := reason;
      }
    }

    method Cancel()
      modifies this`state, this`event
      ensures Model() == E.Cancel(old(Model()))
    {
      hide Follows;
      SetState(Cancelled);
      if state == Cancelled {
        event := SetStateCancelled;
      }
      if nodesInFlight == 0 {
        SetState(Undefined);
      }
    }

    /** The operating system has reported the end of process `i`. */
    method ProcessTerminated(i: nat, status: int)
      requires Valid() && i < |config.deps|
      modifies this`state, this`abortCode, this`processState, this`failed
      ensures Valid() && Model() == ProcessEnded(config, old(Model()), i, status)
    {
      hide Transposes, ValidConfig, E.Abort;
      var expected := i in config.selfTerminating && status == 0;
      if !expected && starting {
        UnexpectedTermination(i);
      }
      RecordEnd(i, expected);
    }

    method RecordEnd(i: nat, expected: bool)
      requires i < |processState|
      modifies this`processState, this`failed
      ensures Model() == old(Model()).(procs := old(processState)[i := Terminated],
                                       failed := if expected then old(failed) - {i} else old(failed) + {i})
    {
      failed := if expected then failed - {i} else failed + {i};
      processState := processState[i := Terminated];
      assert Model() == old(Model()).(procs := processState, failed := failed);
    }

    method UnexpectedTermination(i: nat)
      requires i < |processState|
      modifies this`state, this`abortCode
      ensures Model() ==
              if old(state) == Success then E.Abort(old(Model()), FailedUnexpectedTermination)
              else if processState[i] == Starting then old(Model())
              else if old(state) == InTransition then E.Abort(old(Model()), FailedUnexpectedTerminationOnEnter)
              else old(Model())
    {
      var graphState := state;
      if graphState == Success {
        Abort(FailedUnexpectedTermination);
      } else if processState[i] == Starting {
        // The worker that waits for the process is woken up and deals with it.
      } else if graphState == InTransition {
        Abort(FailedUnexpectedTerminationOnEnter);
      }
    }

    /** A worker takes the job of node `i` from the queue and begins. */
    method BeginWork(i: nat)
      requires Valid() && i in queued && i < |config.deps|
      modifies this`queued, this`starters, this`stoppers, this`done, this`processState, this`failed
      ensures Valid() && Model() == E.BeginWork(old(Model()), i)
    {
      hide Transposes, ValidConfig, E.BeginWork;
      DoWork(i);
    }

    method DoWork(i: nat)
      requires i < |processState|
      modifies this`queued, this`starters, this`stoppers, this`done, this`processState, this`failed
      ensures |processState| == |old(processState)| && Model() == E.BeginWork(old(Model()), i)
    {
      hide E.BeginWork;
      TakeJob(i);
      WorkBegins(old(Model()), i);
      if state == InTransition && starting {
        if processState[i] == Idle || processState[i] == Terminated {
          BeginStart(i);
        } else {
          RefuseStart(i);
        }
      } else if state == InTransition {
        BeginStop(i);
      } else {
        Finish(i);
      }
    }

    /** The process cannot be set idle: only its status is cleared. */
    method RefuseStart(i: nat)
      modifies this`done, this`failed
      ensures Model() == old(Model()).(done := old(done) + multiset{i}, failed := old(failed) - {i})
    {
      failed := failed - {i};
      done := done + multiset{i};
      assert Model() == old(Model()).(done := done, failed := failed);
    }

    method TakeJob(i: nat)
      modifies this`queued
      ensures Model() == old(Model()).(queued := old(queued) - multiset{i})
    {
      queued := queued - multiset{i};
    }

    method BeginStart(i: nat)
      requires i < |processState|
      modifies this`starters, this`processState, this`failed
      ensures Model() == old(Model()).(starters := old(starters) + multiset{i},
                                       procs := old(processState)[i := Starting],
                                       failed := old(failed) - {i})
    {
      starters := starters + multiset{i};
      processState := processState[i := Starting];
      failed := failed - {i};
      assert Model() == old(Model()).(starters := starters, procs := processState, failed := failed);
    }

    method BeginStop(i: nat)
      requires i < |processState|
      modifies this`stoppers, this`processState
      ensures Model() ==
              old(Model()).(stoppers := old(stoppers) + multiset{i},
                            procs := if old(processState)[i] == Terminated then old(processState)
                                     else old(processState)[i := Terminating])
    {
      stoppers := stoppers + multiset{i};
      if processState[i] != Terminated {
        processState := processState[i := Terminating];
      }
    }

    method Finish(i: nat)
      modifies this`done
      ensures Model() == old(Model()).(done := old(done) + multiset{i})
    {
      done := done + multiset{i};
    }

    /** The process of node `i` has reported that it runs, while its worker still saw it starting. */
    method ReportRunning(i: nat)
      requires Valid() && i in starters && i < |config.deps| && processState[i] == Starting
      modifies this
      ensures Valid() && dependentOnRunning == old(dependentOnRunning)
      ensures Model() == Apply(config, old(Model()), Step.ReportRunning(i))
    {
      hide Apply, Enabled, E.ReleaseDependents, E.AttemptOver, Transposes, ValidConfig;
      SetRunning(i);
      ReleaseDependents(i);
      AttemptOver(i);
      ReportEffect(config, old(Model()), i);
    }

    method SetRunning(i: nat)
      requires i < |processState|
      modifies this`processState
      ensures Model() == old(Model()).(procs := old(processState)[i := Running])
    {
      processState := processState[i := Running];
    }

    method AttemptOver(i: nat)
      modifies this`starters, this`leaving
      ensures Model() == E.AttemptOver(old(Model()), i)
    {
      starters := starters - multiset{i};
      leaving := leaving + multiset{i};
    }

    /** The worker that was stopping the process of node `i` is through. */
    method FinishStop(i: nat)
      requires Valid() && i in stoppers && i < |config.deps|
      modifies this
      ensures Valid() && dependentOnRunning == old(dependentOnRunning)
      ensures Model() == Apply(config, old(Model()), Step.FinishStop(i))
    {
      hide E.ReleaseDependencies, Transposes, ValidConfig;
      ReleaseDependencies(i);
      StopOver(i);
    }

    method StopOver(i: nat)
      modifies this`stoppers, this`done
      ensures Model() == E.StopOver(old(Model()), i)
    {
      stoppers := stoppers - multiset{i};
      done := done + multiset{i};
    }

    // ---- State ----

    /** The retry loop without interference: one table look-up. */
    method SetState(newState: GraphState)
      modifies this`state
      ensures state == TableEntry(newState, old(state)) && Follows(old(state), newState, state)
    {
      var oldState, target := state, newState;
      while oldState != target
        invariant state == oldState
        invariant oldState == target ==> state == TableEntry(newState, old(state))
        invariant oldState != target ==> state == old(state)
        decreases oldState != target
      {
        target := TableEntry(newState, oldState);
        state := target;
        oldState := target;
      }
    }
  }

  /** The ways the completion of a job can go. */
  lemma ExecutedCases(c: Config, e: Engine, i: nat)
    requires Sized(c, e)
    ensures var counted := e.(inFlight := e.inFlight - 1);
            e.state != InTransition ==>
              E.NodeExecuted(c, e, i) ==
              if counted.inFlight > 0 then counted
              else counted.(state := TableEntry(Undefined, e.state),
                            event := if e.state == Aborting then e.abortCode else e.event)
    ensures e.state == InTransition && e.toExecute == 0 ==> E.NodeExecuted(c, e, i) == e
    ensures e.state == InTransition && e.toExecute > 0 ==>
              var counted := e.(inFlight := e.inFlight - 1, toExecute := e.toExecute - 1,
                                executed := e.executed + {i});
              E.NodeExecuted(c, e, i) ==
              if counted.toExecute > 0 then counted
              else if e.starting then counted.(state := TableEntry(Success, e.state), event := SetStateSuccess)
              else E.QueueStartJobs(c, counted)
  {
    hide E.QueueStartJobs;
  }

  lemma ExecutedEffect(c: Config, e: Engine, i: nat)
    requires Sized(c, e) && i in e.done
    ensures Enabled(c, e, Executed(i))
    ensures Apply(c, e, Executed(i)) == E.NodeExecuted(c, e.(done := e.done - multiset{i}), i)
  {
    hide E.NodeExecuted;
  }

  lemma ReportEffect(c: Config, e: Engine, i: nat)
    requires Sized(c, e) && i in e.starters && i < |c.deps| && e.procs[i] == Starting
    ensures Enabled(c, e, ReportRunning(i))
    ensures Apply(c, e, ReportRunning(i)) ==
            E.AttemptOver(E.ReleaseDependents(c, e.(procs := e.procs[i := Running]), i), i)
  {
    hide E.ReleaseDependents, E.AttemptOver;
  }

  /** The effect of meeting one entry that names node `k`. */
  function OneEntry(e: Engine, k: nat): Engine
    requires k < |e.counters|
  {
    if k !in e.included || e.counters[k] == 0 then e
    else
      var e1 := e.(counters := e.counters[k := e.counters[k] - 1]);
      if e1.counters[k] > 0 || e.state != InTransition then e1
      else e1.(queued := e.queued + multiset{k}, inFlight := e.inFlight + 1)
  }

  /** The included nodes that have not terminated. */
  ghost function Alive(e: Engine): (alive: set<nat>)
    requires forall i :: i in e.included ==> i < |e.procs|
    ensures alive <= e.included
    ensures forall i :: i in alive <==> i in e.included && e.procs[i] != Terminated
  {
    set i | i in e.included && e.procs[i] != Terminated
  }

  lemma OneEntrySize(e: Engine, k: nat)
    requires k < |e.counters|
    ensures |OneEntry(e, k).counters| == |e.counters|
  {
  }

  lemma UncountedEntry(e: Engine, k: nat)
    requires k < |e.counters|
    ensures k !in e.included ==> OneEntry(e, k) == e
  {
  }

  lemma LowerSize(e: Engine, amounts: seq<nat>)
    requires |amounts| == |e.counters|
    ensures |Lower(e, amounts).counters| == |e.counters|
  {
  }

  /** How many entries of `list` name each node among `counted`. */
  ghost function Entries(e: Engine, list: seq<nat>, counted: set<nat>): (amounts: seq<nat>)
    ensures |amounts| == |e.counters|
  {
    seq(|e.counters|, i requires 0 <= i < |e.counters| => if i in counted then Count(list, i) else 0)
  }

  lemma EntriesMet(e: Engine, none: seq<nat>, counted: set<nat>)
    requires none == []
    ensures Lower(e, Entries(e, none, counted)) == e
  {
    var amounts := Entries(e, none, counted);
    assert Ready(e.counters, amounts) == {};
    assert Lower(e, amounts).counters == e.counters;
  }

  /** Meeting the entries of a list one by one is lowering the counters by their numbers. */
  lemma OneMoreMet(e: Engine, list: seq<nat>, m: nat, counted: set<nat>)
    requires m < |list| && list[m] < |e.counters|
    requires counted <= e.included
    ensures var e1 := Lower(e, Entries(e, list[..m], counted));
            Lower(e, Entries(e, list[..m + 1], counted)) == if list[m] in counted then OneEntry(e1, list[m]) else e1
  {
    var k := list[m];
    var a, b := Entries(e, list[..m], counted), Entries(e, list[..m + 1], counted);
    assert list[..m] + [k] == list[..m + 1];
    forall i: nat | i < |e.counters|
      ensures b[i] == a[i] + (if i == k && k in counted then 1 else 0)
    {
      CountAppend(list[..m], [k], i);
    }
    LowerOneMore(e, a, b, k, k in counted);
  }

  lemma DependencyMet(e: Engine, list: seq<nat>, m: nat, before: Engine, after: Engine)
    requires m < |list| && list[m] < |e.counters| && forall i :: i in e.included ==> i < |e.procs|
    requires list[m] < |e.procs| && before == Lower(e, Entries(e, list[..m], Alive(e)))
    requires before.procs == e.procs && before.included == e.included && |before.counters| == |e.counters|
    requires list[m] in e.included && e.procs[list[m]] != Terminated ==> after == OneEntry(before, list[m])
    requires list[m] !in e.included || e.procs[list[m]] == Terminated ==> after == before
    ensures after == Lower(e, Entries(e, list[..m + 1], Alive(e)))
  {
    hide Entries, Lower, OneEntry;
    OneMoreMet(e, list, m, Alive(e));
  }

  lemma ReadyOneMore(counters: seq<nat>, a: seq<nat>, b: seq<nat>, k: nat, met: bool)
    requires k < |counters| && |a| == |b| == |counters|
    requires forall i :: 0 <= i < |a| ==> b[i] == a[i] + (if i == k && met then 1 else 0)
    ensures met && Minus(counters[k], a[k]) == 1 ==> k !in Ready(counters, a) && Ready(counters, b) == Ready(counters, a) + {k}
    ensures !met || Minus(counters[k], a[k]) != 1 ==> Ready(counters, b) == Ready(counters, a)
  {
  }

  lemma LoweredOneMore(counters: seq<nat>, a: seq<nat>, b: seq<nat>, k: nat, met: bool)
    requires k < |counters| && |a| == |b| == |counters|
    requires forall i :: 0 <= i < |a| ==> b[i] == a[i] + (if i == k && met then 1 else 0)
    ensures |Lowered(counters, a)| == |counters| && Lowered(counters, a)[k] == Minus(counters[k], a[k])
    ensures Lowered(counters, b) ==
            if met && Minus(counters[k], a[k]) > 0 then Lowered(counters, a)[k := Minus(counters[k], a[k]) - 1]
            else Lowered(counters, a)
  {
  }

  lemma LowerOneMore(e: Engine, a: seq<nat>, b: seq<nat>, k: nat, met: bool)
    requires k < |e.counters| && |a| == |b| == |e.counters|
    requires forall i :: 0 <= i < |a| ==> b[i] == a[i] + (if i == k && met then 1 else 0)
    requires met ==> k in e.included
    ensures Lower(e, b) == if met then OneEntry(Lower(e, a), k) else Lower(e, a)
  {
    ReadyOneMore(e.counters, a, b, k, met);
    LoweredOneMore(e.counters, a, b, k, met);
    hide Ready, Lowered, Minus, WithCounters, OneEntry;
    var counters, ready := Lowered(e.counters, a), Ready(e.counters, a);
    if met && Minus(e.counters[k], a[k]) > 0 {
      OneEntryMet(e, counters, ready, k);
    } else if met {
      NoEntryMet(e, counters, ready, k);
    }
  }

  lemma OneEntryMet(e: Engine, counters: seq<nat>, ready: set<nat>, k: nat)
    requires k < |counters| && k in e.included && counters[k] > 0 && (counters[k] == 1 ==> k !in ready)
    ensures |WithCounters(e, counters, ready).counters| == |counters|
    ensures OneEntry(WithCounters(e, counters, ready), k) ==
            WithCounters(e, counters[k := counters[k] - 1], if counters[k] == 1 then ready + {k} else ready)
  {
    var e1 := WithCounters(e, counters, ready);
    if counters[k] == 1 && e.state == InTransition {
      AddToMultiset(e.queued, ready, k);
      assert OneEntry(e1, k) == e1.(counters := counters[k := 0], queued := e1.queued + multiset{k}, inFlight := e1.inFlight + 1);
    } else {
      assert OneEntry(e1, k) == e1.(counters := counters[k := counters[k] - 1]);
    }
  }

  lemma NoEntryMet(e: Engine, counters: seq<nat>, ready: set<nat>, k: nat)
    requires k < |counters| && counters[k] == 0
    ensures |WithCounters(e, counters, ready).counters| == |counters|
    ensures OneEntry(WithCounters(e, counters, ready), k) == WithCounters(e, counters, ready)
  {
  }

  lemma AddToMultiset(m: multiset<nat>, s: set<nat>, k: nat)
    requires k !in s
    ensures m + multiset(s + {k}) == m + multiset(s) + multiset{k} && |s + {k}| == |s| + 1
  {
    assert multiset(s + {k}) == multiset(s) + multiset{k};
  }

  lemma EntriesAreStopAmounts(c: Config, e: Engine, j: nat)
    requires Sized(c, e) && j < |c.deps|
    ensures Entries(e, c.deps[j], Alive(e)) == StopAmounts(c, e, j)
  {
  }

  lemma EntriesAreStartAmounts(c: Config, e: Engine, j: nat, list: seq<nat>)
    requires Sized(c, e) && j < |c.deps| && Transposes(list, c.deps, j)
    ensures Entries(e, list, e.included) == StartAmounts(c, e, j)
  {
  }

  /** The reverse of the dependencies: list `i` of the result names every node that depends on `i`, once for
      each of its entries. Entries that name no node are passed over. */
  method CreateSuccessorLists(config: Config) returns (lists: seq<seq<nat>>)
    ensures |lists| == |config.deps|
    ensures forall i :: 0 <= i < |lists| ==> Transposes(lists[i], config.deps, i)
  {
    var n := |config.deps|;
    lists := seq(n, i => []);
    var k := 0;
    while k < n
      invariant 0 <= k <= n && |lists| == n
      invariant forall i :: 0 <= i < n ==> TransposesUpTo(lists[i], config.deps, i, k, 0)
    {
      var m := 0;
      while m < |config.deps[k]|
        invariant 0 <= m <= |config.deps[k]| && |lists| == n
        invariant forall i :: 0 <= i < n ==> TransposesUpTo(lists[i], config.deps, i, k, m)
      {
        var d := config.deps[k][m];
        if d < n {
          OneMoreEntry(lists, lists[d := lists[d] + [k]], config.deps, k, m);
          lists := lists[d := lists[d] + [k]];
        } else {
          EntryPassedOver(lists, config.deps, k, m);
        }
        m := m + 1;
      }
      NextList(lists, config.deps, k);
      k := k + 1;
    }
  }

  /** `list` transposes the first `k` lists and the first `m` entries of the next. */
  ghost predicate TransposesUpTo(list: seq<nat>, lists: seq<seq<nat>>, x: nat, k: nat, m: nat)
    requires k <= |lists| && (k < |lists| ==> m <= |lists[k]|)
  {
    && (forall j :: j in list ==> j < |lists|)
    && (forall j: nat :: j < |lists| ==>
          Count(list, j) == if j < k then Count(lists[j], x) else if j == k then Count(lists[k][..m], x) else 0)
  }

  lemma OneMoreEntry(lists: seq<seq<nat>>, lists1: seq<seq<nat>>, deps: seq<seq<nat>>, k: nat, m: nat)
    requires |lists| == |deps| && k < |deps| && m < |deps[k]| && deps[k][m] < |deps|
    requires lists1 == lists[deps[k][m] := lists[deps[k][m]] + [k]]
    requires forall i :: 0 <= i < |deps| ==> TransposesUpTo(lists[i], deps, i, k, m)
    ensures forall i :: 0 <= i < |deps| ==> TransposesUpTo(lists1[i], deps, i, k, m + 1)
  {
    var d := deps[k][m];
    assert deps[k][..m] + [d] == deps[k][..m + 1];
    forall i | 0 <= i < |deps|
      ensures TransposesUpTo(lists1[i], deps, i, k, m + 1)
    {
      assert TransposesUpTo(lists[i], deps, i, k, m);
      CountAppend(deps[k][..m], [d], i);
      if i == d {
        forall j: nat
          ensures Count(lists1[d], j) == Count(lists[d], j) + (if j == k then 1 else 0)
        {
          CountAppend(lists[d], [k], j);
        }
      }
    }
  }

  lemma EntryPassedOver(lists: seq<seq<nat>>, deps: seq<seq<nat>>, k: nat, m: nat)
    requires |lists| == |deps| && k < |deps| && m < |deps[k]| && deps[k][m] >= |deps|
    requires forall i :: 0 <= i < |deps| ==> TransposesUpTo(lists[i], deps, i, k, m)
    ensures forall i :: 0 <= i < |deps| ==> TransposesUpTo(lists[i], deps, i, k, m + 1)
  {
    var d := deps[k][m];
    assert deps[k][..m] + [d] == deps[k][..m + 1];
    forall i | 0 <= i < |deps| ensures TransposesUpTo(lists[i], deps, i, k, m + 1) {
      assert TransposesUpTo(lists[i], deps, i, k, m);
      CountAppend(deps[k][..m], [d], i);
    }
  }

  lemma NextList(lists: seq<seq<nat>>, deps: seq<seq<nat>>, k: nat)
    requires |lists| == |deps| && k < |deps|
    requires forall i :: 0 <= i < |deps| ==> TransposesUpTo(lists[i], deps, i, k, |deps[k]|)
    ensures forall i :: 0 <= i < |deps| ==> TransposesUpTo(lists[i], deps, i, k + 1, 0)
  {
    assert deps[k][..|deps[k]|] == deps[k];
  }
}
