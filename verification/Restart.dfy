/** The loop in which a worker starts one process, with as many further attempts as are configured. */
module Restart {
  import opened States

  /** `reporting` processes say when they are running; the others count as running once started. */
  datatype Config = Config(restartAttempts: nat, reporting: bool, selfTerminating: bool)

  const COUNTER_LIMIT: nat := 0x1_0000_0000

  /** How one attempt goes. `status` is the status on record when the attempt is over, and `gone` says whether
      the end of the process is on record by then. */
  datatype Ending =
    | LaunchFails                                          // the process could not be created
    | NotMapped(status: int, gone: bool)                   // no room in the map; the process is killed
    | EndsEarly(status: int)                               // it ended before it was in the map
    | LeavesTransition(status: int, gone: bool)            // the graph has left its transition
    | NotRunning(died: bool, status: int, gone: bool)      // it died, or timed out and is killed
    | Runs(ended: bool, status: int, gone: bool)           // it runs, unless it ended just before that was noted

  /** A status other than zero comes only with the end of the process, and a process that must not
      end on its own never has status zero on record then. */
  ghost predicate Possible(c: Config, a: Ending) {
    match a
    case LaunchFails => true
    case NotMapped(status, gone) => EndRecord(c, status, gone)
    case EndsEarly(status) => EndRecord(c, status, true)
    case LeavesTransition(status, gone) => EndRecord(c, status, gone)
    case NotRunning(died, status, gone) => EndRecord(c, status, gone) && (died ==> status != 0)
    case Runs(ended, status, gone) => EndRecord(c, status, gone) && (ended ==> gone)
  }

  ghost predicate EndRecord(c: Config, status: int, gone: bool) {
    if gone then c.selfTerminating || status != 0 else status == 0
  }

  /** The graph was aborted by the attempt with this number. */
  datatype Abort = Abort(attempt: nat, reason: Code)

  /** The node as its worker sees it; `launches`, `aborts` and `letGo` record what the attempts did to the
      operating system, to the graph and to the dependents. */
  datatype Node = Node(state: ProcessState, status: int, counter: nat,
                       launches: nat, aborts: seq<Abort>, letGo: bool)

  function WithEnd(n: Node, status: int, state: ProcessState): Node {
    n.(status := status, state := state)
  }

  function Aborted(n: Node, reason: Code): Node {
    n.(aborts := n.aborts + [Abort(n.launches, reason)])
  }

  function AbortedIfLast(n: Node, reason: Code): Node {
    if n.counter == 0 then Aborted(n, reason) else n
  }

  /** One attempt on a process that is starting. */
  function Attempt(c: Config, n: Node, a: Ending): (r: Node)
    ensures r.counter <= n.counter
  {
    match a
    case LaunchFails => Aborted(n.(state := Terminated), SetStateFailed)
    case NotMapped(status, gone) =>
      Aborted(WithEnd(n, status, if gone then Terminated else Terminating).(counter := 0), SetStateFailed)
    case EndsEarly(status) =>
      var n1 := WithEnd(n, status, Terminated);
      if status != 0 || c.reporting then AbortedIfLast(n1, FailedUnexpectedTerminationOnEnter) else n1
    case LeavesTransition(status, gone) => WithEnd(n, status, if gone then Terminated else Starting)
    case NotRunning(died, status, gone) =>
      AbortedIfLast(WithEnd(n, status, if gone then Terminated else Terminating),
                    if died then FailedUnexpectedTerminationOnEnter else SetStateFailed)
    case Runs(ended, status, gone) =>
      var n1 := WithEnd(n, status, if gone then Terminated else Running);
      if !ended || (c.selfTerminating && status == 0) then n1.(letGo := true)
      else AbortedIfLast(n1, SetStateFailed)
  }

  predicate Startable(s: ProcessState) {
    s == Idle || s == Terminated
  }

  /** The whole loop, the attempts going as `endings` says. */
  function Play(c: Config, n: Node, endings: seq<Ending>): Node
    requires |endings| > n.counter
    decreases |endings|
  {
    if !Startable(n.state) then n.(status := 0)
    else
      var n1 := Attempt(c, Launched(n), endings[0]);
      if GoesOn(n1) then Play(c, CountedDown(n1), endings[1..]) else CountedDown(n1)
  }

  function Launched(n: Node): Node {
    n.(state := Starting, status := 0, launches := n.launches + 1)
  }

  /** The loop's condition and what evaluating it does to the 32-bit counter. */
  predicate GoesOn(n: Node) {
    n.status != 0 && n.counter != 0
  }

  function CountedDown(n: Node): Node {
    if n.status == 0 then n
    else n.(counter := if n.counter == 0 then COUNTER_LIMIT - 1 else n.counter - 1)
  }

  class ProcessNode {
    const config: Config
    var state: ProcessState
    var status: int
    var restartCounter: nat
    ghost var launches: nat
    ghost var aborts: seq<Abort>
    ghost var letGo: bool

    ghost function Model(): Node
      reads this
    {
      Node(state, status, restartCounter, launches, aborts, letGo)
    }

    constructor (config: Config)
      ensures this.config == config && Model() == Node(Idle, 0, 0, 0, [], false)
    {
      this.config := config;
      state, status, restartCounter := Idle, 0, 0;
      launches, aborts, letGo := 0, [], false;
    }

    method AbortGraph(reason: Code)
      modifies this`aborts
      ensures Model() == Aborted(old(Model()), reason)
    {
      aborts := aborts + [Abort(launches, reason)];
    }

    method SetIdle() returns (success: bool)
      modifies this`state
      ensures success == Startable(old(state))
      ensures state == if success then Idle else old(state)
    {
      success := state == Terminated || state == Idle;
      if success {
        state := Idle;
      }
    }

    /** Create the process and deal with what becomes of it. */
    method MakeAttempt(a: Ending)
      modifies this
      ensures Model() == Attempt(config, old(Model()), a)
    {
      match a {
        case LaunchFails =>
          state := Terminated;
          AbortGraph(SetStateFailed);
        case NotMapped(s, gone) =>
          restartCounter := 0;
          status, state := s, if gone then Terminated else Terminating;
          AbortGraph(SetStateFailed);
        case EndsEarly(s) =>
          status, state := s, Terminated;
          if (status != 0 || config.reporting) && restartCounter == 0 {
            AbortGraph(FailedUnexpectedTerminationOnEnter);
          }
        case LeavesTransition(s, gone) =>
          status, state := s, if gone then Terminated else Starting;
        case NotRunning(died, s, gone) =>
          status, state := s, if gone then Terminated else Terminating;
          if restartCounter == 0 {
            AbortGraph(if died then FailedUnexpectedTerminationOnEnter else SetStateFailed);
          }
        case Runs(ended, s, gone) =>
          status, state := s, if gone then Terminated else Running;
          if !ended || (config.selfTerminating && status == 0) {
            letGo := true;
          } else if restartCounter == 0 {
            AbortGraph(SetStateFailed);
          }
      }
    }

    method StartProcess(endings: seq<Ending>)
      requires |endings| > config.restartAttempts
      modifies this
      ensures Model() == Play(config, old(Model()).(counter := config.restartAttempts), endings)
      ensures !Startable(old(state)) ==>
                state == old(state) && status == 0 && launches == old(launches) && aborts == old(aborts) && letGo == old(letGo)
    {
      hide Attempt;
      restartCounter := config.restartAttempts;
      ghost var whole := Play(config, Model(), endings);
      var k, again := 0, true;
      while again
        invariant 0 <= k <= |endings|
        invariant again ==> |endings| - k > restartCounter
        invariant whole == if again then Play(config, Model(), endings[k..]) else Model()
        decreases |endings| - k, again
      {
        ghost var rest := endings[k..];
        assert rest[1..] == endings[k + 1..];
        again := Round(endings[k]);
        k := k + 1;
      }
    }

    /** One round of the loop; the result says whether there is another. */
    method Round(a: Ending) returns (again: bool)
      modifies this
      ensures !Startable(old(state)) ==> !again && Model() == old(Model()).(status := 0)
      ensures Startable(old(state)) ==>
                var n1 := Attempt(config, Launched(old(Model())), a); again == GoesOn(n1) && Model() == CountedDown(n1)
    {
      hide Attempt;
      status := 0;
      var idle := SetIdle();
      if idle {
        state := Starting;
        launches := launches + 1;
        MakeAttempt(a);
      }
      again := status != 0 && restartCounter != 0;
      if status != 0 {
        restartCounter := if restartCounter == 0 then COUNTER_LIMIT - 1 else restartCounter - 1;
      }
    }
  }

  // ---- What the loop does ----

  /** The process died with a bad status before it was noted as running. */
  ghost predicate DiesStarting(a: Ending) {
    && (a.EndsEarly? || (a.NotRunning? && a.gone) || (a.Runs? && a.ended && a.gone))
    && a.status != 0
  }

  /** Why an attempt aborts the graph: the process is known to have died on the way, or the start as such failed. */
  ghost function AbortReason(a: Ending): Code {
    if a.EndsEarly? || (a.NotRunning? && a.died) then FailedUnexpectedTerminationOnEnter else SetStateFailed
  }

  lemma FailedAttempt(c: Config, n: Node, a: Ending)
    requires DiesStarting(a)
    ensures var r := Attempt(c, n, a);
            && r.status != 0 && r.state == Terminated && r.counter == n.counter && r.launches == n.launches
            && r.letGo == n.letGo
            && (n.counter > 0 ==> r.aborts == n.aborts)
            && (n.counter == 0 ==> r.aborts == n.aborts + [Abort(n.launches, AbortReason(a))])
  {
  }

  /** If every attempt dies while starting, the configured number of further attempts is made, and the graph is
      aborted exactly once, by the last. */
  lemma {:induction false} RestartsThenAborts(c: Config, n: Node, endings: seq<Ending>)
    requires |endings| > n.counter && Startable(n.state)
    requires forall k :: 0 <= k < |endings| ==> DiesStarting(endings[k])
    ensures var r := Play(c, n, endings);
            && r.launches == n.launches + n.counter + 1
            && r.letGo == n.letGo
            && r.aborts == n.aborts + [Abort(r.launches, AbortReason(endings[n.counter]))]
    decreases |endings|
  {
    hide Attempt;
    FailedAttempt(c, Launched(n), endings[0]);
    if n.counter > 0 {
      RestartsThenAborts(c, CountedDown(Attempt(c, Launched(n), endings[0])), endings[1..]);
    }
  }

  /** An attempt after which the loop goes on, if its counter allows. */
  ghost predicate Retried(a: Ending) {
    !a.LaunchFails? && !a.NotMapped? && a.status != 0
  }

  /** Attempts that let the dependents go. */
  ghost predicate Succeeds(c: Config, a: Ending) {
    a.Runs? && (!a.ended || (c.selfTerminating && a.status == 0))
  }

  /** Attempts that abort the graph when no further attempt is left, and those that always do. */
  ghost predicate Fails(c: Config, a: Ending) {
    || (a.EndsEarly? && (a.status != 0 || c.reporting))
    || a.NotRunning?
    || (a.Runs? && !Succeeds(c, a))
  }

  ghost predicate AlwaysAborts(a: Ending) {
    a.LaunchFails? || a.NotMapped?
  }

  lemma AnyAttempt(c: Config, n: Node, a: Ending)
    requires Possible(c, a) && n.status == 0
    ensures var r := Attempt(c, n, a);
            && r.launches == n.launches
            && (GoesOn(r) <==> Retried(a) && n.counter > 0)
            && (GoesOn(r) ==> r.state == Terminated && r.counter == n.counter)
            && r.letGo == (n.letGo || Succeeds(c, a))
            && (AlwaysAborts(a) || (Fails(c, a) && n.counter == 0) ==>
                  r.aborts == n.aborts + [Abort(n.launches, AbortReason(a))])
            && (!AlwaysAborts(a) && !(Fails(c, a) && n.counter == 0) ==> r.aborts == n.aborts)
  {
  }

  /** How many attempts are made: one, and one more for each that ended badly, up to the configured number. */
  ghost function Attempts(endings: seq<Ending>, counter: nat): (k: nat)
    requires |endings| > counter
    ensures 1 <= k <= counter + 1
    decreases |endings|
  {
    if counter > 0 && Retried(endings[0]) then 1 + Attempts(endings[1..], counter - 1) else 1
  }

  /** What the loop does, however the attempts go: it makes that many attempts, only the last can abort the graph,
      and it does so exactly when it could not be launched or mapped, or failed with no attempt left. */
  lemma {:induction false} LoopOutcome(c: Config, n: Node, endings: seq<Ending>)
    requires |endings| > n.counter && Startable(n.state)
    requires forall k :: 0 <= k < |endings| ==> Possible(c, endings[k])
    ensures var r, k := Play(c, n, endings), Attempts(endings, n.counter);
            var last := endings[k - 1];
            var aborts := AlwaysAborts(last) || (Fails(c, last) && k == n.counter + 1);
            && r.launches == n.launches + k
            && (aborts ==> r.aborts == n.aborts + [Abort(r.launches, AbortReason(last))])
            && (!aborts ==> r.aborts == n.aborts)
            && (r.letGo <==> n.letGo || exists j :: 0 <= j < k && Succeeds(c, endings[j]))
    decreases |endings|
  {
    hide Attempt, Possible, Succeeds, Fails, AbortReason;
    AnyAttempt(c, Launched(n), endings[0]);
    var n1 := Attempt(c, Launched(n), endings[0]);
    if GoesOn(n1) {
      var rest := endings[1..];
      LoopOutcome(c, CountedDown(n1), rest);
      assert forall j :: 0 <= j < |rest| ==> rest[j] == endings[j + 1];
      var k := Attempts(endings, n.counter);
      assert (exists j :: 0 <= j < k && Succeeds(c, endings[j])) <==>
             Succeeds(c, endings[0]) || exists j :: 0 <= j < k - 1 && Succeeds(c, rest[j]);
    }
  }

  /** The end of the process is on record when the attempt is over. */
  ghost predicate Gone(a: Ending) {
    match a
    case LaunchFails => false
    case EndsEarly(_) => true
    case _ => a.gone
  }

  /** The state in which an attempt leaves the process: terminated if it could not be created or has gone; otherwise
      running if the start succeeded, starting if the graph left its transition meanwhile, and terminating if it is
      being killed. */
  ghost predicate StateAfter(a: Ending, state: ProcessState) {
    && (state == Terminated <==> a.LaunchFails? || Gone(a))
    && (state == Running <==> a.Runs? && !Gone(a))
    && (state == Starting <==> a.LeavesTransition? && !Gone(a))
    && (state == Terminating <==> (a.NotMapped? || a.NotRunning?) && !Gone(a))
  }

  lemma AttemptState(c: Config, n: Node, a: Ending)
    requires Possible(c, a) && n.status == 0
    ensures var r := Attempt(c, n, a);
            && StateAfter(a, r.state) && (!Gone(a) ==> r.status == 0)
            && (Gone(a) ==> r.status == a.status) && (r.status == 0 && Gone(a) ==> c.selfTerminating)
            && r.counter == (if a.NotMapped? then 0 else n.counter)
  {
  }

  /** What the loop leaves behind is what its last attempt left behind: the state that goes with how that attempt went,
      and the status of the process if it has gone, which is zero only for a self-terminating one. So a process is
      running after the loop exactly when its last attempt succeeded and it is still there. The counter has been counted
      down, past zero if the last status was bad. */
  lemma {:induction false} LoopLeavesBehind(c: Config, n: Node, endings: seq<Ending>)
    requires |endings| > n.counter && Startable(n.state)
    requires forall k :: 0 <= k < |endings| ==> Possible(c, endings[k])
    ensures var r, last := Play(c, n, endings), endings[Attempts(endings, n.counter) - 1];
            && StateAfter(last, r.state)
            && r.status == (if Gone(last) then last.status else 0)
            && (Gone(last) && r.status == 0 ==> c.selfTerminating)
            && r.counter == (if r.status != 0 then COUNTER_LIMIT - 1
                             else if last.NotMapped? then 0 else n.counter + 1 - Attempts(endings, n.counter))
    ensures var r := Play(c, n, endings); r.state == Running ==> r.letGo
    decreases |endings|
  {
    hide Attempt, Possible, Succeeds, Fails, AbortReason, StateAfter;
    var n0, last := Launched(n), endings[Attempts(endings, n.counter) - 1];
    AnyAttempt(c, n0, endings[0]);
    AttemptState(c, n0, endings[0]);
    var n1 := Attempt(c, n0, endings[0]);
    if GoesOn(n1) {
      LoopLeavesBehind(c, CountedDown(n1), endings[1..]);
    } else {
      RunningHasLetGo(c, n0, endings[0]);
    }
  }

  lemma RunningHasLetGo(c: Config, n: Node, a: Ending)
    requires Possible(c, a)
    ensures var r := Attempt(c, n, a); r.state == Running ==> r.letGo
  {
  }

  /** A start that never ran and left its transition standing can therefore go unreported. That happens exactly
      when attempts are left and the last one ended with status zero: a reporting process that exits cleanly
      before it reports, or one that exits cleanly when it is killed for being late. */
  lemma UnreportedStart(c: Config, n: Node, endings: seq<Ending>)
    requires |endings| > n.counter && Startable(n.state)
    requires forall k :: 0 <= k < |endings| ==> Possible(c, endings[k])
    ensures var r, k := Play(c, n, endings), Attempts(endings, n.counter);
            var last := endings[k - 1];
            Fails(c, last) && r.aborts == n.aborts <==>
            Fails(c, last) && last.status == 0 && k <= n.counter
  {
    hide Attempt;
    LoopOutcome(c, n, endings);
    LastIsNotRetried(endings, n.counter);
  }

  /** A self-terminating process that reports, with one further attempt allowed, exits cleanly before it reports:
      it is neither tried again nor reported, and its dependents are not let go. */
  lemma CleanExitGoesUnreported(n: Node)
    requires Startable(n.state) && n.counter == 1
    ensures var r := Play(Config(1, true, true), n, [EndsEarly(0), EndsEarly(0)]);
            r == n.(state := Terminated, status := 0, launches := n.launches + 1)
  {
  }

  lemma {:induction false} LastIsNotRetried(endings: seq<Ending>, counter: nat)
    requires |endings| > counter
    ensures var k := Attempts(endings, counter); k == counter + 1 || !Retried(endings[k - 1])
    decreases |endings|
  {
    if counter > 0 && Retried(endings[0]) {
      LastIsNotRetried(endings[1..], counter - 1);
    }
  }
}
