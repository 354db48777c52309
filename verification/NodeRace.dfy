/** The state of one process as two threads see it: the worker that starts and stops the process, and the reaper
    that learns of its end. Each change loads the state and then stores or exchanges it, in separate steps. */
module NodeRace {
  import opened States

  /** The second worker is there to show what would happen if two handled one process. */
  datatype Thread = Reaper | Worker | SecondWorker

  /** A thread is between calls, or has loaded the state in a call for `wanted`. */
  datatype Call = Outside | Loaded(wanted: ProcessState, known: ProcessState)

  datatype Action = Store | Exchange | Refuse

  /** How a call that asks for `wanted` and has loaded `known` goes on. */
  function Decide(wanted: ProcessState, known: ProcessState): Action {
    if wanted == Terminated || (wanted == Idle && known == Terminated) then Store
    else if wanted.Rank() >= known.Rank() then Exchange
    else Refuse
  }

  /** Every value the state has had, and where each thread is. */
  datatype World = World(history: seq<ProcessState>, reaper: Call, worker: Call, second: Call)
  {
    function State(): ProcessState
      requires history != []
    {
      history[|history| - 1]
    }

    function At(th: Thread): Call {
      match th
      case Reaper => reaper
      case Worker => worker
      case SecondWorker => second
    }

    function With(th: Thread, c: Call): World {
      match th
      case Reaper => this.(reaper := c)
      case Worker => this.(worker := c)
      case SecondWorker => this.(second := c)
    }
  }

  datatype Step = Load(thread: Thread, wanted: ProcessState) | Finish(thread: Thread)

  /** The reaper only ever asks for `Terminated`; a worker may ask for anything. */
  ghost predicate Enabled(w: World, s: Step) {
    match s
    case Load(th, wanted) => w.At(th) == Outside && (th == Reaper ==> wanted == Terminated)
    case Finish(th) => w.At(th).Loaded?
  }

  /** Does the second half of the call write? That is also what the call returns. */
  predicate Writes(w: World, c: Call)
    requires w.history != [] && c.Loaded?
  {
    match Decide(c.wanted, c.known)
    case Store => true
    case Exchange => w.State() == c.known
    case Refuse => false
  }

  function Apply(w: World, s: Step): World
    requires w.history != [] && Enabled(w, s)
  {
    match s
    case Load(th, wanted) => w.With(th, Loaded(wanted, w.State()))
    case Finish(th) =>
      var c := w.At(th);
      w.With(th, Outside).(history := if Writes(w, c) then w.history + [c.wanted] else w.history)
  }

  ghost predicate IsRun(run: seq<World>, steps: seq<Step>) {
    && |run| == |steps| + 1
    && run[0] == World([Idle], Outside, Outside, Outside)
    && (forall t :: 0 <= t < |run| ==> run[t].history != [])
    && forall t :: 0 <= t < |steps| ==> Enabled(run[t], steps[t]) && run[t + 1] == Apply(run[t], steps[t])
  }

  /** No two workers ever handle the process in the same run. */
  ghost predicate OneWorker(steps: seq<Step>) {
    forall t :: 0 <= t < |steps| ==> steps[t].thread != SecondWorker
  }

  // ---- What every step keeps ----

  ghost predicate Follows(before: ProcessState, after: ProcessState) {
    after.Rank() >= before.Rank() || (before == Terminated && after == Idle)
  }

  ghost predicate Inv(w: World) {
    && w.history != []
    && (forall k :: 0 <= k < |w.history| - 1 ==> Follows(w.history[k], w.history[k + 1]))
    && w.second == Outside
    && (w.reaper.Loaded? ==> w.reaper.wanted == Terminated)
    && (w.worker.Loaded? ==> w.State() == w.worker.known || w.State() == Terminated)
  }

  lemma {:induction false} RunKeepsInv(run: seq<World>, steps: seq<Step>, t: nat)
    requires IsRun(run, steps) && OneWorker(steps) && t < |run|
    ensures Inv(run[t])
  {
    if t > 0 {
      RunKeepsInv(run, steps, t - 1);
      assert Enabled(run[t - 1], steps[t - 1]);
    }
  }

  // ---- Results ----

  /** With one worker, the state only moves up, except from terminated to idle. */
  lemma OnlyMovesUp(run: seq<World>, steps: seq<Step>, t: nat, k: nat)
    requires IsRun(run, steps) && OneWorker(steps) && t < |run| && k + 1 < |run[t].history|
    ensures Follows(run[t].history[k], run[t].history[k + 1])
  {
    RunKeepsInv(run, steps, t);
  }

  /** So a process that was seen terminated is seen in another state only after it has been idle: no late report
      that it runs, and no late attempt to terminate it, hides its end. */
  lemma {:induction false} EndIsNeverOverwritten(run: seq<World>, steps: seq<Step>, t: nat, i: nat, j: nat)
    requires IsRun(run, steps) && OneWorker(steps) && t < |run| && i < j < |run[t].history|
    requires run[t].history[i] == Terminated && run[t].history[j] != Terminated
    ensures exists k :: i < k <= j && run[t].history[k] == Idle
    decreases j - i
  {
    OnlyMovesUp(run, steps, t, i);
    if run[t].history[i + 1] == Terminated {
      EndIsNeverOverwritten(run, steps, t, i + 1, j);
    }
  }

  /** A call fails only for the worker, and only when the state is by then above what it asked for. */
  lemma FailureMeansOvertaken(run: seq<World>, steps: seq<Step>, t: nat, th: Thread)
    requires IsRun(run, steps) && OneWorker(steps) && t < |steps| && steps[t] == Finish(th)
    requires !Writes(run[t], run[t].At(th))
    ensures th == Worker
    ensures run[t].State().Rank() > run[t].At(th).wanted.Rank()
  {
    RunKeepsInv(run, steps, t);
  }

  /** Exactly when a call succeeds: when it asks for no less than the state by then, or for idle after it saw the
      process terminated. So a worker that has not been overtaken by the end of the process fails only if it asks for
      less than it saw, and the end of a process is always recorded. */
  lemma CallSucceedsExactly(run: seq<World>, steps: seq<Step>, t: nat, th: Thread)
    requires IsRun(run, steps) && OneWorker(steps) && t < |steps| && steps[t] == Finish(th)
    ensures var c, now := run[t].At(th), run[t].State();
            && c.Loaded?
            && (Writes(run[t], c) <==> c.wanted.Rank() >= now.Rank() || (c.wanted == Idle && c.known == Terminated))
            && run[t + 1].State() == (if Writes(run[t], c) then c.wanted else now)
            && (th == Worker && c.known != now ==> now == Terminated)
  {
    RunKeepsInv(run, steps, t);
    assert Enabled(run[t], steps[t]);
  }

  /** One worker is needed: a second one that loaded `Terminated` takes a process that is starting back to idle. */
  lemma TwoWorkersMoveDown() returns (run: seq<World>, steps: seq<Step>)
    ensures IsRun(run, steps)
    ensures run[|steps|].history == [Idle, Terminated, Idle, Starting, Idle]
    ensures !Follows(Starting, Idle)
  {
    var a, b := Worker, SecondWorker;
    steps := [Load(Reaper, Terminated), Finish(Reaper), Load(b, Idle), Load(a, Idle), Finish(a),
              Load(a, Starting), Finish(a), Finish(b)];
    var w0 := World([Idle], Outside, Outside, Outside);
    var w1 := Apply(w0, steps[0]);
    var w2 := Apply(w1, steps[1]);
    var w3 := Apply(w2, steps[2]);
    var w4 := Apply(w3, steps[3]);
    var w5 := Apply(w4, steps[4]);
    var w6 := Apply(w5, steps[5]);
    var w7 := Apply(w6, steps[6]);
    var w8 := Apply(w7, steps[7]);
    run := [w0, w1, w2, w3, w4, w5, w6, w7, w8];
  }
}
