/** The graph's state is changed by many threads at once, each in a compare-and-exchange loop that
    looks its target up in the transition table. The calls interleave load by load and exchange by exchange. */
module StateRace {
  import opened States

  /** One call: what it wants, the state it believes current and the target it last tried. The rest is history:
      the positions in the state's history at which the call began, last read, and found the state its target is
      for; how many exchanges it made; and whether one succeeded. */
  datatype Call = Call(wanted: GraphState, known: GraphState, target: GraphState,
                       start: nat, seen: nat, tried: nat, rounds: nat, wrote: bool)
  {
    predicate Finished() { known == target }
  }

  /** Every value the state has had, the call that made each change, and every call made. */
  datatype World = World(history: seq<GraphState>, writers: seq<nat>, calls: seq<Call>)
  {
    function State(): GraphState
      requires history != []
    {
      history[|history| - 1]
    }
  }

  datatype Step = Enter(wanted: GraphState) | Exchange(call: nat)

  ghost predicate Enabled(w: World, s: Step) {
    s.Exchange? ==> s.call < |w.calls| && !w.calls[s.call].Finished()
  }

  function Apply(w: World, s: Step): World
    requires w.history != [] && Enabled(w, s)
  {
    var now := |w.history| - 1;
    match s
    case Enter(wanted) =>
      w.(calls := w.calls + [Call(wanted, w.State(), wanted, now, now, now, 0, false)])
    case Exchange(i) =>
      var c := w.calls[i];
      var target := TableEntry(c.wanted, c.known);
      var c1 := c.(target := target, tried := c.seen, seen := now, rounds := c.rounds + 1);
      if w.State() == c.known then
        World(w.history + [target], w.writers + [i], w.calls[i := c1.(known := target, wrote := true)])
      else
        w.(calls := w.calls[i := c1.(known := w.State())])
  }

  ghost predicate IsRun(run: seq<World>, steps: seq<Step>) {
    && |run| == |steps| + 1
    && run[0] == World([Success], [], [])
    && (forall t :: 0 <= t < |run| ==> run[t].history != [])
    && forall t :: 0 <= t < |steps| ==> Enabled(run[t], steps[t]) && run[t + 1] == Apply(run[t], steps[t])
  }

  // ---- What every step keeps ----

  /** The calls that wrote, in the order of their writes, make up the whole history. */
  ghost predicate Accounted(w: World) {
    && |w.history| == |w.writers| + 1
    && (forall k :: 0 <= k < |w.writers| ==> w.writers[k] < |w.calls| && Wrote(w, w.writers[k], k))
    && forall i :: 0 <= i < |w.calls| && w.calls[i].wrote ==>
         w.calls[i].seen < |w.writers| && w.writers[w.calls[i].seen] == i
  }

  /** Call `i` made the change after position `k`. */
  ghost predicate Wrote(w: World, i: nat, k: int)
    requires i < |w.calls|
  {
    w.calls[i].wrote && w.calls[i].seen == k
  }

  ghost predicate CallOk(h: seq<GraphState>, c: Call) {
    && c.start <= c.tried <= c.seen < |h|
    && (if c.wrote then
          && c.seen + 1 < |h| && h[c.seen + 1] == TableEntry(c.wanted, h[c.seen])
          && c.Finished() && c.rounds <= c.seen - c.start + 1
        else
          && h[c.seen] == c.known && c.rounds <= c.seen - c.start
          && c.target == if c.rounds == 0 then c.wanted else TableEntry(c.wanted, h[c.tried]))
  }

  ghost predicate Inv(w: World) {
    && w.history != []
    && Accounted(w)
    && forall i :: 0 <= i < |w.calls| ==> CallOk(w.history, w.calls[i])
  }

  lemma ExchangeInv(w: World, i: nat)
    requires Inv(w) && Enabled(w, Exchange(i))
    ensures Inv(Apply(w, Exchange(i)))
  {
    var w1 := Apply(w, Exchange(i));
    assert CallOk(w.history, w.calls[i]) && CallOk(w1.history, w1.calls[i]);
    forall j | 0 <= j < |w1.calls| && j != i ensures CallOk(w1.history, w1.calls[j]) {
      assert CallOk(w.history, w.calls[j]);
    }
  }

  lemma {:induction false} RunKeepsInv(run: seq<World>, steps: seq<Step>, t: nat)
    requires IsRun(run, steps) && t < |run|
    ensures Inv(run[t])
  {
    if t > 0 {
      RunKeepsInv(run, steps, t - 1);
      if steps[t - 1].Exchange? {
        ExchangeInv(run[t - 1], steps[t - 1].call);
      }
    }
  }

  // ---- Results ----

  /** The call acts as one application of its table row at position `seen`. */
  ghost predicate ActsAtomically(h: seq<GraphState>, c: Call)
    requires c.seen < |h| && (c.wrote ==> c.seen + 1 < |h|)
  {
    TableEntry(c.wanted, h[c.seen]) == h[if c.wrote then c.seen + 1 else c.seen]
  }

  /** In every run a finished call acts as one application of its row at a moment of the call, unless it asked for
      `Undefined` and gave up, without writing, because it found the state `Aborting`. That takes a transition
      during the call. */
  lemma FinishedCallsAreAtomic(run: seq<World>, steps: seq<Step>, t: nat, i: nat)
    requires IsRun(run, steps) && t < |run| && i < |run[t].calls| && run[t].calls[i].Finished()
    ensures var h, c := run[t].history, run[t].calls[i];
            && c.start <= c.seen < |h| && (c.wrote ==> c.seen + 1 < |h|)
            && (ActsAtomically(h, c) <==> c.wrote || c.wanted != Undefined || h[c.seen] != Aborting)
            && (!ActsAtomically(h, c) ==> exists k :: c.start <= k <= c.seen && h[k] == InTransition)
  {
    RunKeepsInv(run, steps, t);
    assert CallOk(run[t].history, run[t].calls[i]);
  }

  /** A call makes at most one exchange more than there were changes between its start and the moment it acts at. */
  lemma ExchangesAreBounded(run: seq<World>, steps: seq<Step>, t: nat, i: nat)
    requires IsRun(run, steps) && t < |run| && i < |run[t].calls|
    ensures run[t].calls[i].rounds <= run[t].calls[i].seen - run[t].calls[i].start + 1
  {
    RunKeepsInv(run, steps, t);
    assert CallOk(run[t].history, run[t].calls[i]);
  }

  /** Every change of the state in a run is the row of exactly one call. */
  lemma EveryChangeIsOneCall(run: seq<World>, steps: seq<Step>, t: nat, k: nat)
    requires IsRun(run, steps) && t < |run| && k + 1 < |run[t].history|
    ensures k < |run[t].writers| && run[t].writers[k] < |run[t].calls|
    ensures var w, i := run[t], run[t].writers[k];
            && Wrote(w, i, k)
            && w.history[k + 1] == TableEntry(w.calls[i].wanted, w.history[k])
            && forall j: nat :: j < |w.calls| && Wrote(w, j, k) ==> j == i
  {
    RunKeepsInv(run, steps, t);
    assert CallOk(run[t].history, run[t].calls[run[t].writers[k]]);
  }

  /** Success is entered only from a transition, and a transition only from success or the undefined state. */
  lemma EntriesIntoStates(run: seq<World>, steps: seq<Step>, t: nat, k: nat)
    requires IsRun(run, steps) && t < |run| && k + 1 < |run[t].history|
    requires run[t].history[k + 1] != run[t].history[k]
    ensures run[t].history[k + 1] == Success ==> run[t].history[k] == InTransition
    ensures run[t].history[k + 1] == InTransition ==>
              run[t].history[k] == Success || run[t].history[k] == Undefined
  {
    EveryChangeIsOneCall(run, steps, t, k);
  }

  /** The state that call `c` left at the moment at which it acts. */
  ghost function LeftBehind(h: seq<GraphState>, c: Call): GraphState
    requires c.seen < |h| && (c.wrote ==> c.seen + 1 < |h|)
  {
    h[if c.wrote then c.seen + 1 else c.seen]
  }

  /** What a finished call does, in the terms of the changes that are allowed. A request for success that comes too late
      leaves the graph undefined, as does one to abort or cancel a graph that is in no transition; a cancel overrides an
      abort, and an abort never a cancel; a new transition has to wait for an old one to end. Only a request for the
      undefined state can be without effect, on a graph that is aborting. */
  lemma FinishedCallFollows(run: seq<World>, steps: seq<Step>, t: nat, i: nat)
    requires IsRun(run, steps) && t < |run| && i < |run[t].calls| && run[t].calls[i].Finished()
    ensures var h, c := run[t].history, run[t].calls[i];
            && c.start <= c.seen < |h| && (c.wrote ==> c.seen + 1 < |h|)
            && var from, to := h[c.seen], LeftBehind(h, c);
               && (Follows(from, c.wanted, to) || (c.wanted == Undefined && from == to == Aborting && !c.wrote))
               && (c.wanted == Success && from.Rank() >= Aborting.Rank() ==> to == Undefined)
               && (Left(c.wanted) && (from == Success || from == Undefined) ==> to == Undefined)
               && (c.wanted == Cancelled && from == Aborting ==> to == Cancelled)
               && (c.wanted == Aborting && from == Cancelled ==> to == Cancelled)
               && (c.wanted == InTransition && Left(from) ==> to == from)
  {
    RunKeepsInv(run, steps, t);
    assert CallOk(run[t].history, run[t].calls[i]);
  }

  /** Every change is an allowed one, made by the one call whose request it follows from. */
  lemma EveryChangeIsAllowed(run: seq<World>, steps: seq<Step>, t: nat, k: nat)
    requires IsRun(run, steps) && t < |run| && k + 1 < |run[t].history|
    ensures k < |run[t].writers| && run[t].writers[k] < |run[t].calls|
    ensures var h, c := run[t].history, run[t].calls[run[t].writers[k]];
            (h[k] == h[k + 1] || Allowed(h[k], h[k + 1])) && Follows(h[k], c.wanted, h[k + 1])
  {
    EveryChangeIsOneCall(run, steps, t, k);
  }

  /** A graph that has left its transition comes to success, to a transition or from a cancel to an abort only by way of the
      undefined state. */
  lemma {:induction false} LeftUntilUndefined(run: seq<World>, steps: seq<Step>, t: nat, j: nat, k: nat)
    requires IsRun(run, steps) && t < |run| && j <= k < |run[t].history| && Left(run[t].history[j])
    requires forall m :: j <= m <= k ==> run[t].history[m] != Undefined
    ensures Left(run[t].history[k]) && run[t].history[j].Rank() <= run[t].history[k].Rank()
    decreases k
  {
    if j < k {
      LeftUntilUndefined(run, steps, t, j, k - 1);
      EveryChangeIsAllowed(run, steps, t, k - 1);
    }
  }

  /** Between two successes, the later of which is a change, there is a transition that was not left: success is announced only
      for a transition that has neither been aborted nor cancelled since it began. */
  lemma {:induction false} SuccessIsEarned(run: seq<World>, steps: seq<Step>, t: nat, k: nat)
    requires IsRun(run, steps) && t < |run| && 0 < k < |run[t].history|
    requires run[t].history[k] == Success && run[t].history[k - 1] != Success
    ensures exists j: nat :: BeginsTransition(run[t].history, j, k)
  {
    EveryChangeIsAllowed(run, steps, t, k - 1);
    var j := TransitionBegan(run, steps, t, k - 1);
    assert BeginsTransition(run[t].history, j, k);
  }

  /** The transition began with the change to position `j` and goes on up to position `k`. */
  ghost predicate BeginsTransition(h: seq<GraphState>, j: nat, k: nat) {
    && 0 < j < k < |h| && (h[j - 1] == Success || h[j - 1] == Undefined)
    && forall m :: j <= m < k ==> h[m] == InTransition
  }

  lemma {:induction false} TransitionBegan(run: seq<World>, steps: seq<Step>, t: nat, k: nat) returns (j: nat)
    requires IsRun(run, steps) && t < |run| && k < |run[t].history| && run[t].history[k] == InTransition
    ensures 0 < j <= k && (run[t].history[j - 1] == Success || run[t].history[j - 1] == Undefined)
    ensures forall m :: j <= m <= k ==> run[t].history[m] == InTransition
  {
    StartsInSuccess(run, steps, t);
    EveryChangeIsAllowed(run, steps, t, k - 1);
    if run[t].history[k - 1] == InTransition {
      j := TransitionBegan(run, steps, t, k - 1);
    } else {
      j := k;
    }
  }

  lemma {:induction false} StartsInSuccess(run: seq<World>, steps: seq<Step>, t: nat)
    requires IsRun(run, steps) && t < |run|
    ensures run[t].history != [] && run[t].history[0] == Success
  {
    if t > 0 {
      StartsInSuccess(run, steps, t - 1);
    }
  }

  /** The `Undefined` row is not idempotent at `Aborting`, so such a call can be lost: it and an abort
      both read a transition, the abort wins, and the call returns leaving the graph aborting. */
  lemma UndefinedCanBeLost() returns (run: seq<World>, steps: seq<Step>)
    ensures IsRun(run, steps)
    ensures var w := run[|steps|];
            && |w.calls| == 3 && w.calls[1].wanted == Undefined && w.calls[1].Finished() && !w.calls[1].wrote
            && w.State() == Aborting
            && forall k :: w.calls[1].start <= k < |w.history| ==> TableEntry(Undefined, w.history[k]) != w.history[k]
  {
    var first := Call(InTransition, InTransition, InTransition, 0, 0, 0, 1, true);
    var lost := Call(Undefined, InTransition, Undefined, 1, 1, 1, 0, false);
    var abort := Call(Aborting, InTransition, Aborting, 1, 1, 1, 0, false);
    run, steps := TransitionBegun();
    hide IsRun;
    var w := World([Success, InTransition], [0], [first]);
    run, steps := OneMore(run, steps, Enter(Undefined), w.(calls := [first, lost]));
    run, steps := OneMore(run, steps, Enter(Aborting), w.(calls := [first, lost, abort]));
    var w1 := World([Success, InTransition, Aborting], [0, 2],
                    [first, lost, abort.(known := Aborting, rounds := 1, wrote := true)]);
    run, steps := OneMore(run, steps, Exchange(2), w1);
    var w2 := w1.(calls := w1.calls[1 := Call(Undefined, Aborting, Aborting, 1, 2, 1, 1, false)]);
    run, steps := OneMore(run, steps, Exchange(1), w2);
  }

  lemma TransitionBegun() returns (run: seq<World>, steps: seq<Step>)
    ensures IsRun(run, steps)
    ensures run[|steps|] ==
            World([Success, InTransition], [0], [Call(InTransition, InTransition, InTransition, 0, 0, 0, 1, true)])
  {
    var w0 := World([Success], [], []);
    var w1 := World([Success], [], [Call(InTransition, Success, InTransition, 0, 0, 0, 0, false)]);
    var w2 := World([Success, InTransition], [0], [Call(InTransition, InTransition, InTransition, 0, 0, 0, 1, true)]);
    run, steps := [w0], [];
    run, steps := OneMore(run, steps, Enter(InTransition), w1);
    run, steps := OneMore(run, steps, Exchange(0), w2);
  }

  lemma OneMore(run0: seq<World>, steps0: seq<Step>, s: Step, w: World) returns (run: seq<World>, steps: seq<Step>)
    requires IsRun(run0, steps0) && Enabled(run0[|steps0|], s)
    requires w == Apply(run0[|steps0|], s) && w.history != []
    ensures IsRun(run, steps) && run[|steps|] == w
  {
    run, steps := run0 + [w], steps0 + [s];
  }
}
