/** Recovery requests: any number of threads claim a slot, leave a request in the ring buffer and wait for a future;
    the daemon's handler takes the requests one by one, answers each and frees its slot. Every access to a slot or the buffer is a
    step of its own. */
module RecoverySlots {
  import opened Counting
  import opened Wrappers

  /** A sending thread is away, looks at slot `slot`, holds it, or has been refused and must free it. */
  datatype Sender = Away | Scanning(slot: nat) | Claimed(slot: nat) | Refused(slot: nat)

  /** The handler is away, handles the request of a slot, or has answered it and must free it. */
  datatype Handler = Idle | Handling(slot: nat) | Answered(slot: nat)

  /** `promise[x]` is the future that slot `x` was last claimed for, and `buffer` the slots named by the requests in the
      ring buffer. `answers[f]` counts how often future `f` has been resolved, and `home[f]` is its slot. */
  datatype State = State(inUse: seq<bool>, promise: seq<nat>, buffer: seq<nat>, senders: seq<Sender>, handler: Handler,
                         answers: seq<nat>, home: seq<nat>)

  function Initial(slots: nat, senders: nat): State {
    State(seq(slots, i => false), seq(slots, i => 0), [], seq(senders, i => Away), Idle, [], [])
  }

  datatype Step =
    | Send(sender: nat)        // a request is to be sent
    | Scan(sender: nat)        // the sender tries to claim the slot it looks at
    | NoFuture(sender: nat)    // no future can be had for the claimed slot
    | Enqueue(sender: nat)
    | FreeRefused(sender: nat)
    | Next                     // the handler takes the next request
    | Answer
    | FreeAnswered

  ghost predicate Enabled(s: State, step: Step) {
    match step
    case Send(c) => c < |s.senders| && s.senders[c].Away?
    case Scan(c) => c < |s.senders| && s.senders[c].Scanning?
    case NoFuture(c) => c < |s.senders| && s.senders[c].Claimed?
    case Enqueue(c) => c < |s.senders| && s.senders[c].Claimed?
    case FreeRefused(c) => c < |s.senders| && s.senders[c].Refused?
    case Next => s.handler.Idle? && s.buffer != []
    case Answer => s.handler.Handling?
    case FreeAnswered => s.handler.Answered?
  }

  /** The slots that are named exist; every step keeps this. */
  ghost predicate Sized(s: State) {
    && |s.promise| == |s.inUse| && |s.home| == |s.answers|
    && (forall c :: 0 <= c < |s.senders| && (s.senders[c].Claimed? || s.senders[c].Refused?) ==>
          s.senders[c].slot < |s.inUse|)
    && (forall c :: 0 <= c < |s.senders| && s.senders[c].Scanning? ==> s.senders[c].slot <= |s.inUse|)
    && (forall k :: 0 <= k < |s.buffer| ==> s.buffer[k] < |s.inUse|)
    && (!s.handler.Idle? ==> s.handler.slot < |s.inUse|)
  }

  function Resolve(s: State, x: nat): State
    requires x < |s.promise|
  {
    var f := s.promise[x];
    if f < |s.answers| then s.(answers := s.answers[f := s.answers[f] + 1]) else s
  }

  function Free(s: State, x: nat): State
    requires x < |s.inUse|
  {
    s.(inUse := s.inUse[x := false])
  }

  /** The sender looks at slot `x`: past the end it gets a future that already holds an error. */
  function Scanned(s: State, c: nat, x: nat): State
    requires c < |s.senders| && |s.promise| == |s.inUse|
  {
    if x >= |s.inUse| then
      s.(senders := s.senders[c := Away], answers := s.answers + [1], home := s.home + [x])
    else if s.inUse[x] then s.(senders := s.senders[c := Scanning(x + 1)])
    else s.(senders := s.senders[c := Claimed(x)], inUse := s.inUse[x := true],
            promise := s.promise[x := |s.answers|], answers := s.answers + [0], home := s.home + [x])
  }

  function Apply(s: State, step: Step, capacity: nat): State
    requires Sized(s) && Enabled(s, step)
  {
    match step
    case Send(c) => s.(senders := s.senders[c := Scanning(0)])
    case Scan(c) => Scanned(s, c, s.senders[c].slot)
    case NoFuture(c) =>
      var x := s.senders[c].slot;
      Resolve(s, x).(senders := s.senders[c := Refused(x)])
    case Enqueue(c) =>
      var x := s.senders[c].slot;
      if |s.buffer| < capacity then s.(senders := s.senders[c := Away], buffer := s.buffer + [x])
      else Resolve(s, x).(senders := s.senders[c := Refused(x)])
    case FreeRefused(c) => Free(s, s.senders[c].slot).(senders := s.senders[c := Away])
    case Next => s.(handler := Handling(s.buffer[0]), buffer := s.buffer[1..])
    case Answer => Resolve(s, s.handler.slot).(handler := Answered(s.handler.slot))
    case FreeAnswered => Free(s, s.handler.slot).(handler := Idle)
  }

  ghost predicate IsRun(run: seq<State>, steps: seq<Step>, capacity: nat) {
    && |run| == |steps| + 1
    && run[0] == Initial(|run[0].inUse|, |run[0].senders|)
    && (forall t :: 0 <= t < |run| ==> Sized(run[t]))
    && forall t :: 0 <= t < |steps| ==> StepAt(run, steps, capacity, t)
  }

  ghost predicate StepAt(run: seq<State>, steps: seq<Step>, capacity: nat, t: nat)
    requires t < |steps| < |run| && Sized(run[t])
  {
    Enabled(run[t], steps[t]) && run[t + 1] == Apply(run[t], steps[t], capacity)
  }

  // ---- Who has which slot ----

  function One(b: bool): nat { if b then 1 else 0 }

  /** Does the sender hold slot `x`, with or without an answer? */
  ghost predicate Holds(c: Sender, answered: bool, x: nat) {
    (if answered then c.Refused? else c.Claimed?) && c.slot == x
  }

  ghost function Holders(senders: seq<Sender>, answered: bool, x: nat): nat {
    if senders == [] then 0 else One(Holds(senders[0], answered, x)) + Holders(senders[1..], answered, x)
  }

  /** In how many places slot `x` waits for an answer, */
  ghost function Waiting(s: State, x: nat): nat {
    Holders(s.senders, false, x) + Count(s.buffer, x) + One(s.handler == Handling(x))
  }

  /** and in how many it has been answered and is about to be freed. */
  ghost function Closing(s: State, x: nat): nat {
    Holders(s.senders, true, x) + One(s.handler == Answered(x))
  }

  lemma {:induction false} HoldersUpdate(senders: seq<Sender>, c: nat, to: Sender, answered: bool, x: nat)
    requires c < |senders|
    ensures Holders(senders[c := to], answered, x) + One(Holds(senders[c], answered, x)) ==
            Holders(senders, answered, x) + One(Holds(to, answered, x))
  {
    if c == 0 {
      assert senders[c := to][1..] == senders[1..];
    } else {
      HoldersUpdate(senders[1..], c - 1, to, answered, x);
      assert senders[c := to][1..] == senders[1..][c - 1 := to];
    }
  }

  lemma {:induction false} NoHolders(senders: seq<Sender>, answered: bool, x: nat)
    requires forall c :: 0 <= c < |senders| ==> senders[c].Away?
    ensures Holders(senders, answered, x) == 0
  {
    if senders != [] {
      NoHolders(senders[1..], answered, x);
    }
  }

  /** The slots in use are exactly those that wait or close somewhere, and each does so in one place only. */
  ghost predicate SlotsConserved(s: State) {
    forall x: nat :: Waiting(s, x) + Closing(s, x) == One(x < |s.inUse| && s.inUse[x])
  }

  /** A slot that waits belongs to an unanswered future, and an unanswered future has a slot that waits. */
  ghost predicate FuturesConserved(s: State)
    requires |s.promise| == |s.inUse| && |s.home| == |s.answers|
  {
    && (forall f :: 0 <= f < |s.answers| ==> s.answers[f] <= 1)
    && (forall x: nat :: Waiting(s, x) > 0 ==>
          x < |s.promise| && s.promise[x] < |s.answers| && s.answers[s.promise[x]] == 0 && s.home[s.promise[x]] == x)
    && forall f :: 0 <= f < |s.answers| && s.answers[f] == 0 ==>
         s.home[f] < |s.promise| && Waiting(s, s.home[f]) > 0 && s.promise[s.home[f]] == f
  }

  ghost predicate Inv(s: State) {
    Sized(s) && SlotsConserved(s) && FuturesConserved(s)
  }

  // ---- What each step does to the slots ----

  /** The slot that the step claims, the one it answers, and the one it frees. */
  ghost function ClaimedSlot(s: State, step: Step): Option<nat>
    requires Enabled(s, step)
  {
    if step.Scan? && s.senders[step.sender].slot < |s.inUse| && !s.inUse[s.senders[step.sender].slot]
    then Some(s.senders[step.sender].slot) else None
  }

  ghost function AnsweredSlot(s: State, step: Step, capacity: nat): Option<nat>
    requires Enabled(s, step)
  {
    match step
    case NoFuture(c) => Some(s.senders[c].slot)
    case Enqueue(c) => if |s.buffer| < capacity then None else Some(s.senders[c].slot)
    case Answer => Some(s.handler.slot)
    case _ => None
  }

  ghost function FreedSlot(s: State, step: Step): Option<nat>
    requires Enabled(s, step)
  {
    match step
    case FreeRefused(c) => Some(s.senders[c].slot)
    case FreeAnswered => Some(s.handler.slot)
    case _ => None
  }

  lemma SenderMoves(s: State, step: Step, capacity: nat, x: nat)
    requires Sized(s) && Enabled(s, step) && !step.Next? && !step.Answer? && !step.FreeAnswered?
    ensures var s1 := Apply(s, step, capacity);
            && Waiting(s1, x) + One(AnsweredSlot(s, step, capacity) == Some(x)) ==
               Waiting(s, x) + One(ClaimedSlot(s, step) == Some(x))
            && Closing(s1, x) + One(FreedSlot(s, step) == Some(x)) ==
               Closing(s, x) + One(AnsweredSlot(s, step, capacity) == Some(x))
  {
    var c := step.sender;
    var s1 := Apply(s, step, capacity);
    HoldersUpdate(s.senders, c, s1.senders[c], false, x);
    HoldersUpdate(s.senders, c, s1.senders[c], true, x);
    assert s1.senders == s.senders[c := s1.senders[c]];
    if step.Enqueue? {
      CountAppend(s.buffer, [s.senders[c].slot], x);
    }
  }

  lemma StepMoves(s: State, step: Step, capacity: nat, x: nat)
    requires Sized(s) && Enabled(s, step)
    ensures var s1 := Apply(s, step, capacity);
            && Waiting(s1, x) + One(AnsweredSlot(s, step, capacity) == Some(x)) ==
               Waiting(s, x) + One(ClaimedSlot(s, step) == Some(x))
            && Closing(s1, x) + One(FreedSlot(s, step) == Some(x)) ==
               Closing(s, x) + One(AnsweredSlot(s, step, capacity) == Some(x))
  {
    if !step.Next? && !step.Answer? && !step.FreeAnswered? {
      SenderMoves(s, step, capacity, x);
    }
  }

  lemma InitialInv(slots: nat, senders: nat)
    ensures Inv(Initial(slots, senders))
  {
    forall x: nat ensures Waiting(Initial(slots, senders), x) + Closing(Initial(slots, senders), x) == 0 {
      NoHolders(Initial(slots, senders).senders, false, x);
      NoHolders(Initial(slots, senders).senders, true, x);
    }
  }

  lemma StepSlots(s: State, step: Step, capacity: nat)
    requires Inv(s) && Enabled(s, step)
    ensures SlotsConserved(Apply(s, step, capacity))
  {
    var s1 := Apply(s, step, capacity);
    forall x: nat ensures Waiting(s1, x) + Closing(s1, x) == One(x < |s1.inUse| && s1.inUse[x]) {
      StepMoves(s, step, capacity, x);
      assert Waiting(s, x) + Closing(s, x) == One(x < |s.inUse| && s.inUse[x]);
      InUseAfter(s, step, capacity, x);
    }
  }

  lemma InUseAfter(s: State, step: Step, capacity: nat, x: nat)
    requires Sized(s) && Enabled(s, step)
    ensures var s1 := Apply(s, step, capacity);
            && |s1.inUse| == |s.inUse|
            && (x < |s.inUse| ==> s1.inUse[x] == ((s.inUse[x] || ClaimedSlot(s, step) == Some(x)) && FreedSlot(s, step) != Some(x)))
            && (ClaimedSlot(s, step) == Some(x) ==> x < |s.inUse| && !s.inUse[x])
  {
  }

  /** A slot that waits is in one place only, and is in use. */
  lemma WaitingOnce(s: State, x: nat)
    requires Inv(s) && Waiting(s, x) > 0
    ensures Waiting(s, x) == 1 && Closing(s, x) == 0 && x < |s.inUse| && s.inUse[x]
  {
  }

  lemma {:induction false} HeldCounts(senders: seq<Sender>, c: nat, answered: bool, x: nat)
    requires c < |senders| && Holds(senders[c], answered, x)
    ensures Holders(senders, answered, x) > 0
  {
    if c > 0 {
      HeldCounts(senders[1..], c - 1, answered, x);
    }
  }

  /** What is answered was waiting. */
  lemma AnsweredWaits(s: State, step: Step, capacity: nat)
    requires Inv(s) && Enabled(s, step) && AnsweredSlot(s, step, capacity).Some?
    ensures var x := AnsweredSlot(s, step, capacity).value;
            Waiting(s, x) == 1 && Closing(s, x) == 0 && x < |s.promise| && s.promise[x] < |s.answers|
  {
    var x := AnsweredSlot(s, step, capacity).value;
    if !step.Answer? {
      HeldCounts(s.senders, step.sender, false, x);
    }
    WaitingOnce(s, x);
  }

  /** The future of the answered slot is resolved for the first time, and no other future changes. */
  lemma FuturesAnswer(s: State, step: Step, capacity: nat)
    requires Inv(s) && Enabled(s, step) && AnsweredSlot(s, step, capacity).Some?
    ensures FuturesConserved(Apply(s, step, capacity))
  {
    var s1 := Apply(s, step, capacity);
    var x := AnsweredSlot(s, step, capacity).value;
    AnsweredWaits(s, step, capacity);
    forall y: nat ensures Waiting(s1, y) == if y == x then 0 else Waiting(s, y) {
      StepMoves(s, step, capacity, y);
    }
    assert s1.answers == s.answers[s.promise[x] := 1] && s1.promise == s.promise && s1.home == s.home;
  }

  lemma FuturesClaim(s: State, step: Step, capacity: nat)
    requires Inv(s) && Enabled(s, step) && ClaimedSlot(s, step).Some?
    ensures FuturesConserved(Apply(s, step, capacity))
  {
    var s1 := Apply(s, step, capacity);
    var x := ClaimedSlot(s, step).value;
    assert Waiting(s, x) == 0;
    forall y: nat ensures Waiting(s1, y) == if y == x then 1 else Waiting(s, y) {
      StepMoves(s, step, capacity, y);
    }
  }

  lemma FuturesOther(s: State, step: Step, capacity: nat)
    requires Inv(s) && Enabled(s, step) && ClaimedSlot(s, step).None? && AnsweredSlot(s, step, capacity).None?
    ensures FuturesConserved(Apply(s, step, capacity))
  {
    var s1 := Apply(s, step, capacity);
    forall y: nat ensures Waiting(s1, y) == Waiting(s, y) {
      StepMoves(s, step, capacity, y);
    }
    assert s1.promise == s.promise;
    assert s1.answers == s.answers || s1.answers == s.answers + [1];
  }

  lemma StepSized(s: State, step: Step, capacity: nat)
    requires Sized(s) && Enabled(s, step)
    ensures Sized(Apply(s, step, capacity))
  {
  }

  lemma StepInv(s: State, step: Step, capacity: nat)
    requires Inv(s) && Enabled(s, step)
    ensures Inv(Apply(s, step, capacity))
  {
    StepSized(s, step, capacity);
    StepSlots(s, step, capacity);
    if AnsweredSlot(s, step, capacity).Some? {
      FuturesAnswer(s, step, capacity);
    } else if ClaimedSlot(s, step).Some? {
      FuturesClaim(s, step, capacity);
    } else {
      FuturesOther(s, step, capacity);
    }
  }

  lemma {:induction false} RunKeepsInv(run: seq<State>, steps: seq<Step>, capacity: nat, t: nat)
    requires IsRun(run, steps, capacity) && t < |run|
    ensures Inv(run[t]) && |run[t].inUse| == |run[0].inUse|
  {
    hide Inv, Sized, Apply, Enabled, ClaimedSlot, FreedSlot;
    if t == 0 {
      InitialInv(|run[0].inUse|, |run[0].senders|);
    } else {
      RunKeepsInv(run, steps, capacity, t - 1);
      assert StepAt(run, steps, capacity, t - 1);
      StepInv(run[t - 1], steps[t - 1], capacity);
      InUseAfter(run[t - 1], steps[t - 1], capacity, 0);
    }
  }

  // ---- Results ----

  /** In every interleaving: a slot is in use exactly when one sender, one request in the buffer or the handler has
      it; no two of them ever have the same slot. */
  lemma EverySlotHasOneOwner(run: seq<State>, steps: seq<Step>, capacity: nat, t: nat, x: nat)
    requires IsRun(run, steps, capacity) && t < |run|
    ensures Waiting(run[t], x) + Closing(run[t], x) == One(x < |run[t].inUse| && run[t].inUse[x])
  {
    RunKeepsInv(run, steps, capacity, t);
  }

  /** No future is resolved twice; and whenever every thread is back and the buffer is empty, every future
      has been resolved exactly once and every slot is free again. */
  lemma EveryFutureIsResolvedOnce(run: seq<State>, steps: seq<Step>, capacity: nat, t: nat)
    requires IsRun(run, steps, capacity) && t < |run|
    ensures forall f :: 0 <= f < |run[t].answers| ==> run[t].answers[f] <= 1
    ensures run[t].buffer == [] && run[t].handler.Idle? && (forall c :: 0 <= c < |run[t].senders| ==> run[t].senders[c].Away?) ==>
              && (forall f :: 0 <= f < |run[t].answers| ==> run[t].answers[f] == 1)
              && forall x :: 0 <= x < |run[t].inUse| ==> !run[t].inUse[x]
  {
    var s := run[t];
    RunKeepsInv(run, steps, capacity, t);
    if s.buffer == [] && s.handler.Idle? && forall c :: 0 <= c < |s.senders| ==> s.senders[c].Away? {
      forall x: nat ensures Waiting(s, x) == 0 && Closing(s, x) == 0 {
        NoHolders(s.senders, false, x);
        NoHolders(s.senders, true, x);
      }
      forall x | 0 <= x < |s.inUse| ensures !s.inUse[x] {
        assert Waiting(s, x) + Closing(s, x) == One(s.inUse[x]);
      }
    }
  }

  lemma {:induction false} CountMultiset(list: seq<nat>, x: nat)
    ensures multiset(list)[x] == Count(list, x)
  {
    if list != [] {
      assert list == [list[0]] + list[1..];
      CountMultiset(list[1..], x);
    }
  }

  /** With no more slots than places in the buffer, no request that has a slot is ever refused for lack of
      space. */
  lemma BufferHasRoom(run: seq<State>, steps: seq<Step>, capacity: nat, t: nat, c: nat)
    requires IsRun(run, steps, capacity) && t < |run| && |run[0].inUse| <= capacity
    requires c < |run[t].senders| && run[t].senders[c].Claimed?
    ensures |run[t].buffer| < capacity
  {
    var s, x := run[t], run[t].senders[c].slot;
    RunKeepsInv(run, steps, capacity, t);
    HeldCounts(s.senders, c, false, x);
    var m := multiset(s.buffer + [x]);
    forall y: nat ensures m[y] <= 1 && (y in m ==> y in Below(|s.inUse|)) {
      CountMultiset(s.buffer + [x], y);
      CountAppend(s.buffer, [x], y);
      assert Waiting(s, y) + Closing(s, y) <= 1;
    }
    DistinctFits(m, Below(|s.inUse|));
  }

  /** In the call that it is in at time `t`, sender `c` looked at slot `y` at time `u` and found it in use. */
  ghost predicate FoundBusy(run: seq<State>, steps: seq<Step>, c: nat, y: nat, u: nat, t: nat) {
    && u < t < |run| && u < |steps| && |steps| <= |run|
    && steps[u] == Scan(c) && c < |run[u].senders| && run[u].senders[c] == Scanning(y)
    && y < |run[u].inUse| && run[u].inUse[y]
    && forall v :: u < v < t && v < |steps| ==> steps[v] != Send(c)
  }

  lemma {:induction false} ScannedBefore(run: seq<State>, steps: seq<Step>, capacity: nat, t: nat, c: nat, y: nat)
    requires IsRun(run, steps, capacity) && t < |run|
    requires c < |run[t].senders| && run[t].senders[c].Scanning? && y < run[t].senders[c].slot
    ensures exists u: nat :: FoundBusy(run, steps, c, y, u, t)
    decreases t
  {
    hide Sized;
    assert StepAt(run, steps, capacity, t - 1);
    var s, step := run[t - 1], steps[t - 1];
    if step == Scan(c) && y == s.senders[c].slot {
      assert FoundBusy(run, steps, c, y, t - 1, t);
    } else {
      SenderStays(s, step, capacity, c);
      ScannedBefore(run, steps, capacity, t - 1, c, y);
      var u: nat :| FoundBusy(run, steps, c, y, u, t - 1);
      assert FoundBusy(run, steps, c, y, u, t);
    }
  }

  /** A sender that scans beyond the first slot was scanning before, too. */
  lemma SenderStays(s: State, step: Step, capacity: nat, c: nat)
    requires Sized(s) && Enabled(s, step)
    requires var s1 := Apply(s, step, capacity); c < |s1.senders| && s1.senders[c].Scanning? && s1.senders[c].slot > 0
    ensures c < |s.senders| && s.senders[c].Scanning? && step != Send(c)
    ensures Apply(s, step, capacity).senders[c].slot == s.senders[c].slot + (if step == Scan(c) then 1 else 0)
    ensures step == Scan(c) ==> s.senders[c].slot < |s.inUse| && s.inUse[s.senders[c].slot]
  {
  }

  /** A sender takes the first slot that it finds free, and gets an error for want of one only after it has found every
      slot in use, each at some time during its call. */
  lemma ErrorMeansAllBusy(run: seq<State>, steps: seq<Step>, capacity: nat, t: nat, c: nat, y: nat)
    requires IsRun(run, steps, capacity) && t < |steps| && steps[t] == Scan(c)
    ensures c < |run[t].senders| && run[t].senders[c].Scanning?
    ensures var s, s1, x := run[t], run[t + 1], run[t].senders[c].slot;
            && (y < x ==> exists u: nat :: FoundBusy(run, steps, c, y, u, t))
            && (x >= |s.inUse| ==> s1 == s.(senders := s.senders[c := Away], answers := s.answers + [1], home := s.home + [x]))
            && (x < |s.inUse| && !s.inUse[x] ==>
                  s1.senders == s.senders[c := Claimed(x)] && s1.inUse == s.inUse[x := true] && s1.buffer == s.buffer)
            && (x < |s.inUse| && s.inUse[x] ==> s1 == s.(senders := s.senders[c := Scanning(x + 1)]))
  {
    assert StepAt(run, steps, capacity, t);
    if y < run[t].senders[c].slot {
      ScannedBefore(run, steps, capacity, t, c, y);
    }
  }

  /** The slots of the requests that were put into the buffer in the first `t` steps, and of those that the handler took out. */
  ghost function PutIn(run: seq<State>, steps: seq<Step>, capacity: nat, t: nat): seq<nat>
    requires t <= |steps| <= |run|
  {
    if t == 0 then []
    else
      var s, step, before := run[t - 1], steps[t - 1], PutIn(run, steps, capacity, t - 1);
      if step.Enqueue? && |s.buffer| < capacity && step.sender < |s.senders| && s.senders[step.sender].Claimed?
      then before + [s.senders[step.sender].slot] else before
  }

  ghost function TakenOut(run: seq<State>, steps: seq<Step>, t: nat): seq<nat>
    requires t <= |steps| && t < |run|
  {
    if t == 0 then []
    else
      var before := TakenOut(run, steps, t - 1);
      if steps[t - 1].Next? && run[t].handler.Handling? then before + [run[t].handler.slot] else before
  }

  /** Requests are handled in the order in which they were put into the buffer, and none is skipped. */
  lemma {:induction false} HandledInOrder(run: seq<State>, steps: seq<Step>, capacity: nat, t: nat)
    requires IsRun(run, steps, capacity) && t < |run|
    ensures PutIn(run, steps, capacity, t) == TakenOut(run, steps, t) + run[t].buffer
  {
    hide Sized, Apply, Enabled;
    if t > 0 {
      HandledInOrder(run, steps, capacity, t - 1);
      assert StepAt(run, steps, capacity, t - 1);
      BufferStep(run[t - 1], steps[t - 1], capacity);
    }
  }

  lemma BufferStep(s: State, step: Step, capacity: nat)
    requires Sized(s) && Enabled(s, step)
    ensures var s1 := Apply(s, step, capacity);
            && (step.Next? ==> s.buffer != [] && s1.handler == Handling(s.buffer[0]) && s1.buffer == s.buffer[1..])
            && (step.Enqueue? ==> step.sender < |s.senders| && s.senders[step.sender].Claimed?)
            && (step.Enqueue? && |s.buffer| < capacity ==> s1.buffer == s.buffer + [s.senders[step.sender].slot])
            && (!step.Next? && !(step.Enqueue? && |s.buffer| < capacity) ==> s1.buffer == s.buffer)
  {
  }
}
