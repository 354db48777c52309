/** The daemon reports every change of a process's state through a ring buffer to the health manager. */
module ProcessReports {
  import opened RingBuffer

  datatype Outcome<P> = Changed(process: P) | Nothing | CommunicationError | GeneralError

  /** What one receive returns. */
  function Received<P>(f: Fifo<P>, size: nat): Outcome<P> {
    if f.overflow then CommunicationError
    else if f.items == [] then Nothing
    else match Front(f, size)
         case Some(p) => Changed(p)
         case None => GeneralError
  }

  class ProcessStateNotifier<P(0)> {
    const ringBuffer: RingBuffer<P>
    const payload: nat

    constructor (capacity: nat, payload: nat)
      requires capacity > 0
      ensures this.payload == payload && ringBuffer.capacity == capacity
      ensures ringBuffer.Valid() && ringBuffer.Model() == Fifo([], false)
    {
      this.payload := payload;
      ringBuffer := new RingBuffer<P>(capacity);
    }

    method QueuePosixProcess(process: P) returns (queued: bool)
      requires ringBuffer.Valid()
      modifies ringBuffer, ringBuffer.nodes
      ensures ringBuffer.Valid()
      ensures queued == (|old(ringBuffer.Model()).items| < ringBuffer.capacity)
      ensures ringBuffer.Model() == Enqueued(old(ringBuffer.Model()), ringBuffer.capacity, Item(payload, process))
    {
      queued := ringBuffer.TryEnqueue(process, payload);
    }
  }

  class ProcessStateReceiver<P(0)> {
    const ringBuffer: RingBuffer<P>
    const payload: nat

    constructor (ringBuffer: RingBuffer<P>, payload: nat)
      ensures this.ringBuffer == ringBuffer && this.payload == payload
    {
      this.ringBuffer, this.payload := ringBuffer, payload;
    }

    method GetNextChangedPosixProcess() returns (outcome: Outcome<P>)
      requires ringBuffer.Valid()
      modifies ringBuffer
      ensures ringBuffer.Valid()
      ensures outcome == Received(old(ringBuffer.Model()), payload)
      ensures ringBuffer.Model() ==
              if outcome.Changed? then Popped(old(ringBuffer.Model())) else old(ringBuffer.Model())
    {
      var overflow := ringBuffer.GetOverflowFlag(false);
      if overflow {
        return CommunicationError;
      }
      if ringBuffer.Empty() {
        return Nothing;
      }
      var changed := ringBuffer.TryDequeue(payload);
      match changed
      case Some(p) => return Changed(p);
      case None => return GeneralError;
    }
  }

  // ---- Both sides at once ----

  /** A receive looks at the flag, then at the size, then takes the front, and notifications come in between. */
  datatype Phase = Away | FlagClear | NotEmpty

  /** `notified` is every notification, refused ones included, and `gap` the number of the first refused one;
      `received` and `outcomes` are what the receiver got. */
  datatype System<P> = System(buffer: Fifo<P>, phase: Phase, notified: seq<P>, gap: nat,
                              received: seq<P>, outcomes: seq<Outcome<P>>)

  datatype Step<P> = Notify(process: P) | CheckFlag | CheckEmpty | Take

  ghost predicate Enabled<P>(s: System<P>, step: Step<P>) {
    match step
    case Notify(_) => true
    case CheckFlag => s.phase == Away
    case CheckEmpty => s.phase == FlagClear
    case Take => s.phase == NotEmpty
  }

  function Returned<P>(s: System<P>, outcome: Outcome<P>): System<P> {
    s.(phase := Away, outcomes := s.outcomes + [outcome])
  }

  function Apply<P>(s: System<P>, step: Step<P>, capacity: nat, payload: nat): System<P> {
    match step
    case Notify(p) =>
      s.(buffer := Enqueued(s.buffer, capacity, Item(payload, p)), notified := s.notified + [p],
         gap := if s.buffer.overflow || |s.buffer.items| < capacity then s.gap else |s.notified|)
    case CheckFlag => if s.buffer.overflow then Returned(s, CommunicationError) else s.(phase := FlagClear)
    case CheckEmpty => if s.buffer.items == [] then Returned(s, Nothing) else s.(phase := NotEmpty)
    case Take =>
      match Front(s.buffer, payload)
      case Some(p) => Returned(s.(buffer := Popped(s.buffer), received := s.received + [p]), Changed(p))
      case None => Returned(s, GeneralError)
  }

  ghost predicate IsRun<P>(run: seq<System<P>>, steps: seq<Step<P>>, capacity: nat, payload: nat) {
    && |run| == |steps| + 1
    && run[0] == System(Fifo([], false), Away, [], 0, [], [])
    && forall t :: 0 <= t < |steps| ==>
         Enabled(run[t], steps[t]) && run[t + 1] == Apply(run[t], steps[t], capacity, payload)
  }

  /** How many notifications came before the first that was refused. */
  ghost function Unbroken<P>(s: System<P>): nat {
    if s.buffer.overflow then s.gap else |s.notified|
  }

  ghost predicate Inv<P>(s: System<P>, capacity: nat, payload: nat) {
    var done, g := |s.received|, Unbroken(s);
    && done <= g <= |s.notified| && g - done <= |s.buffer.items| <= capacity
    && (!s.buffer.overflow ==> |s.buffer.items| == g - done)
    && (s.buffer.overflow && s.phase != Away ==> done < g)
    && (s.phase == NotEmpty ==> s.buffer.items != [])
    && (forall k :: 0 <= k < done ==> s.received[k] == s.notified[k])
    && (forall k :: 0 <= k < |s.buffer.items| ==> s.buffer.items[k].size == payload)
    && (forall k :: 0 <= k < g - done ==> s.buffer.items[k].value == s.notified[done + k])
    && (forall k :: 0 <= k < |s.outcomes| ==> s.outcomes[k] != GeneralError)
  }

  lemma StepInv<P>(s: System<P>, step: Step<P>, capacity: nat, payload: nat)
    requires Inv(s, capacity, payload) && Enabled(s, step) && capacity > 0
    ensures Inv(Apply(s, step, capacity, payload), capacity, payload)
  {
    match step {
      case Notify(p) => NotifyInv(s, p, capacity, payload);
      case Take => TakeInv(s, capacity, payload);
      case _ =>
    }
  }

  lemma NotifyInv<P>(s: System<P>, p: P, capacity: nat, payload: nat)
    requires Inv(s, capacity, payload) && capacity > 0
    ensures Inv(Apply(s, Notify(p), capacity, payload), capacity, payload)
  {
  }

  lemma TakeInv<P>(s: System<P>, capacity: nat, payload: nat)
    requires Inv(s, capacity, payload) && s.phase == NotEmpty
    ensures Inv(Apply(s, Take, capacity, payload), capacity, payload)
  {
  }

  lemma {:induction false} RunKeepsInv<P>(run: seq<System<P>>, steps: seq<Step<P>>,
                                          capacity: nat, payload: nat, t: nat)
    requires capacity > 0 && IsRun(run, steps, capacity, payload) && t < |run|
    ensures Inv(run[t], capacity, payload)
  {
    if t > 0 {
      RunKeepsInv(run, steps, capacity, payload, t - 1);
      StepInv(run[t - 1], steps[t - 1], capacity, payload);
    }
  }

  /** In every interleaving the receiver has got the first of all notifications, in order and without a gap;
      as long as none was refused, the rest is in the buffer; and no receive fails otherwise. */
  lemma NoSilentGap<P>(run: seq<System<P>>, steps: seq<Step<P>>, capacity: nat, payload: nat, t: nat)
    requires capacity > 0 && IsRun(run, steps, capacity, payload) && t < |run|
    ensures run[t].received <= run[t].notified
    ensures !run[t].buffer.overflow ==> |run[t].received| + |run[t].buffer.items| == |run[t].notified|
    ensures GeneralError !in run[t].outcomes
  {
    RunKeepsInv(run, steps, capacity, payload, t);
  }

  lemma {:induction false} OverflowStays<P>(run: seq<System<P>>, steps: seq<Step<P>>,
                                            capacity: nat, payload: nat, t: nat, u: nat)
    requires IsRun(run, steps, capacity, payload) && t <= u < |run| && run[t].buffer.overflow
    ensures run[u].buffer.overflow
  {
    if t < u {
      OverflowStays(run, steps, capacity, payload, t, u - 1);
    }
  }

  /** After a refused notification every receive that begins returns a communication error. */
  lemma RefusalIsReported<P>(run: seq<System<P>>, steps: seq<Step<P>>, capacity: nat, payload: nat, t: nat, u: nat)
    requires IsRun(run, steps, capacity, payload) && t < u < |steps|
    requires steps[t].Notify? && |run[t].buffer.items| >= capacity
    requires steps[u].CheckFlag?
    ensures run[u + 1].outcomes == run[u].outcomes + [CommunicationError] && run[u + 1].phase == Away
  {
    OverflowStays(run, steps, capacity, payload, t + 1, u);
  }

  /** Some notification among the first `t` steps found the buffer full. */
  ghost predicate SomeRefused<P>(run: seq<System<P>>, steps: seq<Step<P>>, capacity: nat, t: nat)
    requires |run| == |steps| + 1 && t <= |steps|
  {
    exists u :: 0 <= u < t && steps[u].Notify? && |run[u].buffer.items| >= capacity
  }

  lemma {:induction false} FlagMeansRefused<P>(run: seq<System<P>>, steps: seq<Step<P>>, capacity: nat, payload: nat, t: nat)
    requires IsRun(run, steps, capacity, payload) && t < |run|
    ensures run[t].buffer.overflow <==> SomeRefused(run, steps, capacity, t)
  {
    if t > 0 {
      FlagMeansRefused(run, steps, capacity, payload, t - 1);
      assert SomeRefused(run, steps, capacity, t) <==>
             SomeRefused(run, steps, capacity, t - 1)
             || (steps[t - 1].Notify? && |run[t - 1].buffer.items| >= capacity);
    }
  }

  /** What each step of a receive returns, in every interleaving. The look at the flag ends it exactly when a
      notification has been refused; the look at the size ends it, with nothing, exactly when the buffer is empty, and
      then everything has been received unless a notification has been refused; and the last step always returns the
      next notification. */
  lemma ReceiveReturns<P>(run: seq<System<P>>, steps: seq<Step<P>>, capacity: nat, payload: nat, t: nat)
    requires capacity > 0 && IsRun(run, steps, capacity, payload) && t < |steps| && !steps[t].Notify?
    ensures var s, s1 := run[t], run[t + 1];
            && s1.notified == s.notified
            && (steps[t].CheckFlag? ==>
                  s1 == if SomeRefused(run, steps, capacity, t) then Returned(s, CommunicationError) else s.(phase := FlagClear))
            && (steps[t].CheckEmpty? ==>
                  && s1 == (if s.buffer.items == [] then Returned(s, Nothing) else s.(phase := NotEmpty))
                  && (s.buffer.items == [] && !SomeRefused(run, steps, capacity, t) ==> s.received == s.notified))
            && (steps[t].Take? ==>
                  && |s.received| < |s.notified| && s1.received == s.received + [s.notified[|s.received|]]
                  && s1.outcomes == s.outcomes + [Changed(s.notified[|s.received|])] && s1.phase == Away
                  && |s.buffer.items| > 0 && s1.buffer == s.buffer.(items := s.buffer.items[1..]))
  {
    FlagMeansRefused(run, steps, capacity, payload, t);
    RunKeepsInv(run, steps, capacity, payload, t);
    assert Enabled(run[t], steps[t]);
  }

  /** The steps of a receive with nothing in between. */
  function WholeReceive<P>(s: System<P>, capacity: nat, payload: nat): System<P> {
    var s1 := Apply(s, CheckFlag, capacity, payload);
    if s1.phase == Away then s1
    else
      var s2 := Apply(s1, CheckEmpty, capacity, payload);
      if s2.phase == Away then s2 else Apply(s2, Take, capacity, payload)
  }

  /** They do what the receiver's call is proved to do. */
  lemma UndisturbedReceive<P>(s: System<P>, capacity: nat, payload: nat)
    requires s.phase == Away
    ensures var s1, outcome := WholeReceive(s, capacity, payload), Received(s.buffer, payload);
            && s1.phase == Away && s1.outcomes == s.outcomes + [outcome]
            && s1.buffer == (if outcome.Changed? then Popped(s.buffer) else s.buffer)
            && s1.received == s.received + (if outcome.Changed? then [outcome.process] else [])
  {
  }
}
