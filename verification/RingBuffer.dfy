/** The bounded ring buffer that carries messages between the daemon's components. Each operation runs under the buffer's
    lock. A node remembers the size of the value in it, and a value is only handed out as a type of that size. */
module RingBuffer {
  import opened Wrappers

  datatype Item<T> = Item(size: nat, value: T)

  /** What the buffer stands for: a queue, and a flag that says that a value was once refused. */
  datatype Fifo<T> = Fifo(items: seq<Item<T>>, overflow: bool)

  function Enqueued<T>(f: Fifo<T>, capacity: nat, item: Item<T>): Fifo<T> {
    if |f.items| < capacity then f.(items := f.items + [item]) else f.(overflow := true)
  }

  /** The value at the front, if it has the size asked for. */
  function Front<T>(f: Fifo<T>, size: nat): Option<T> {
    if f.items != [] && f.items[0].size == size then Some(f.items[0].value) else None
  }

  function Popped<T>(f: Fifo<T>): Fifo<T> {
    if f.items != [] then f.(items := f.items[1..]) else f
  }

  function Dequeued<T>(f: Fifo<T>, size: nat): Fifo<T> {
    if Front(f, size).Some? then Popped(f) else f
  }

  // ---- Every sequence of operations ----

  datatype Operation<T> = Enqueue(item: Item<T>) | Dequeue(size: nat) | Pop | ReadFlag(reset: bool)

  function Done<T>(f: Fifo<T>, capacity: nat, op: Operation<T>): Fifo<T> {
    match op
    case Enqueue(item) => Enqueued(f, capacity, item)
    case Dequeue(size) => Dequeued(f, size)
    case Pop => Popped(f)
    case ReadFlag(reset) => if reset then f.(overflow := false) else f
  }

  function DoneAll<T>(capacity: nat, ops: seq<Operation<T>>): Fifo<T> {
    if ops == [] then Fifo([], false) else Done(DoneAll(capacity, ops[..|ops| - 1]), capacity, ops[|ops| - 1])
  }

  /** A log from which nothing is ever removed: all values ever accepted, how many of them have been taken, and whether
      a value has been refused since the flag was last reset. */
  datatype Log<T> = Log(accepted: seq<Item<T>>, taken: nat, refused: bool)

  ghost function Logged<T>(capacity: nat, ops: seq<Operation<T>>): Log<T> {
    if ops == [] then Log([], 0, false) else LoggedNext(Logged(capacity, ops[..|ops| - 1]), capacity, ops[|ops| - 1])
  }

  ghost function LoggedNext<T>(log: Log<T>, capacity: nat, op: Operation<T>): Log<T> {
    match op
    case Enqueue(item) =>
      if |log.accepted| == log.taken + capacity then log.(refused := true) else log.(accepted := log.accepted + [item])
    case Dequeue(size) =>
      if log.taken < |log.accepted| && log.accepted[log.taken].size == size then log.(taken := log.taken + 1) else log
    case Pop => if log.taken < |log.accepted| then log.(taken := log.taken + 1) else log
    case ReadFlag(reset) => if reset then log.(refused := false) else log
  }

  /** The buffer holds what the log says has not been taken. */
  ghost predicate Holds<T>(f: Fifo<T>, log: Log<T>, capacity: nat) {
    log.taken <= |log.accepted| <= log.taken + capacity && f == Fifo(log.accepted[log.taken..], log.refused)
  }

  lemma HoldsNext<T>(f: Fifo<T>, log: Log<T>, capacity: nat, op: Operation<T>)
    requires Holds(f, log, capacity)
    ensures Holds(Done(f, capacity, op), LoggedNext(log, capacity, op), capacity)
  {
  }

  /** After any operations the buffer holds the accepted values that have not been taken, in order and never more than
      its capacity, and the flag says whether a value has been refused. */
  lemma {:induction false} BufferAgreesWithLog<T>(capacity: nat, ops: seq<Operation<T>>)
    ensures var f, log := DoneAll(capacity, ops), Logged(capacity, ops);
            log.taken <= |log.accepted| <= log.taken + capacity && f == Fifo(log.accepted[log.taken..], log.refused)
    decreases |ops|
  {
    if ops != [] {
      var before := ops[..|ops| - 1];
      BufferAgreesWithLog(capacity, before);
      assert Holds(DoneAll(capacity, before), Logged(capacity, before), capacity);
      HoldsNext(DoneAll(capacity, before), Logged(capacity, before), capacity, ops[|ops| - 1]);
      hide Done, LoggedNext;
    }
  }

  /** What a value of the front is handed out for: exactly for the size it was accepted with. */
  lemma FrontAgreesWithLog<T>(capacity: nat, ops: seq<Operation<T>>, size: nat)
    ensures var f, log := DoneAll(capacity, ops), Logged(capacity, ops);
            Front(f, size) == if log.taken < |log.accepted| && log.accepted[log.taken].size == size
                              then Some(log.accepted[log.taken].value) else None
  {
    BufferAgreesWithLog(capacity, ops);
  }

  // ---- The circular array ----

  /** The `n` elements of `s` from `head` on, going round. */
  ghost function Window<X>(s: seq<X>, head: nat, n: nat): (w: seq<X>)
    requires head < |s| && n <= |s|
    ensures |w| == n
  {
    if head + n <= |s| then s[head..head + n] else s[head..] + s[..head + n - |s|]
  }

  function Wrapped(i: nat, capacity: nat): nat {
    if i < capacity then i else i - capacity
  }

  lemma Successor(i: nat, capacity: nat)
    requires i < capacity
    ensures (i + 1) % capacity == Wrapped(i + 1, capacity)
  {
    if i + 1 == capacity {
      assert (i + 1) % capacity == 0;
    }
  }

  lemma WindowGrows<X>(s: seq<X>, head: nat, n: nat, x: X)
    requires head < |s| && n < |s|
    ensures Window(s[Wrapped(head + n, |s|) := x], head, n + 1) == Window(s, head, n) + [x]
  {
  }

  lemma WindowShrinks<X>(s: seq<X>, head: nat, n: nat)
    requires head < |s| && 0 < n <= |s|
    ensures Window(s, head, n)[0] == s[head]
    ensures Window(s, head, n)[1..] == Window(s, Wrapped(head + 1, |s|), n - 1)
  {
  }

  class RingBuffer<T(0)> {
    const capacity: nat
    const nodes: array<Item<T>>
    var writeHead: nat
    var readHead: nat
    var size: nat
    var overflowFlag: bool

    ghost predicate Valid()
      reads this
    {
      && capacity > 0 && nodes.Length == capacity
      && readHead < capacity && size <= capacity && writeHead == Wrapped(readHead + size, capacity)
    }

    ghost function Model(): Fifo<T>
      requires Valid()
      reads this, nodes
    {
      Fifo(Window(nodes[..], readHead, size), overflowFlag)
    }

    constructor (capacity: nat)
      requires capacity > 0
      ensures Valid() && this.capacity == capacity && Model() == Fifo([], false)
      ensures fresh(nodes)
    {
      this.capacity := capacity;
      nodes := new Item<T>[capacity];
      writeHead, readHead, size, overflowFlag := 0, 0, 0, false;
    }

    method TryEnqueue(value: T, valueSize: nat) returns (accepted: bool)
      requires Valid()
      modifies this, nodes
      ensures Valid()
      ensures accepted == (|old(Model()).items| < capacity)
      ensures Model() == Enqueued(old(Model()), capacity, Item(valueSize, value))
    {
      if Full() {
        overflowFlag := true;
        return false;
      }
      WindowGrows(nodes[..], readHead, size, Item(valueSize, value));
      nodes[writeHead] := Item(valueSize, value);
      AdvanceWriteHead();
      return true;
    }

    method TryDequeue(valueSize: nat) returns (value: Option<T>)
      requires Valid()
      modifies this
      ensures Valid()
      ensures value == Front(old(Model()), valueSize) && Model() == Dequeued(old(Model()), valueSize)
    {
      ghost var front := FrontIsReadHead();
      if Empty() || nodes[readHead].size != valueSize {
        return None;
      }
      value := Some(nodes[readHead].value);
      AdvanceReadHead();
    }

    method TryPop() returns (popped: bool)
      requires Valid()
      modifies this
      ensures Valid()
      ensures popped == (old(Model()).items != []) && Model() == Popped(old(Model()))
    {
      if Empty() {
        return false;
      }
      AdvanceReadHead();
      return true;
    }

    method TryPeek(valueSize: nat) returns (value: Option<T>)
      requires Valid()
      ensures value == Front(Model(), valueSize)
    {
      ghost var front := FrontIsReadHead();
      if Empty() || nodes[readHead].size != valueSize {
        return None;
      }
      return Some(nodes[readHead].value);
    }

    method GetOverflowFlag(reset: bool) returns (overflow: bool)
      requires Valid()
      modifies this`overflowFlag
      ensures Valid() && overflow == old(Model()).overflow
      ensures Model() == if reset then old(Model()).(overflow := false) else old(Model())
    {
      overflow := overflowFlag;
      if reset {
        overflowFlag := false;
      }
    }

    lemma FrontIsReadHead() returns (items: seq<Item<T>>)
      requires Valid()
      ensures items == Model().items && (items != [] ==> items[0] == nodes[readHead])
    {
      items := Model().items;
      if size > 0 {
        WindowShrinks(nodes[..], readHead, size);
      }
    }

    predicate Empty()
      requires Valid()
      reads this, nodes
      ensures Empty() <==> Model().items == []
    {
      size == 0
    }

    predicate Full()
      requires Valid()
      reads this, nodes
      ensures Full() <==> |Model().items| == capacity
    {
      size == capacity
    }

    method AdvanceWriteHead()
      requires Valid() && size < capacity
      modifies this`writeHead, this`size
      ensures Valid() && size == old(size) + 1
    {
      Successor(writeHead, capacity);
      writeHead := (writeHead + 1) % capacity;
      size := size + 1;
    }

    method AdvanceReadHead()
      requires Valid() && size > 0
      modifies this`readHead, this`size
      ensures Valid() && Model() == Popped(old(Model()))
    {
      Successor(readHead, capacity);
      WindowShrinks(nodes[..], readHead, size);
      readHead := (readHead + 1) % capacity;
      size := size - 1;
    }
  }
}
