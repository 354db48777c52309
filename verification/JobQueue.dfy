/** The queue between the graphs and the worker threads: two semaphores, two running 32-bit indexes and an array of slots.
    Each call is split into its wait, index, slot and post steps, which interleave freely. */
module JobQueue {
  import opened Division

  const INDEXES: nat := 0x1_0000_0000

  /** Where a thread that adds a job is, and where one that takes a job is. */
  datatype Producer = Away | HasSpace(job: nat) | HasInIndex(job: nat, index: nat) | Stored
  datatype Consumer = Idle | HasItem | HasOutIndex(index: nat) | Taken

  datatype Slot = Empty | Full(job: nat)

  /** The queue and the threads that use it. `jobs` and `taken` are history: the jobs in the order in which they
      got their index, and what was taken, in order. */
  datatype Queue = Queue(items: nat, spaces: nat, inIndex: nat, outIndex: nat, slots: seq<Slot>,
                         producers: seq<Producer>, consumers: seq<Consumer>, jobs: seq<nat>, taken: seq<Slot>)

  function Initial(capacity: nat, producers: nat, consumers: nat): Queue {
    Queue(0, capacity, 0, 0, seq(capacity, i => Empty),
          seq(producers, i => Away), seq(consumers, i => Idle), [], [])
  }

  datatype Step =
    | WaitForSpace(p: nat, job: nat) | TakeInIndex(p: nat) | StoreJob(p: nat) | PostItem(p: nat)
    | WaitForItem(c: nat) | TakeOutIndex(c: nat) | LoadJob(c: nat) | PostSpace(c: nat)

  /** A wait that times out changes nothing and is no step. */
  ghost predicate Enabled(q: Queue, s: Step) {
    match s
    case WaitForSpace(p, _) => p < |q.producers| && q.producers[p].Away? && q.spaces > 0
    case TakeInIndex(p) => p < |q.producers| && q.producers[p].HasSpace?
    case StoreJob(p) => p < |q.producers| && q.producers[p].HasInIndex? && q.slots != []
    case PostItem(p) => p < |q.producers| && q.producers[p].Stored?
    case WaitForItem(c) => c < |q.consumers| && q.consumers[c].Idle? && q.items > 0
    case TakeOutIndex(c) => c < |q.consumers| && q.consumers[c].HasItem?
    case LoadJob(c) => c < |q.consumers| && q.consumers[c].HasOutIndex? && q.slots != []
    case PostSpace(c) => c < |q.consumers| && q.consumers[c].Taken?
  }

  function Apply(q: Queue, s: Step): Queue
    requires Enabled(q, s)
  {
    match s
    case WaitForSpace(p, job) => q.(spaces := q.spaces - 1, producers := q.producers[p := HasSpace(job)])
    case TakeInIndex(p) =>
      var job := q.producers[p].job;
      q.(inIndex := (q.inIndex + 1) % INDEXES, jobs := q.jobs + [job],
         producers := q.producers[p := HasInIndex(job, q.inIndex)])
    case StoreJob(p) =>
      q.(slots := q.slots[q.producers[p].index % |q.slots| := Full(q.producers[p].job)],
         producers := q.producers[p := Stored])
    case PostItem(p) => q.(items := q.items + 1, producers := q.producers[p := Away])
    case WaitForItem(c) => q.(items := q.items - 1, consumers := q.consumers[c := HasItem])
    case TakeOutIndex(c) =>
      q.(outIndex := (q.outIndex + 1) % INDEXES, consumers := q.consumers[c := HasOutIndex(q.outIndex)])
    case LoadJob(c) =>
      q.(taken := q.taken + [q.slots[q.consumers[c].index % |q.slots|]], consumers := q.consumers[c := Taken])
    case PostSpace(c) => q.(spaces := q.spaces + 1, consumers := q.consumers[c := Idle])
  }

  ghost predicate IsRun(run: seq<Queue>, steps: seq<Step>) {
    && |run| == |steps| + 1
    && forall t :: 0 <= t < |steps| ==> Enabled(run[t], steps[t]) && run[t + 1] == Apply(run[t], steps[t])
  }

  // ---- Indexes ----

  /** The slot of the job with number `k`, counting from the first ever added. */
  function SlotOf(capacity: nat, k: nat): (s: nat)
    requires capacity > 0
    ensures s < capacity
  {
    k % INDEXES % capacity
  }

  /** Jobs that can be in the queue together have different slots. */
  ghost predicate SlotsDiffer(capacity: nat, limit: nat)
    requires capacity > 0
  {
    forall j: nat, k: nat :: j < k < j + capacity && k < limit ==> SlotOf(capacity, j) != SlotOf(capacity, k)
  }

  /** The running indexes do not wrap around, or the wrap-around is not noticed. */
  ghost predicate Indexable(capacity: nat, jobs: nat)
    requires capacity > 0
  {
    jobs <= INDEXES || INDEXES % capacity == 0
  }

  lemma ModDiffers(j: nat, k: nat, n: nat)
    requires n > 0 && j < k < j + n
    ensures j % n != k % n
  {
    var q, r := j / n, j % n;
    if r + (k - j) < n {
      ModUnique(k, q, r + (k - j), n);
    } else {
      assert (q + 1) * n == q * n + n;
      ModUnique(k, q + 1, r + (k - j) - n, n);
    }
  }

  lemma ModMod(k: nat, m: nat, n: nat)
    requires m > 0 && n > 0 && m % n == 0
    ensures k % m % n == k % n
  {
    var q, r := m / n, k / m;
    assert k == (r * q) * n + k % m;
    AddMultiple(k % m, r * q, n);
  }

  lemma AddMultiple(x: nat, q: nat, n: nat)
    requires n > 0
    ensures (q * n + x) % n == x % n
  {
    assert (q + x / n) * n == q * n + x / n * n;
    ModUnique(q * n + x, q + x / n, x % n, n);
  }

  /** Slots stay apart until the indexes wrap around, and after that too if the capacity divides their number. */
  lemma SlotsDifferWhenIndexable(capacity: nat, jobs: nat)
    requires 0 < capacity && Indexable(capacity, jobs)
    ensures SlotsDiffer(capacity, jobs)
  {
    forall j: nat, k: nat | j < k < j + capacity && k < jobs
      ensures SlotOf(capacity, j) != SlotOf(capacity, k)
    {
      if jobs > INDEXES {
        ModMod(j, INDEXES, capacity);
        ModMod(k, INDEXES, capacity);
      }
      ModDiffers(j, k, capacity);
    }
  }

  // ---- One producer and one consumer ----

  function One(b: bool): nat { if b then 1 else 0 }

  /** How many jobs have been stored, how many items posted, and how many out indexes given out. */
  ghost function StoredCount(q: Queue): int
    requires |q.producers| == 1
  {
    |q.jobs| - One(q.producers[0].HasInIndex?)
  }

  ghost function PostedCount(q: Queue): int
    requires |q.producers| == 1
  {
    StoredCount(q) - One(q.producers[0].Stored?)
  }

  ghost function OutCount(q: Queue): nat
    requires |q.consumers| == 1
  {
    |q.taken| + One(q.consumers[0].HasOutIndex?)
  }

  ghost predicate ThreadsOk(q: Queue) {
    && |q.producers| == 1 && |q.consumers| == 1
    && q.inIndex == |q.jobs| % INDEXES && q.outIndex == OutCount(q) % INDEXES
    && (q.producers[0].HasInIndex? ==>
          q.jobs != [] && q.producers[0] == HasInIndex(q.jobs[|q.jobs| - 1], (|q.jobs| - 1) % INDEXES))
    && (q.consumers[0].HasOutIndex? ==> q.consumers[0].index == |q.taken| % INDEXES)
  }

  /** The semaphores count exactly the slots that may be filled and those that may be read. */
  ghost predicate SemaphoresOk(q: Queue)
    requires |q.producers| == 1 && |q.consumers| == 1
  {
    && q.items == PostedCount(q) - OutCount(q) - One(q.consumers[0].HasItem?)
    && q.spaces + |q.jobs| + One(q.producers[0].HasSpace?) == |q.slots| + |q.taken| - One(q.consumers[0].Taken?)
  }

  ghost predicate ContentsOk(q: Queue)
    requires |q.producers| == 1 && q.slots != []
  {
    && |q.taken| <= StoredCount(q)
    && (forall k :: 0 <= k < |q.taken| ==> q.taken[k] == Full(q.jobs[k]))
    && forall k: nat :: |q.taken| <= k < StoredCount(q) ==> q.slots[SlotOf(|q.slots|, k)] == Full(q.jobs[k])
  }

  ghost predicate Inv(q: Queue) {
    q.slots != [] && ThreadsOk(q) && SemaphoresOk(q) && ContentsOk(q)
  }

  lemma NextIndex(k: nat)
    ensures (k % INDEXES + 1) % INDEXES == (k + 1) % INDEXES
  {
  }

  lemma StepThreads(q: Queue, s: Step)
    requires Inv(q) && Enabled(q, s)
    ensures ThreadsOk(Apply(q, s)) && SemaphoresOk(Apply(q, s))
  {
    assert ThreadsOk(q) && SemaphoresOk(q) && |q.taken| <= StoredCount(q);
    hide Inv, ContentsOk;
    NextIndex(|q.jobs|);
    NextIndex(|q.taken|);
  }

  /** A job goes into a slot that holds no job still to be taken. */
  lemma StoresIntoFreeSlot(q: Queue)
    requires Inv(q) && Indexable(|q.slots|, |q.jobs|) && q.producers[0].HasInIndex?
    ensures forall k: nat :: |q.taken| <= k < StoredCount(q) ==>
              SlotOf(|q.slots|, k) != q.producers[0].index % |q.slots|
  {
    hide SlotOf;
    var capacity, last := |q.slots|, |q.jobs| - 1;
    SlotsDifferWhenIndexable(capacity, |q.jobs|);
    assert q.producers[0].index % capacity == SlotOf(capacity, last) by { InSlotOf(capacity, last); }
    forall k: nat | |q.taken| <= k < StoredCount(q) ensures SlotOf(capacity, k) != SlotOf(capacity, last) {
      assert k < last < k + capacity;
    }
  }

  lemma InSlotOf(capacity: nat, k: nat)
    requires capacity > 0
    ensures k % INDEXES % capacity == SlotOf(capacity, k)
  {
  }

  lemma StepContents(q: Queue, s: Step)
    requires Inv(q) && Enabled(q, s) && Indexable(|q.slots|, |q.jobs|)
    ensures ContentsOk(Apply(q, s))
  {
    hide Indexable;
    if s.StoreJob? {
      StoresIntoFreeSlot(q);
    }
  }

  lemma {:induction false} RunKeepsInv(capacity: nat, run: seq<Queue>, steps: seq<Step>, t: nat)
    requires 0 < capacity && IsRun(run, steps) && run[0] == Initial(capacity, 1, 1) && t < |run|
    requires Indexable(capacity, |run[t].jobs|)
    ensures Inv(run[t]) && |run[t].slots| == capacity
  {
    if t > 0 {
      assert |run[t - 1].jobs| <= |run[t].jobs|;
      RunKeepsInv(capacity, run, steps, t - 1);
      StepThreads(run[t - 1], steps[t - 1]);
      StepContents(run[t - 1], steps[t - 1]);
    }
  }

  /** With one producer and one consumer, in every interleaving, what has been taken are the first of the added jobs, in
      order, each once; never more than the capacity are waiting; and when both threads are back and no item
      is left, every job has been taken. */
  lemma TakenInOrder(capacity: nat, run: seq<Queue>, steps: seq<Step>, t: nat)
    requires 0 < capacity && IsRun(run, steps) && run[0] == Initial(capacity, 1, 1) && t < |run|
    requires Indexable(capacity, |run[t].jobs|)
    ensures |run[t].taken| <= |run[t].jobs| <= |run[t].taken| + capacity
    ensures forall k :: 0 <= k < |run[t].taken| ==> run[t].taken[k] == Full(run[t].jobs[k])
    ensures |run[t].producers| == |run[t].consumers| == 1
    ensures run[t].producers[0].Away? && run[t].consumers[0].Idle? && run[t].items == 0 ==>
              |run[t].taken| == |run[t].jobs|
  {
    RunKeepsInv(capacity, run, steps, t);
  }

  /** In every interleaving, no job is stored over one that has not been taken. */
  lemma NothingOverwritten(capacity: nat, run: seq<Queue>, steps: seq<Step>, t: nat, k: nat)
    requires 0 < capacity && IsRun(run, steps) && run[0] == Initial(capacity, 1, 1) && t < |steps|
    requires Indexable(capacity, |run[t].jobs|) && steps[t].StoreJob?
    requires |run[t].taken| <= k < |run[t].jobs| - 1
    ensures var s := SlotOf(capacity, k);
            s < |run[t].slots| == |run[t + 1].slots| && run[t].slots[s] == run[t + 1].slots[s] == Full(run[t].jobs[k])
  {
    RunKeepsInv(capacity, run, steps, t);
    StoresIntoFreeSlot(run[t]);
  }
}
