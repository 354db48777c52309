/** Exactly when the job queue keeps its jobs: for which capacities, and for how many threads that add and that take. */
module JobOrder {
  import opened Division
  import opened JobQueue

  /** What was taken are the first of the added jobs, in order, each once. */
  ghost predicate InOrder(q: Queue) {
    |q.taken| <= |q.jobs| && forall k :: 0 <= k < |q.taken| ==> q.taken[k] == Full(q.jobs[k])
  }

  /** Every thread is back, no item is left, and yet some job was never taken. */
  ghost predicate Lost(q: Queue) {
    AllBack(q) && q.items == 0 && exists k :: 0 <= k < |q.jobs| && Full(q.jobs[k]) !in q.taken
  }

  ghost predicate AllBack(q: Queue) {
    (forall p :: 0 <= p < |q.producers| ==> q.producers[p].Away?) && forall c :: 0 <= c < |q.consumers| ==> q.consumers[c].Idle?
  }

  /** Some interleaving leads from the first state to the second. */
  ghost predicate Reaches(q0: Queue, q: Queue) {
    exists run, steps :: IsRun(run, steps) && run[0] == q0 && run[|steps|] == q
  }

  ghost predicate AlwaysInOrder(capacity: nat, producers: nat, consumers: nat) {
    forall q :: Reaches(Initial(capacity, producers, consumers), q) ==> InOrder(q)
  }

  ghost predicate NeverLoses(capacity: nat, producers: nat, consumers: nat) {
    forall q :: Reaches(Initial(capacity, producers, consumers), q) ==> !Lost(q)
  }

  // ---- One slot ----

  /** The only job that is neither taken nor still to be stored is in the only slot. */
  ghost predicate Waiting(q: Queue) {
    |q.slots| == 1 && |q.jobs| == |q.taken| + 1 && q.slots[0] == Full(q.jobs[|q.taken|])
  }

  ghost predicate ProducerOk(q: Queue, p: Producer) {
    match p
    case Away => true
    case HasSpace(_) => |q.slots| == 1 && |q.jobs| == |q.taken|
    case HasInIndex(job, _) => |q.slots| == 1 && |q.jobs| == |q.taken| + 1 && job == q.jobs[|q.taken|]
    case Stored => Waiting(q)
  }

  ghost predicate ConsumerOk(q: Queue, c: Consumer) {
    match c
    case Idle => true
    case HasItem => Waiting(q)
    case HasOutIndex(_) => Waiting(q)
    case Taken => |q.slots| == 1 && |q.jobs| == |q.taken|
  }

  /** With one slot, the semaphores and the threads share a single permit. */
  ghost predicate Exclusive(q: Queue) {
    && q.spaces + q.items <= 1
    && (q.spaces + q.items == 1 ==> AllBack(q))
    && (forall i, j :: 0 <= i < j < |q.producers| ==> q.producers[i].Away? || q.producers[j].Away?)
    && (forall i, j :: 0 <= i < j < |q.consumers| ==> q.consumers[i].Idle? || q.consumers[j].Idle?)
    && forall i, j :: 0 <= i < |q.producers| && 0 <= j < |q.consumers| ==> q.producers[i].Away? || q.consumers[j].Idle?
  }

  ghost predicate OneSlot(q: Queue) {
    && |q.slots| <= 1 && InOrder(q) && Exclusive(q)
    && (q.spaces > 0 ==> |q.slots| == 1 && |q.jobs| == |q.taken|)
    && (q.items > 0 ==> Waiting(q))
    && (forall p :: 0 <= p < |q.producers| ==> ProducerOk(q, q.producers[p]))
    && (forall c :: 0 <= c < |q.consumers| ==> ConsumerOk(q, q.consumers[c]))
    && (AllBack(q) && q.items == 0 ==> |q.jobs| == |q.taken|)
  }

  lemma OneSlotStep(q: Queue, s: Step)
    requires OneSlot(q) && Enabled(q, s)
    ensures OneSlot(Apply(q, s))
  {
    UnderWay(q, s);
  }

  /** Only the last step of a call brings its thread back. */
  lemma UnderWay(q: Queue, s: Step)
    requires Enabled(q, s)
    ensures s.PostItem? || s.PostSpace? || !AllBack(Apply(q, s))
  {
    var q1 := Apply(q, s);
    match s
    case WaitForSpace(p, _) => assert q1.producers[p].HasSpace?;
    case TakeInIndex(p) => assert q1.producers[p].HasInIndex?;
    case StoreJob(p) => assert q1.producers[p].Stored?;
    case PostItem(_) =>
    case WaitForItem(c) => assert q1.consumers[c].HasItem?;
    case TakeOutIndex(c) => assert q1.consumers[c].HasOutIndex?;
    case LoadJob(c) => assert q1.consumers[c].Taken?;
    case PostSpace(_) =>
  }

  // ---- No thread of a kind ----

  ghost predicate NobodyAdds(q: Queue) {
    q.producers == [] && q.items == 0 && q.taken == [] && q.jobs == [] && AllBack(q)
  }

  /** Without a consumer, a job that has its index stays under way or leaves an item. */
  ghost predicate NobodyTakes(q: Queue) {
    q.consumers == [] && q.taken == [] && (AllBack(q) && q.items == 0 ==> q.jobs == [])
  }

  // ---- Every run ----

  /** The cases in which the queue keeps its jobs. */
  ghost predicate Kept(capacity: nat, producers: nat, consumers: nat) {
    || capacity <= 1 || producers == 0 || consumers == 0
    || (producers == 1 && consumers == 1 && INDEXES % capacity == 0)
  }

  ghost predicate KeptInv(capacity: nat, producers: nat, consumers: nat, q: Queue) {
    if capacity <= 1 then OneSlot(q)
    else if producers == 0 then NobodyAdds(q)
    else if consumers == 0 then NobodyTakes(q)
    else Inv(q) && |q.slots| == capacity
  }

  lemma KeptStep(capacity: nat, producers: nat, consumers: nat, q: Queue, s: Step)
    requires Kept(capacity, producers, consumers) && KeptInv(capacity, producers, consumers, q) && Enabled(q, s)
    ensures KeptInv(capacity, producers, consumers, Apply(q, s))
  {
    if capacity <= 1 {
      OneSlotStep(q, s);
    } else if producers == 0 {
    } else if consumers == 0 {
      UnderWay(q, s);
    } else {
      hide Inv;
      StepThreads(q, s);
      StepContents(q, s);
      InvAgain(q, s);
    }
  }

  lemma InvAgain(q: Queue, s: Step)
    requires Inv(q) && Enabled(q, s)
    requires ThreadsOk(Apply(q, s)) && SemaphoresOk(Apply(q, s)) && ContentsOk(Apply(q, s))
    ensures Inv(Apply(q, s)) && |Apply(q, s).slots| == |q.slots|
  {
  }

  lemma KeptInitially(capacity: nat, producers: nat, consumers: nat)
    requires Kept(capacity, producers, consumers)
    ensures KeptInv(capacity, producers, consumers, Initial(capacity, producers, consumers))
  {
  }

  lemma {:induction false} KeptInRun(capacity: nat, producers: nat, consumers: nat, run: seq<Queue>, steps: seq<Step>, t: nat)
    requires Kept(capacity, producers, consumers)
    requires IsRun(run, steps) && run[0] == Initial(capacity, producers, consumers) && t < |run|
    ensures KeptInv(capacity, producers, consumers, run[t])
  {
    hide KeptInv, Kept;
    if t == 0 {
      KeptInitially(capacity, producers, consumers);
    } else {
      KeptInRun(capacity, producers, consumers, run, steps, t - 1);
      KeptStep(capacity, producers, consumers, run[t - 1], steps[t - 1]);
    }
  }

  lemma KeptMeansInOrder(capacity: nat, producers: nat, consumers: nat, q: Queue)
    requires Kept(capacity, producers, consumers) && KeptInv(capacity, producers, consumers, q)
    ensures InOrder(q) && !Lost(q)
  {
    if capacity > 1 && producers > 0 && consumers > 0 && AllBack(q) {
      assert q.producers[0].Away? && q.consumers[0].Idle?;
    }
    if AllBack(q) && q.items == 0 {
      assert |q.taken| == |q.jobs|;
      assert forall k :: 0 <= k < |q.jobs| ==> q.taken[k] == Full(q.jobs[k]);
    }
  }

  // ---- How a job is lost ----

  lemma OneMore(q0: Queue, q: Queue, s: Step)
    requires Reaches(q0, q) && Enabled(q, s)
    ensures Reaches(q0, Apply(q, s))
  {
    var run, steps :| IsRun(run, steps) && run[0] == q0 && run[|steps|] == q;
    var run1, steps1 := run + [Apply(q, s)], steps + [s];
    assert IsRun(run1, steps1) && run1[|steps1|] == Apply(q, s);
  }

  /** A whole call that adds a job, */
  function Added(q: Queue, job: nat): Queue
    requires q.spaces > 0 && q.slots != []
  {
    q.(spaces := q.spaces - 1, items := q.items + 1, inIndex := (q.inIndex + 1) % INDEXES,
       jobs := q.jobs + [job], slots := q.slots[q.inIndex % |q.slots| := Full(job)])
  }

  /** the first half of a call that takes one, */
  function Claimed(q: Queue, c: nat): Queue
    requires q.items > 0 && c < |q.consumers|
  {
    q.(items := q.items - 1, outIndex := (q.outIndex + 1) % INDEXES,
       consumers := q.consumers[c := HasOutIndex(q.outIndex)])
  }

  /** and its second half. */
  function Finished(q: Queue, c: nat): Queue
    requires c < |q.consumers| && q.consumers[c].HasOutIndex? && q.slots != []
  {
    q.(spaces := q.spaces + 1, taken := q.taken + [q.slots[q.consumers[c].index % |q.slots|]],
       consumers := q.consumers[c := Idle])
  }

  lemma Add(q0: Queue, q: Queue, p: nat, job: nat)
    requires Reaches(q0, q) && p < |q.producers| && q.producers[p].Away? && q.spaces > 0 && q.slots != []
    ensures Reaches(q0, Added(q, job))
  {
    hide Reaches;
    OneMore(q0, q, WaitForSpace(p, job));
    var q1 := Apply(q, WaitForSpace(p, job));
    OneMore(q0, q1, TakeInIndex(p));
    var q2 := Apply(q1, TakeInIndex(p));
    OneMore(q0, q2, StoreJob(p));
    var q3 := Apply(q2, StoreJob(p));
    OneMore(q0, q3, PostItem(p));
    var q4 := Apply(q3, PostItem(p));
    assert q4.producers == q.producers;
    assert q4 == Added(q, job);
  }

  lemma Claim(q0: Queue, q: Queue, c: nat)
    requires Reaches(q0, q) && c < |q.consumers| && q.consumers[c].Idle? && q.items > 0
    ensures Reaches(q0, Claimed(q, c))
  {
    hide Reaches;
    OneMore(q0, q, WaitForItem(c));
    var q1 := Apply(q, WaitForItem(c));
    OneMore(q0, q1, TakeOutIndex(c));
    assert Apply(q1, TakeOutIndex(c)).consumers == q.consumers[c := HasOutIndex(q.outIndex)];
  }

  lemma Finish(q0: Queue, q: Queue, c: nat)
    requires Reaches(q0, q) && c < |q.consumers| && q.consumers[c].HasOutIndex? && q.slots != []
    ensures Reaches(q0, Finished(q, c))
  {
    hide Reaches;
    OneMore(q0, q, LoadJob(c));
    var q1 := Apply(q, LoadJob(c));
    OneMore(q0, q1, PostSpace(c));
    assert Apply(q1, PostSpace(c)).consumers == q.consumers[c := Idle];
  }

  /** A whole call that takes a job. */
  function TookOne(q: Queue): Queue
    requires q.items > 0 && q.slots != []
  {
    q.(items := q.items - 1, spaces := q.spaces + 1, outIndex := (q.outIndex + 1) % INDEXES,
       taken := q.taken + [q.slots[q.outIndex % |q.slots|]])
  }

  lemma Take(q0: Queue, q: Queue, c: nat)
    requires Reaches(q0, q) && c < |q.consumers| && q.consumers[c].Idle? && q.items > 0 && q.slots != []
    ensures Reaches(q0, TookOne(q))
  {
    hide Reaches;
    Claim(q0, q, c);
    Finish(q0, Claimed(q, c), c);
    assert Finished(Claimed(q, c), c).consumers == q.consumers;
  }

  /** Of the slots only `x` can hold job zero, and it has not been taken. */
  ghost predicate OnlyAt(q: Queue, x: int) {
    Full(0) !in q.taken && forall y :: 0 <= y < |q.slots| && y != x ==> q.slots[y] != Full(0)
  }

  /** Nothing is under way, in a queue with room. */
  ghost predicate Ready(q: Queue, c: nat) {
    && q.producers != [] && q.producers[0].Away? && c < |q.consumers| && q.consumers[c].Idle?
    && q.spaces > 0 && q.slots != [] && q.items == 0 && q.inIndex == q.outIndex < INDEXES
  }

  /** A job with number one, added and taken at once. */
  lemma PassOn(q0: Queue, q: Queue, c: nat, x: int) returns (q1: Queue)
    requires Reaches(q0, q) && OnlyAt(q, x) && Ready(q, c)
    ensures Reaches(q0, q1) && OnlyAt(q1, x)
    ensures var i := (q.inIndex + 1) % INDEXES;
            q1 == q.(inIndex := i, outIndex := i, jobs := q1.jobs, taken := q1.taken, slots := q1.slots)
    ensures q.jobs <= q1.jobs && |q1.jobs| == |q.jobs| + 1 && |q1.taken| == |q.taken| + 1 && |q1.slots| == |q.slots|
  {
    hide Reaches;
    Add(q0, q, 0, 1);
    var q2 := Added(q, 1);
    Take(q0, q2, c);
    q1 := TookOne(q2);
  }

  lemma {:induction false} Pump(q0: Queue, q: Queue, c: nat, n: nat, x: int) returns (q1: Queue)
    requires Reaches(q0, q) && OnlyAt(q, x) && Ready(q, c)
    ensures Reaches(q0, q1) && OnlyAt(q1, x)
    ensures var i := (q.inIndex + n) % INDEXES;
            q1 == q.(inIndex := i, outIndex := i, jobs := q1.jobs, taken := q1.taken, slots := q1.slots)
    ensures q.jobs <= q1.jobs && |q1.jobs| == |q.jobs| + n && |q1.taken| == |q.taken| + n && |q1.slots| == |q.slots|
  {
    hide Reaches, OnlyAt;
    if n == 0 {
      q1 := q;
    } else {
      var q2 := Pump(q0, q, c, n - 1, x);
      NextIndex(q.inIndex + n - 1);
      q1 := PassOn(q0, q2, c, x);
    }
  }

  /** `n` jobs with number one, added from index zero on. */
  lemma {:induction false} Fill(q0: Queue, q: Queue, n: nat) returns (q1: Queue)
    requires Reaches(q0, q) && q.producers != [] && q.producers[0].Away?
    requires n <= q.spaces && n <= |q.slots| && q.inIndex == 0 && n <= INDEXES
    ensures Reaches(q0, q1) && q.jobs <= q1.jobs && |q1.slots| == |q.slots|
    ensures q1 == q.(spaces := q.spaces - n, items := q.items + n, inIndex := n % INDEXES, jobs := q1.jobs, slots := q1.slots)
    ensures Filled(q.slots, q1.slots, n)
  {
    hide Reaches, Filled;
    if n == 0 {
      q1 := q;
      FilledMore(q.slots, q1.slots, q1.slots, 0);
    } else {
      var q2 := Fill(q0, q, n - 1);
      assert q2.inIndex == n - 1;
      Add(q0, q2, 0, 1);
      q1 := Added(q2, 1);
      FilledMore(q.slots, q2.slots, q1.slots, n);
    }
  }

  ghost predicate Filled(before: seq<Slot>, after: seq<Slot>, n: nat) {
    |after| == |before| && forall y :: 0 <= y < |before| ==> after[y] == if y < n then Full(1) else before[y]
  }

  lemma FilledMore(before: seq<Slot>, between: seq<Slot>, after: seq<Slot>, n: nat)
    requires n <= |before|
    requires if n == 0 then after == before
             else Filled(before, between, n - 1) && after == between[(n - 1) % |between| := Full(1)]
    ensures Filled(before, after, n)
  {
  }

  /** `n` items are taken, none of which is job zero. */
  lemma {:induction false} Empties(q0: Queue, q: Queue, n: nat) returns (q1: Queue)
    requires Reaches(q0, q) && OnlyAt(q, -1)
    requires q.consumers != [] && q.consumers[0].Idle? && n <= q.items && q.slots != []
    ensures Reaches(q0, q1) && OnlyAt(q1, -1) && |q1.taken| == |q.taken| + n
    ensures q1 == q.(spaces := q.spaces + n, items := q.items - n, outIndex := q1.outIndex, taken := q1.taken)
  {
    hide Reaches;
    if n == 0 {
      q1 := q;
    } else {
      var q2 := Empties(q0, q, n - 1);
      Take(q0, q2, 0);
      q1 := TookOne(q2);
    }
  }

  /** A job put into a slot is the only one there. */
  lemma Overwrites(q: Queue, x: int, job: nat)
    requires q.spaces > 0 && q.slots != []
    requires if job == 0 then OnlyAt(q, -1) else q.inIndex % |q.slots| == x && OnlyAt(q, x)
    ensures OnlyAt(Added(q, job), if job == 0 then q.inIndex % |q.slots| else -1)
  {
  }

  lemma NeverTaken(q: Queue, k: nat)
    requires AllBack(q) && q.items == 0 && OnlyAt(q, -1)
    requires k < |q.jobs| && k < |q.taken| && q.jobs[k] == 0
    ensures Lost(q) && !InOrder(q)
  {
    assert Full(q.jobs[k]) !in q.taken;
    assert q.taken[k] in q.taken;
  }

  /** With two consumers and more than one slot, a slow consumer can find its job overwritten. */
  lemma TwoConsumersLoseAJob(capacity: nat, producers: nat, consumers: nat) returns (q: Queue)
    requires 2 <= capacity && producers >= 1 && consumers >= 2
    ensures Reaches(Initial(capacity, producers, consumers), q) && Lost(q) && !InOrder(q)
  {
    var q0 := Initial(capacity, producers, consumers);
    Starts(q0);
    assert OnlyAt(q0, -1);
    hide Reaches, Lost, InOrder, OnlyAt;
    Add(q0, q0, 0, 0);
    Overwrites(q0, -1, 0);
    var q1 := Added(q0, 0);
    Claim(q0, q1, 0);
    var q2 := Claimed(q1, 0);
    SameSlots(q1, q2, 0);
    q := Overtaken(q0, q2, capacity);
    assert q.consumers == q0.consumers;
    NeverTaken(q, 0);
  }

  lemma SameSlots(q: Queue, q1: Queue, x: int)
    requires OnlyAt(q, x) && q1.slots == q.slots && q1.taken == q.taken
    ensures OnlyAt(q1, x)
  {
  }

  /** While the first consumer waits with its index, the second one takes jobs until the first slot is used again. */
  lemma Overtaken(q0: Queue, q: Queue, capacity: nat) returns (q1: Queue)
    requires 2 <= capacity && |q.slots| == capacity
    requires Reaches(q0, q) && OnlyAt(q, 0) && q.inIndex == q.outIndex == 1
    requires q.spaces == capacity - 1 && q.items == 0 && q.producers != [] && q.producers[0].Away?
    requires |q.consumers| > 1 && q.consumers[0] == HasOutIndex(0) && q.consumers[1].Idle?
    ensures Reaches(q0, q1) && q.jobs <= q1.jobs && OnlyAt(q1, -1) && |q1.taken| > |q.taken|
    ensures q1.items == 0 && q1.producers == q.producers && q1.consumers == q.consumers[0 := Idle]
  {
    hide Reaches, OnlyAt;
    var n := RoundTo(capacity);
    var q2 := Pump(q0, q, 1, n, 0);
    q1 := CatchUp(q0, q2);
  }

  /** After this many more jobs the index that follows index zero has come round to the first slot. */
  lemma RoundTo(capacity: nat) returns (n: nat)
    requires capacity >= 2
    ensures (1 + n) % INDEXES % capacity == 0
  {
    n := (if capacity < INDEXES then capacity else INDEXES) - 1;
  }

  lemma CatchUp(q0: Queue, q: Queue) returns (q1: Queue)
    requires Reaches(q0, q) && OnlyAt(q, 0) && q.slots != [] && q.inIndex % |q.slots| == 0
    requires q.spaces > 0 && q.items == 0 && q.producers != [] && q.producers[0].Away?
    requires q.consumers != [] && q.consumers[0] == HasOutIndex(0)
    ensures Reaches(q0, q1) && q.jobs <= q1.jobs && OnlyAt(q1, -1) && |q1.taken| > |q.taken|
    ensures q1.items == 0 && q1.producers == q.producers && q1.consumers == q.consumers[0 := Idle]
  {
    hide Reaches, OnlyAt;
    Add(q0, q, 0, 1);
    Overwrites(q, 0, 1);
    var q2 := Added(q, 1);
    Finish(q0, q2, 0);
    FinishesOther(q2, 0);
    q1 := Empties(q0, Finished(q2, 0), 1);
  }

  lemma FinishesOther(q: Queue, c: nat)
    requires c < |q.consumers| && q.consumers[c].HasOutIndex? && q.slots != [] && OnlyAt(q, -1)
    ensures OnlyAt(Finished(q, c), -1)
  {
  }

  lemma Starts(q0: Queue)
    ensures Reaches(q0, q0)
  {
    assert IsRun([q0], []);
  }

  /** With two producers and more than one slot, a slow producer lets a consumer into a slot that it has yet to fill. */
  lemma TwoProducersLoseAJob(capacity: nat, producers: nat, consumers: nat) returns (q: Queue)
    requires 2 <= capacity && producers >= 2 && consumers >= 1
    ensures Reaches(Initial(capacity, producers, consumers), q) && Lost(q) && !InOrder(q)
  {
    var q0 := Initial(capacity, producers, consumers);
    Starts(q0);
    hide Reaches;
    OneMore(q0, q0, WaitForSpace(0, 0));
    var q1 := Apply(q0, WaitForSpace(0, 0));
    OneMore(q0, q1, TakeInIndex(0));
    var q2 := Apply(q1, TakeInIndex(0));
    Add(q0, q2, 1, 1);
    var q3 := Added(q2, 1);
    Take(q0, q3, 0);
    var q4 := TookOne(q3);
    assert q4.taken == [Empty];
    SlowProducer(q0, q4);
    q := TookOne(Posted(q4));
    assert q.producers == q0.producers;
    assert q.jobs[0] == 0 && q.taken[0] == Empty && q.taken[1] == Full(1);
  }

  /** The first producer stores its job and posts it. */
  function Posted(q: Queue): Queue
    requires q.producers != [] && q.producers[0].HasInIndex? && q.slots != []
  {
    q.(items := q.items + 1, producers := q.producers[0 := Away],
       slots := q.slots[q.producers[0].index % |q.slots| := Full(q.producers[0].job)])
  }

  lemma SlowProducer(q0: Queue, q: Queue)
    requires Reaches(q0, q) && q.producers != [] && q.producers[0].HasInIndex? && q.slots != []
    requires q.consumers != [] && q.consumers[0].Idle?
    ensures Reaches(q0, TookOne(Posted(q)))
  {
    hide Reaches;
    OneMore(q0, q, StoreJob(0));
    var q1 := Apply(q, StoreJob(0));
    OneMore(q0, q1, PostItem(0));
    assert Apply(q1, PostItem(0)).producers == q.producers[0 := Away];
    Take(q0, Posted(q), 0);
  }

  /** Unless the capacity divides the number of indexes, the wrap-around of the indexes puts a job over one
      that has not been taken. */
  lemma WrapAroundLosesAJob(capacity: nat) returns (q: Queue)
    requires 2 <= capacity && INDEXES % capacity != 0
    ensures Reaches(Initial(capacity, 1, 1), q) && Lost(q) && !InOrder(q)
  {
    var q0 := Initial(capacity, 1, 1);
    hide Reaches, Lost, InOrder, OnlyAt;
    var q1 := LastIndexUsed(capacity);
    q := FullCircle(q0, q1, capacity);
    assert q.jobs[INDEXES - 1] == 0;
    NeverTaken(q, INDEXES - 1);
  }

  /** A job gets the last index before the indexes start over, and nothing else is in the queue. */
  lemma LastIndexUsed(capacity: nat) returns (q: Queue)
    requires 2 <= capacity
    ensures Reaches(Initial(capacity, 1, 1), q) && |q.slots| == capacity && OnlyAt(q, (INDEXES - 1) % capacity)
    ensures q.inIndex == 0 && q.spaces == capacity - 1 && q.items == 1 && q.producers == [Away] && q.consumers == [Idle]
    ensures |q.taken| == INDEXES - 1 && |q.jobs| == INDEXES && q.jobs[INDEXES - 1] == 0
  {
    var q0 := Initial(capacity, 1, 1);
    Starts(q0);
    assert OnlyAt(q0, -1);
    assert q0.producers == [Away] && q0.consumers == [Idle];
    hide Reaches, OnlyAt;
    var q1 := Pump(q0, q0, 0, INDEXES - 1, -1);
    Add(q0, q1, 0, 0);
    Overwrites(q1, -1, 0);
    q := Added(q1, 0);
  }

  /** After the first index has come round again, as many jobs as the remainder overwrite the one before them. */
  lemma FullCircle(q0: Queue, q: Queue, capacity: nat) returns (q1: Queue)
    requires 2 <= capacity && INDEXES % capacity != 0 && |q.slots| == capacity
    requires Reaches(q0, q) && OnlyAt(q, (INDEXES - 1) % capacity) && q.inIndex == 0
    requires q.spaces == capacity - 1 && q.items == 1
    requires q.producers == [Away] && q.consumers == [Idle]
    ensures Reaches(q0, q1) && q.jobs <= q1.jobs && OnlyAt(q1, -1) && |q1.taken| > |q.taken|
    ensures q1.items == 0 && q1.producers == [Away] && q1.consumers == [Idle]
  {
    hide Reaches;
    var r := INDEXES % capacity;
    BeforeTheWrap(capacity);
    var q2 := Fill(q0, q, r);
    assert OnlyAt(q2, -1);
    q1 := Empties(q0, q2, r + 1);
  }

  lemma BeforeTheWrap(capacity: nat)
    requires 0 < capacity && INDEXES % capacity != 0
    ensures (INDEXES - 1) % capacity == INDEXES % capacity - 1
  {
    var r := INDEXES % capacity;
    ModUnique(INDEXES - 1, INDEXES / capacity, r - 1, capacity);
  }

  /** In every run the taken jobs are the first of the added ones, in order, exactly when there is at most one slot, or no
      thread of a kind, or one of each and a capacity that divides the number of indexes; and exactly then no job is lost. */
  lemma JobsKeptExactly(capacity: nat, producers: nat, consumers: nat)
    ensures AlwaysInOrder(capacity, producers, consumers) <==> Kept(capacity, producers, consumers)
    ensures NeverLoses(capacity, producers, consumers) <==> Kept(capacity, producers, consumers)
  {
    var q0 := Initial(capacity, producers, consumers);
    if Kept(capacity, producers, consumers) {
      forall q | Reaches(q0, q) ensures InOrder(q) && !Lost(q) {
        var run, steps :| IsRun(run, steps) && run[0] == q0 && run[|steps|] == q;
        KeptInRun(capacity, producers, consumers, run, steps, |steps|);
        KeptMeansInOrder(capacity, producers, consumers, q);
      }
    } else {
      var q: Queue;
      if producers > 1 {
        q := TwoProducersLoseAJob(capacity, producers, consumers);
      } else if consumers > 1 {
        q := TwoConsumersLoseAJob(capacity, producers, consumers);
      } else {
        q := WrapAroundLosesAJob(capacity);
      }
    }
  }
}
