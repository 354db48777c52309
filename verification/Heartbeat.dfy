/** The heartbeat monitor: one 64-bit word, set by beats and swapped out by evaluations, stands for the history. */
module Heartbeat {
  import opened Wrappers

  // ---- The packed word: | timestamp: 62 bits | counter: 2 bits | ----

  const TIMESTAMPS: nat := 0x4000_0000_0000_0000

  function Timestamp(word: nat): nat { word / 4 }

  function Counter(word: nat): nat { word % 4 }

  function SetTimestamp(word: nat, value: nat): nat { value * 4 + word % 4 }

  function IncrementCounter(word: nat): nat {
    word / 4 * 4 + if word % 4 < 3 then word % 4 + 1 else 3
  }

  /** On 64-bit words these are the masks and shifts of the packed layout. */
  lemma PackedLayout(word: bv64, value: bv64)
    requires value < 0x4000_0000_0000_0000
    ensures (word & 0xFFFF_FFFF_FFFF_FFFC) >> 2 == word / 4
    ensures word & 3 == word % 4
    ensures (value << 2) | (word & !0xFFFF_FFFF_FFFF_FFFC) == value * 4 + word % 4
  {
  }

  lemma PackedCounter(word: bv64, value: bv64)
    requires value <= 3
    ensures value | (word & !3) == word / 4 * 4 + value
  {
  }

  /** All that an evaluation learns from the word. */
  datatype Snapshot = NoBeat | OneBeat(at: nat) | Several

  function Decode(word: nat): Snapshot {
    if Counter(word) == 0 then NoBeat
    else if Counter(word) == 1 then OneBeat(Timestamp(word))
    else Several
  }

  lemma ZeroDecoded()
    ensures Decode(0) == NoBeat
  {
  }

  /** A beat is recorded with its timestamp, and the saturating counter tells none, one and several apart. */
  lemma BeatDecoded(word: nat, value: nat)
    ensures Decode(IncrementCounter(SetTimestamp(word, value))) ==
            if Decode(word) == NoBeat then OneBeat(value) else Several
  {
  }

  // ---- The monitor ----

  datatype Error = TooEarly | TooLate | MultipleHeartbeats

  datatype Range = Range(min: nat, max: nat)

  /** The word shared with the beating threads, and the start of the present cycle, zero before the first. */
  datatype Monitor = Monitor(word: nat, start: nat)

  function Beaten(m: Monitor, at: nat): Monitor {
    m.(word := IncrementCounter(SetTimestamp(m.word, at)))
  }

  /** The start that an evaluation measures from. */
  function CycleStart(m: Monitor, offset: nat): nat {
    if m.start > 0 then m.start else offset
  }

  function Verdict(r: Range, m: Monitor, offset: nat, now: nat): Option<Error> {
    var from := CycleStart(m, offset);
    match Decode(m.word)
    case Several => Some(MultipleHeartbeats)
    case NoBeat => if now > from + r.max then Some(TooLate) else None
    case OneBeat(at) =>
      if at < from + r.min then Some(TooEarly) else if at > from + r.max then Some(TooLate) else None
  }

  function Evaluated(r: Range, m: Monitor, offset: nat, now: nat): Monitor {
    var s := Decode(m.word);
    Monitor(0, if s.OneBeat? && Verdict(r, m, offset, now).None? then s.at else m.start)
  }

  class HeartbeatMonitor {
    const range: Range
    var heartbeatState: nat
    var startTimestamp: nat

    ghost function Model(): Monitor
      reads this
    {
      Monitor(heartbeatState, startTimestamp)
    }

    constructor (range: Range)
      ensures this.range == range && Model() == Monitor(0, 0)
    {
      this.range := range;
      heartbeatState, startTimestamp := 0, 0;
    }

    method Heartbeat(now: nat)
      requires now < TIMESTAMPS
      modifies this`heartbeatState
      ensures Model() == Beaten(old(Model()), now)
      ensures Decode(heartbeatState) == if Decode(old(heartbeatState)) == NoBeat then OneBeat(now) else Several
    {
      BeatDecoded(heartbeatState, now);
      var current := SetTimestamp(heartbeatState, now);
      heartbeatState := IncrementCounter(current);
    }

    method CheckBeat(at: nat, from: nat) returns (error: Option<Error>)
      ensures error == if at < from + range.min then Some(TooEarly)
                       else if at > from + range.max then Some(TooLate)
                       else None
    {
      var low, high := from + range.min, from + range.max;
      if at < low {
        return Some(TooEarly);
      } else if at > high {
        return Some(TooLate);
      }
      return None;
    }

    /** `offset` is the time from the monitor's start to the health monitor's start. */
    method Evaluate(offset: nat, now: nat) returns (error: Option<Error>)
      modifies this
      ensures error == Verdict(range, old(Model()), offset, now)
      ensures Model() == Evaluated(range, old(Model()), offset, now)
    {
      var snapshot := heartbeatState;
      heartbeatState := 0;
      var from := if startTimestamp > 0 then startTimestamp else offset;
      var count := Counter(snapshot);
      if count > 1 {
        return Some(MultipleHeartbeats);
      } else if count == 0 {
        return if now > from + range.max then Some(TooLate) else None;
      }
      error := CheckBeat(Timestamp(snapshot), from);
      if error.None? {
        startTimestamp := Timestamp(snapshot);
      }
    }
  }

  /** A monitor is only built for a processing cycle shorter than twice the shortest allowed gap, which makes that gap
      at least one millisecond. */
  method Build(range: Range, cycle: nat) returns (monitor: HeartbeatMonitor?)
    ensures monitor == null <==> range.min * 2 <= cycle
    ensures monitor != null ==> fresh(monitor) && monitor.range == range && range.min >= 1 && monitor.Model() == Monitor(0, 0)
  {
    if range.min * 2 <= cycle {
      return null;
    }
    monitor := new HeartbeatMonitor(range);
  }

  // ---- Histories ----

  datatype Event = Beat(at: nat) | Eval(now: nat)

  function Next(r: Range, offset: nat, m: Monitor, e: Event): Monitor {
    match e
    case Beat(at) => Beaten(m, at)
    case Eval(now) => Evaluated(r, m, offset, now)
  }

  /** The monitor after the first `k` events. */
  function After(r: Range, offset: nat, events: seq<Event>, k: nat): Monitor
    requires k <= |events|
  {
    if k == 0 then Monitor(0, 0) else Next(r, offset, After(r, offset, events, k - 1), events[k - 1])
  }

  /** What the evaluation at position `k` reports. */
  function Reported(r: Range, offset: nat, events: seq<Event>, k: nat): Option<Error>
    requires k < |events| && events[k].Eval?
  {
    Verdict(r, After(r, offset, events, k), offset, events[k].now)
  }

  ghost predicate ErrorFree(r: Range, offset: nat, events: seq<Event>, k: nat)
    requires k <= |events|
  {
    forall j :: 0 <= j < k && events[j].Eval? ==> Reported(r, offset, events, j).None?
  }

  /** The times of the beats among the first `k` events, and how many came after the last evaluation. */
  ghost function Beats(events: seq<Event>, k: nat): (b: seq<nat>)
    requires k <= |events|
  {
    if k == 0 then [] else Beats(events, k - 1) + if events[k - 1].Beat? then [events[k - 1].at] else []
  }

  ghost function Fresh(events: seq<Event>, k: nat): (n: nat)
    requires k <= |events|
    ensures n <= |Beats(events, k)|
  {
    if k == 0 || events[k - 1].Eval? then 0 else Fresh(events, k - 1) + 1
  }

  /** The beat before number `i`, or the start of the health monitor. */
  ghost function Before(offset: nat, beats: seq<nat>, i: nat): nat
    requires i <= |beats|
  {
    if i == 0 then offset else beats[i - 1]
  }

  /** The first `n` beats follow each other within the range. */
  ghost predicate InRange(r: Range, offset: nat, beats: seq<nat>, n: nat)
    requires n <= |beats|
  {
    forall i :: 0 <= i < n ==> GapInRange(r, offset, beats, i)
  }

  ghost predicate GapInRange(r: Range, offset: nat, beats: seq<nat>, i: nat)
    requires i < |beats|
  {
    Before(offset, beats, i) + r.min <= beats[i] <= Before(offset, beats, i) + r.max
  }

  /** What the packed word and the cycle start say about an error-free history. */
  ghost predicate Agrees(r: Range, offset: nat, events: seq<Event>, k: nat)
    requires k <= |events|
  {
    var m, b, n := After(r, offset, events, k), Beats(events, k), Fresh(events, k);
    && Decode(m.word) == (if n == 0 then NoBeat else if n == 1 then OneBeat(b[|b| - 1]) else Several)
    && CycleStart(m, offset) == Before(offset, b, |b| - n)
    && InRange(r, offset, b, |b| - n)
  }

  lemma {:induction false} AgreesAlways(r: Range, offset: nat, events: seq<Event>, k: nat)
    requires k <= |events| && ErrorFree(r, offset, events, k)
    ensures Agrees(r, offset, events, k)
  {
    hide Decode, Verdict, Evaluated, Agrees;
    if k == 0 {
      AgreesInitially(r, offset, events);
    } else {
      AgreesAlways(r, offset, events, k - 1);
      match events[k - 1] {
        case Beat(at) => AgreesBeat(r, offset, events, k - 1);
        case Eval(now) => AgreesEval(r, offset, events, k - 1);
      }
    }
  }

  lemma AgreesInitially(r: Range, offset: nat, events: seq<Event>)
    ensures Agrees(r, offset, events, 0)
  {
  }

  lemma AgreesBeat(r: Range, offset: nat, events: seq<Event>, k: nat)
    requires k < |events| && events[k].Beat? && Agrees(r, offset, events, k)
    ensures Agrees(r, offset, events, k + 1)
  {
    hide Decode, SetTimestamp, IncrementCounter;
    BeatDecoded(After(r, offset, events, k).word, events[k].at);
    var b, b1, n := Beats(events, k), Beats(events, k + 1), Fresh(events, k);
    forall i: nat | i < |b| - n ensures GapInRange(r, offset, b1, i) {
      assert GapInRange(r, offset, b, i);
    }
  }

  lemma AgreesEval(r: Range, offset: nat, events: seq<Event>, k: nat)
    requires k < |events| && events[k].Eval? && Agrees(r, offset, events, k) && Reported(r, offset, events, k).None?
    ensures Agrees(r, offset, events, k + 1)
  {
    hide Decode;
    ZeroDecoded();
    assert Beats(events, k + 1) == Beats(events, k);
  }

  // ---- The monitor agrees with the history ----

  /** What the history says about the evaluation at position `k`. */
  ghost function Expected(r: Range, offset: nat, events: seq<Event>, k: nat): Option<Error>
    requires k < |events| && events[k].Eval?
  {
    var b, n := Beats(events, k), Fresh(events, k);
    Judged(r, Before(offset, b, |b| - n), b[|b| - n..], events[k].now)
  }

  /** What is to be said at `now` about the beats since the last evaluation, in a cycle that began at `from`. */
  ghost function Judged(r: Range, from: nat, beats: seq<nat>, now: nat): Option<Error> {
    if |beats| > 1 then Some(MultipleHeartbeats)
    else if |beats| == 0 then (if now > from + r.max then Some(TooLate) else None)
    else if beats[0] < from + r.min then Some(TooEarly)
    else if beats[0] > from + r.max then Some(TooLate)
    else None
  }

  /** Up to and including the first error, every evaluation reports what the history says. */
  lemma ReportsTheHistory(r: Range, offset: nat, events: seq<Event>, k: nat)
    requires k < |events| && events[k].Eval?
    requires ErrorFree(r, offset, events, k)
    ensures Reported(r, offset, events, k) == Expected(r, offset, events, k)
  {
    hide Decode;
    AgreesAlways(r, offset, events, k);
  }

  /** The start of the cycle after the first `k` events, errors or not: the last beat that an evaluation found alone and
      in range of the cycle before it. Whatever else an evaluation finds is forgotten. */
  ghost function Anchor(r: Range, offset: nat, events: seq<Event>, k: nat): nat
    requires k <= |events|
  {
    if k == 0 then offset
    else
      var from, b, n := Anchor(r, offset, events, k - 1), Beats(events, k - 1), Fresh(events, k - 1);
      if events[k - 1].Eval? && n == 1 && from + r.min <= b[|b| - 1] <= from + r.max then b[|b| - 1] else from
  }

  ghost predicate Anchored(r: Range, offset: nat, events: seq<Event>, k: nat)
    requires k <= |events|
  {
    var m, b, n := After(r, offset, events, k), Beats(events, k), Fresh(events, k);
    && Decode(m.word) == (if n == 0 then NoBeat else if n == 1 then OneBeat(b[|b| - 1]) else Several)
    && CycleStart(m, offset) == Anchor(r, offset, events, k)
  }

  lemma AnchoredNext(r: Range, offset: nat, events: seq<Event>, k: nat)
    requires k < |events| && Anchored(r, offset, events, k)
    ensures Anchored(r, offset, events, k + 1)
  {
    hide Decode, SetTimestamp, IncrementCounter;
    ZeroDecoded();
    if events[k].Beat? {
      BeatDecoded(After(r, offset, events, k).word, events[k].at);
    }
  }

  lemma {:induction false} AnchoredAlways(r: Range, offset: nat, events: seq<Event>, k: nat)
    requires k <= |events|
    ensures Anchored(r, offset, events, k)
  {
    if k > 0 {
      hide Anchored;
      AnchoredAlways(r, offset, events, k - 1);
      AnchoredNext(r, offset, events, k - 1);
    }
  }

  /** The word holds the time of the last beat and counts the beats since the last evaluation, up to three. */
  lemma {:induction false} WordCountsBeats(r: Range, offset: nat, events: seq<Event>, k: nat)
    requires k <= |events|
    ensures var word, b, n := After(r, offset, events, k).word, Beats(events, k), Fresh(events, k);
            Counter(word) == (if n < 3 then n else 3) && (n > 0 ==> Timestamp(word) == b[|b| - 1])
  {
    if k > 0 {
      WordCountsBeats(r, offset, events, k - 1);
      ZeroCounted();
      if events[k - 1].Beat? {
        BeatCounted(After(r, offset, events, k - 1).word, events[k - 1].at);
      }
      hide Counter, Timestamp, SetTimestamp, IncrementCounter, Verdict;
    } else {
      ZeroCounted();
    }
  }

  lemma ZeroCounted()
    ensures Counter(0) == 0
  {
  }

  lemma BeatCounted(word: nat, value: nat)
    ensures var word1 := IncrementCounter(SetTimestamp(word, value));
            Timestamp(word1) == value && Counter(word1) == if Counter(word) < 3 then Counter(word) + 1 else 3
  {
  }

  /** After errors, too, every evaluation reports what the beats since the last evaluation call for. */
  lemma EveryReport(r: Range, offset: nat, events: seq<Event>, k: nat)
    requires k < |events| && events[k].Eval?
    ensures var b, n := Beats(events, k), Fresh(events, k);
            Reported(r, offset, events, k) == Judged(r, Anchor(r, offset, events, k), b[|b| - n..], events[k].now)
  {
    hide Decode;
    AnchoredAlways(r, offset, events, k);
  }

  /** So a run is error-free exactly when the history gives no evaluation a reason to complain. */
  lemma {:induction false} ErrorFreeExactly(r: Range, offset: nat, events: seq<Event>, k: nat)
    requires k <= |events|
    ensures ErrorFree(r, offset, events, k) <==>
              forall j :: 0 <= j < k && events[j].Eval? ==> Expected(r, offset, events, j).None?
  {
    hide Expected, Reported;
    if k > 0 {
      ErrorFreeExactly(r, offset, events, k - 1);
      if events[k - 1].Eval? && ErrorFree(r, offset, events, k - 1) {
        ReportsTheHistory(r, offset, events, k - 1);
      }
    }
  }

  /** An error-free run that ends with an evaluation means that the first beat and all gaps were in range. */
  lemma NoErrorMeansInRange(r: Range, offset: nat, events: seq<Event>)
    requires ErrorFree(r, offset, events, |events|)
    requires events != [] && events[|events| - 1].Eval?
    ensures InRange(r, offset, Beats(events, |events|), |Beats(events, |events|)|)
  {
    hide Decode, InRange;
    AgreesAlways(r, offset, events, |events|);
  }

  // ---- Healthy beating is never reported ----

  function Time(e: Event): nat {
    match e
    case Beat(at) => at
    case Eval(now) => now
  }

  ghost predicate Monotone(events: seq<Event>) {
    forall j, k :: 0 <= j < k < |events| ==> Time(events[j]) <= Time(events[k])
  }

  /** The time of the last evaluation among the first `k` events. */
  ghost function LastEval(events: seq<Event>, k: nat): Option<nat>
    requires k <= |events|
  {
    if k == 0 then None
    else if events[k - 1].Eval? then Some(events[k - 1].now)
    else LastEval(events, k - 1)
  }

  /** All beats are in range, and no evaluation finds the next beat overdue. */
  ghost predicate Healthy(r: Range, offset: nat, events: seq<Event>) {
    && InRange(r, offset, Beats(events, |events|), |Beats(events, |events|)|)
    && forall k :: 0 <= k < |events| && events[k].Eval? ==>
         events[k].now <= Before(offset, Beats(events, k), |Beats(events, k)|) + r.max
  }

  /** The first evaluation comes within the shortest gap of the start, and each further one less than `spacing` after
      the one before. */
  ghost predicate EvaluatedWithin(r: Range, offset: nat, events: seq<Event>, spacing: nat) {
    forall k :: 0 <= k < |events| && events[k].Eval? ==>
      match LastEval(events, k)
      case None => events[k].now <= offset + r.min
      case Some(p) => events[k].now < p + spacing
  }

  lemma {:induction false} BeatsPrefix(events: seq<Event>, k: nat, m: nat)
    requires k <= m <= |events|
    ensures Beats(events, k) <= Beats(events, m)
  {
    if k < m {
      BeatsPrefix(events, k, m - 1);
    }
  }

  lemma {:induction false} FreshTimes(events: seq<Event>, k: nat, i: nat)
    requires Monotone(events) && k < |events|
    requires |Beats(events, k)| - Fresh(events, k) <= i < |Beats(events, k)|
    ensures Beats(events, k)[i] <= Time(events[k])
    ensures LastEval(events, k).Some? ==> LastEval(events, k).value <= Beats(events, k)[i]
    decreases k
  {
    if i < |Beats(events, k)| - 1 {
      FreshTimes(events, k - 1, i);
    } else if LastEval(events, k).Some? {
      EvalBefore(events, k - 1, k - 1);
    }
  }

  lemma {:induction false} EvalBefore(events: seq<Event>, j: nat, k: nat)
    requires Monotone(events) && j <= k < |events| && LastEval(events, j).Some?
    ensures LastEval(events, j).value <= Time(events[k])
  {
    if events[j - 1].Beat? {
      EvalBefore(events, j - 1, k);
    }
  }

  lemma {:induction false} AllFreshBeforeFirstEval(events: seq<Event>, k: nat)
    requires k <= |events| && LastEval(events, k).None?
    ensures Fresh(events, k) == |Beats(events, k)|
  {
    if k > 0 {
      AllFreshBeforeFirstEval(events, k - 1);
    }
  }

  /** Two beats in range before an evaluation put it at least the shortest gap after the one before. */
  lemma TwoBeatsTakeTime(r: Range, offset: nat, events: seq<Event>, k: nat)
    requires Monotone(events) && k < |events| && events[k].Eval? && Fresh(events, k) > 1
    requires InRange(r, offset, Beats(events, k), |Beats(events, k)|)
    ensures match LastEval(events, k)
            case None => events[k].now >= offset + r.min + r.min
            case Some(p) => events[k].now >= p + r.min
  {
    hide Monotone, LastEval, Fresh, Beats;
    var b := Beats(events, k);
    FreshTimes(events, k, |b| - 1);
    FreshTimes(events, k, |b| - 2);
    assert GapInRange(r, offset, b, |b| - 1);
    if LastEval(events, k).None? {
      AllFreshBeforeFirstEval(events, k);
      FreshTimes(events, k, 1);
      assert GapInRange(r, offset, b, 0) && GapInRange(r, offset, b, 1);
    }
  }

  lemma InRangePrefix(r: Range, offset: nat, a: seq<nat>, b: seq<nat>)
    requires a <= b && InRange(r, offset, b, |b|)
    ensures InRange(r, offset, a, |a|)
  {
    forall i: nat | i < |a| ensures GapInRange(r, offset, a, i) {
      assert GapInRange(r, offset, b, i);
    }
  }

  lemma HealthyEvaluation(r: Range, offset: nat, events: seq<Event>, k: nat)
    requires r.min >= 1 && Monotone(events) && Healthy(r, offset, events) && EvaluatedWithin(r, offset, events, r.min)
    requires k < |events| && events[k].Eval?
    ensures Expected(r, offset, events, k).None?
  {
    hide Monotone, LastEval, Fresh, Beats, InRange;
    var b := Beats(events, k);
    BeatsPrefix(events, k, |events|);
    InRangePrefix(r, offset, b, Beats(events, |events|));
    if Fresh(events, k) > 1 {
      TwoBeatsTakeTime(r, offset, events, k);
    }
    if b != [] {
      LastGap(r, offset, b);
    }
  }

  lemma LastGap(r: Range, offset: nat, b: seq<nat>)
    requires b != [] && InRange(r, offset, b, |b|)
    ensures GapInRange(r, offset, b, |b| - 1)
  {
  }

  /** If the beats are in range and evaluations come less than the shortest gap apart, no error is ever reported. */
  lemma HealthyIsNeverReported(r: Range, offset: nat, events: seq<Event>)
    requires r.min >= 1 && Monotone(events)
    requires Healthy(r, offset, events) && EvaluatedWithin(r, offset, events, r.min)
    ensures ErrorFree(r, offset, events, |events|)
  {
    hide Expected, Reported, Monotone, Healthy, EvaluatedWithin;
    forall j | 0 <= j < |events| && events[j].Eval? ensures Expected(r, offset, events, j).None? {
      HealthyEvaluation(r, offset, events, j);
    }
    ErrorFreeExactly(r, offset, events, |events|);
  }

  /** Any larger spacing that the builder still accepts is too large: two beats exactly the shortest gap apart, the
      first right after an evaluation, are reported as one too many. */
  lemma HealthyCanBeReported(r: Range, offset: nat, cycle: nat)
    requires 1 <= r.min <= r.max && r.min <= cycle < 2 * r.min
    ensures var events := [Eval(offset + r.min), Beat(offset + r.min), Beat(offset + 2 * r.min), Eval(offset + r.min + cycle)];
            && Monotone(events) && Healthy(r, offset, events) && EvaluatedWithin(r, offset, events, cycle + 1)
            && Reported(r, offset, events, 0).None? && Reported(r, offset, events, 3) == Some(MultipleHeartbeats)
  {
    hide Decode;
    var events := [Eval(offset + r.min), Beat(offset + r.min), Beat(offset + 2 * r.min), Eval(offset + r.min + cycle)];
    assert Beats(events, 1) == [];
    assert Beats(events, 2) == [offset + r.min];
    assert Beats(events, 3) == [offset + r.min, offset + 2 * r.min];
    assert Beats(events, 4) == Beats(events, 3);
    assert Fresh(events, 1) == 0 && Fresh(events, 2) == 1 && Fresh(events, 3) == 2;
    assert LastEval(events, 1) == LastEval(events, 2) == LastEval(events, 3) == Some(offset + r.min);
    ReportsTheHistory(r, offset, events, 0);
    ReportsTheHistory(r, offset, events, 3);
  }

  /** For instance gaps of 100 to 200 ms with an accepted processing cycle of 150 ms. */
  lemma HealthyReportedExample()
    ensures var events := [Eval(100), Beat(100), Beat(200), Eval(250)];
            && Monotone(events) && Healthy(Range(100, 200), 0, events)
            && Reported(Range(100, 200), 0, events, 3) == Some(MultipleHeartbeats)
  {
    hide Decode, Monotone, Healthy, Reported;
    HealthyCanBeReported(Range(100, 200), 0, 150);
  }
}
