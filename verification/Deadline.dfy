/** The deadline monitor: one 64-bit word per deadline stands for the history of its starts and stops. */
module Deadline {
  import opened Division
  import opened Wrappers

  // ---- The packed word: | timestamp: 32 bits | reserved | underrun | reserved | running | stopped | ----

  const TIMES: nat := 0x1_0000_0000
  const STOPPED: nat := 1

  predicate IsRunning(word: nat) { word / 2 % 2 == 1 }

  predicate IsUnderrun(word: nat) { word / 8 % 2 == 1 }

  function Timestamp(word: nat): nat { word / TIMES }

  function SetTimestamp(word: nat, timestamp: nat): nat { timestamp * TIMES + word % 16 }

  function SetRunning(word: nat): nat { if IsRunning(word) then word else word + 2 }

  function SetUnderrun(word: nat): nat { if IsUnderrun(word) then word else word + 8 }

  /** On 64-bit words these are the masks and shifts of the packed layout. */
  lemma PackedLayout(word: bv64, timestamp: bv64)
    requires timestamp < 0x1_0000_0000
    ensures (word & !15) >> 32 == word / 0x1_0000_0000
    ensures (timestamp << 32) | (word & 15) == timestamp * 0x1_0000_0000 + word % 16
    ensures (word & 2 != 0) == (word / 2 % 2 == 1)
    ensures (word & 8 != 0) == (word / 8 % 2 == 1)
  {
  }

  lemma PackedRunning(word: bv64)
    ensures word | 2 == if word / 2 % 2 == 1 then word else word + 2
  {
  }

  lemma PackedUnderrun(word: bv64)
    ensures word | 8 == if word / 8 % 2 == 1 then word else word + 8
  {
  }

  /** All that the word says. */
  datatype Snapshot = Stopped | Running(expected: nat) | Underrun

  function Decode(word: nat): Snapshot {
    if IsUnderrun(word) then Underrun
    else if IsRunning(word) then Running(Timestamp(word))
    else Stopped
  }

  lemma StoppedDecoded()
    ensures Decode(STOPPED) == Stopped
  {
  }

  /** The flags do not depend on what is above them, nor the timestamp on the flags. */
  lemma LowBits(q: nat, flags: nat)
    requires flags < 16
    ensures (q * 16 + flags) / 2 % 2 == flags / 2 % 2
    ensures (q * 16 + flags) / 8 % 2 == flags / 8 % 2
  {
    var word := q * 16 + flags;
    ModUnique(word, q * 8 + flags / 2, flags % 2, 2);
    ModUnique(q * 8 + flags / 2, q * 4 + flags / 4, flags / 2 % 2, 2);
    ModUnique(word, q * 2 + flags / 8, flags % 8, 8);
    ModUnique(q * 2 + flags / 8, q, flags / 8, 2);
  }

  lemma HighBits(timestamp: nat, flags: nat)
    requires flags < 16
    ensures (timestamp * TIMES + flags) / TIMES == timestamp
  {
    ModUnique(timestamp * TIMES + flags, timestamp, flags, TIMES);
  }

  lemma RunningDecoded(timestamp: nat)
    ensures Decode(SetRunning(SetTimestamp(STOPPED, timestamp))) == Running(timestamp)
  {
    HighBits(timestamp, 1);
    HighBits(timestamp, 3);
    LowBits(timestamp * 0x1000_0000, 1);
    LowBits(timestamp * 0x1000_0000, 3);
    assert SetRunning(SetTimestamp(STOPPED, timestamp)) == timestamp * TIMES + 3;
  }

  lemma UnderrunDecoded(word: nat)
    ensures Decode(SetUnderrun(word)) == Underrun
  {
  }

  // ---- One deadline ----

  datatype Range = Range(min: nat, max: nat)

  datatype Error = TooEarly | TooLate

  /** When a deadline started at `now` must be stopped at the latest, and, given that, when at the earliest, in
      32-bit arithmetic. */
  function Latest(r: Range, now: nat): nat { (now + r.max) % TIMES }

  function Earliest(r: Range, latest: nat): nat { (latest - r.max + r.min) % TIMES }

  /** Starting at `now`: refused while the deadline runs or after it was missed. */
  function Started(r: Range, word: nat, now: nat): Option<nat> {
    if IsRunning(word) || IsUnderrun(word) then None
    else Some(SetRunning(SetTimestamp(STOPPED, Latest(r, now))))
  }

  /** Stopping at `now`: a late stop leaves the word for the evaluation to report. */
  function StoppedAt(r: Range, word: nat, now: nat): nat {
    var expected := Timestamp(word);
    if expected < now then word
    else if now < Earliest(r, expected) then SetUnderrun(word)
    else STOPPED
  }

  /** What an evaluation that saw `word` and then read the time `now` reports. */
  function Report(word: nat, now: nat): Option<Error> {
    match Decode(word)
    case Underrun => Some(TooEarly)
    case Running(expected) => if now > expected then Some(TooLate) else None
    case Stopped => None
  }

  class DeadlineMonitor {
    const ranges: seq<Range>
    var states: seq<nat>

    ghost predicate Valid()
      reads this
    {
      |states| == |ranges|
    }

    constructor (ranges: seq<Range>)
      ensures this.ranges == ranges && Valid()
      ensures forall i :: 0 <= i < |states| ==> states[i] == STOPPED
    {
      this.ranges := ranges;
      states := seq(|ranges|, i => STOPPED);
    }

    method Start(i: nat, now: nat) returns (started: bool)
      requires Valid() && i < |ranges|
      modifies this
      ensures Valid()
      ensures started <==> Started(ranges[i], old(states)[i], now).Some?
      ensures states == if started then old(states)[i := Started(ranges[i], old(states)[i], now).value] else old(states)
    {
      hide Started;
      var updated := UpdateOnStart(ranges[i], states[i], now);
      started := updated.Some?;
      if started {
        states := states[i := updated.value];
      }
    }

    method Stop(i: nat, now: nat)
      requires Valid() && i < |ranges|
      modifies this
      ensures Valid() && states == old(states)[i := StoppedAt(ranges[i], old(states)[i], now)]
    {
      hide StoppedAt;
      var updated := UpdateOnStop(ranges[i], states[i], now);
      states := states[i := updated];
    }

    /** Every deadline is looked at, and each error is reported once, in order. */
    method Evaluate(now: nat) returns (errors: seq<(nat, Error)>)
      requires Valid()
      ensures errors == Errors(states, now, |states|)
    {
      hide Report;
      errors := [];
      for i := 0 to |states|
        invariant errors == Errors(states, now, i)
      {
        var error := Check(states[i], now);
        if error.Some? {
          errors := errors + [(i, error.value)];
        }
      }
    }
  }

  /** The word after a start, if the start is not refused. */
  method UpdateOnStart(r: Range, current: nat, now: nat) returns (updated: Option<nat>)
    ensures updated == Started(r, current, now)
    ensures updated.Some? <==> Decode(current) == Stopped
    ensures updated.Some? ==> Decode(updated.value) == Running(Latest(r, now))
  {
    StartedDecoded(r, current, now);
    var maxTime := Latest(r, now);
    if IsRunning(current) || IsUnderrun(current) {
      return None;
    }
    var started := SetTimestamp(STOPPED, maxTime);
    started := SetRunning(started);
    return Some(started);
  }

  method UpdateOnStop(r: Range, current: nat, now: nat) returns (updated: nat)
    ensures updated == StoppedAt(r, current, now)
    ensures Decode(current).Running? ==>
              var latest := Decode(current).expected;
              && (now > latest ==> updated == current)
              && (now <= latest && now < Earliest(r, latest) ==> Decode(updated) == Underrun)
              && (now <= latest && now >= Earliest(r, latest) ==> Decode(updated) == Stopped)
  {
    UnderrunDecoded(current);
    StoppedDecoded();
    var expected := Timestamp(current);
    if expected < now {
      return current;
    }
    var earliest := Earliest(r, expected);
    if now < earliest {
      return SetUnderrun(current);
    }
    return STOPPED;
  }

  method Check(snapshot: nat, now: nat) returns (error: Option<Error>)
    ensures error == Report(snapshot, now)
  {
    if IsUnderrun(snapshot) {
      return Some(TooEarly);
    } else if IsRunning(snapshot) {
      var expected := Timestamp(snapshot);
      if now > expected {
        return Some(TooLate);
      }
    }
    return None;
  }

  function Errors(states: seq<nat>, now: nat, k: nat): seq<(nat, Error)>
    requires k <= |states|
  {
    if k == 0 then []
    else Errors(states, now, k - 1) +
         match Report(states[k - 1], now)
         case Some(e) => [(k - 1, e)]
         case None => []
  }

  /** A deadline is named among the errors exactly when its own word says so. */
  lemma {:induction false} ErrorsExactly(states: seq<nat>, now: nat, k: nat, i: nat, e: Error)
    requires k <= |states|
    ensures (i, e) in Errors(states, now, k) <==> i < k && Report(states[i], now) == Some(e)
  {
    hide Report;
    if k > 0 {
      ErrorsExactly(states, now, k - 1, i, e);
    }
  }

  /** The errors come in the order of the deadlines, and no deadline has two. */
  lemma {:induction false} ErrorsInOrder(states: seq<nat>, now: nat, k: nat, a: nat, b: nat)
    requires k <= |states| && a < b < |Errors(states, now, k)|
    ensures Errors(states, now, k)[a].0 < Errors(states, now, k)[b].0
  {
    hide Report;
    var before := Errors(states, now, k - 1);
    if b < |before| {
      ErrorsInOrder(states, now, k - 1, a, b);
    } else {
      var (i, e) := before[a];
      assert (i, e) in before;
      ErrorsExactly(states, now, k - 1, i, e);
    }
  }

  // ---- Histories of one deadline ----

  datatype Event = Start(at: nat) | Stop(at: nat)

  /** The word after the first `k` events. */
  function Word(r: Range, events: seq<Event>, k: nat): nat
    requires k <= |events|
  {
    if k == 0 then STOPPED
    else
      var word := Word(r, events, k - 1);
      match events[k - 1]
      case Start(at) => (match Started(r, word, at) case Some(w) => w case None => word)
      case Stop(at) => StoppedAt(r, word, at)
  }

  /** From an accepted start to its stop, if it has been stopped. */
  datatype Interval = Interval(start: nat, stop: Option<nat>)

  ghost predicate Early(r: Range, i: Interval) {
    i.stop.Some? && i.stop.value < i.start + r.min
  }

  ghost predicate Late(r: Range, i: Interval) {
    i.stop.Some? && i.stop.value > i.start + r.max
  }

  /** Stopped outside the range, or still running past it at time `t`. */
  ghost predicate Missed(r: Range, i: Interval, t: nat) {
    Early(r, i) || Late(r, i) || (i.stop.None? && t > i.start + r.max)
  }

  ghost predicate Met(r: Range, i: Interval) {
    i.stop.Some? && i.start + r.min <= i.stop.value <= i.start + r.max
  }

  /** The intervals of the first `k` events: a start counts if every interval so far was met. */
  ghost function Intervals(r: Range, events: seq<Event>, k: nat): seq<Interval>
    requires k <= |events|
  {
    if k == 0 then [] else Extended(r, Intervals(r, events, k - 1), events[k - 1])
  }

  ghost predicate AllMet(r: Range, past: seq<Interval>) {
    forall i :: 0 <= i < |past| ==> Met(r, past[i])
  }

  ghost function Extended(r: Range, past: seq<Interval>, e: Event): seq<Interval> {
    match e
    case Start(at) => if AllMet(r, past) then past + [Interval(at, None)] else past
    case Stop(at) =>
      if past != [] && past[|past| - 1].stop.None? then past[|past| - 1 := past[|past| - 1].(stop := Some(at))]
      else past
  }

  /** Only what runs is stopped, times do not run back, and no latest time is beyond 32 bits. */
  ghost predicate Sensible(r: Range, events: seq<Event>) {
    && r.min <= r.max
    && (forall k :: 0 <= k < |events| && events[k].Stop? ==> Open(Intervals(r, events, k)))
    && (forall j, k :: 0 <= j < k < |events| ==> events[j].at <= events[k].at)
    && (forall k :: 0 <= k < |events| && events[k].Start? ==> events[k].at + r.max < TIMES)
  }

  ghost predicate Open(past: seq<Interval>) {
    past != [] && past[|past| - 1].stop.None?
  }

  /** What the word says about the past. */
  ghost predicate Agrees(r: Range, past: seq<Interval>, word: nat) {
    if past == [] then Decode(word) == Stopped
    else
      var last := past[|past| - 1];
      && AllMet(r, past[..|past| - 1])
      && last.start + r.max < TIMES
      && Decode(word) == (if Met(r, last) then Stopped
                          else if Early(r, last) then Underrun
                          else Running(last.start + r.max))
  }

  lemma StartedDecoded(r: Range, word: nat, at: nat)
    ensures Started(r, word, at).Some? <==> Decode(word) == Stopped
    ensures Decode(word) == Stopped ==> Decode(Started(r, word, at).value) == Running(Latest(r, at))
  {
    hide SetTimestamp, SetRunning, Timestamp, Latest;
    RunningDecoded(Latest(r, at));
  }

  lemma StartAgrees(r: Range, past: seq<Interval>, word: nat, at: nat)
    requires Agrees(r, past, word) && at + r.max < TIMES
    ensures Started(r, word, at).Some? <==> AllMet(r, past)
    ensures AllMet(r, past) ==> Agrees(r, past + [Interval(at, None)], Started(r, word, at).value)
  {
    hide Started, Decode;
    StartedDecoded(r, word, at);
    if past != [] {
      var n := |past| - 1;
      assert past == past[..n] + [past[n]];
    }
    assert (past + [Interval(at, None)])[..|past|] == past;
  }

  lemma StopAgrees(r: Range, past: seq<Interval>, word: nat, at: nat)
    requires Agrees(r, past, word) && Open(past) && r.min <= r.max
    ensures Agrees(r, Extended(r, past, Stop(at)), StoppedAt(r, word, at))
  {
    hide SetUnderrun;
    UnderrunDecoded(word);
    StoppedDecoded();
    var last := past[|past| - 1];
    assert Timestamp(word) == last.start + r.max;
    assert Earliest(r, Timestamp(word)) == last.start + r.min;
    assert Extended(r, past, Stop(at))[..|past| - 1] == past[..|past| - 1];
  }

  lemma {:induction false} WordAgrees(r: Range, events: seq<Event>, k: nat)
    requires Sensible(r, events) && k <= |events|
    ensures Agrees(r, Intervals(r, events, k), Word(r, events, k))
  {
    hide Agrees, Started, StoppedAt, AllMet;
    if k == 0 {
      InitiallyAgrees(r);
    } else {
      WordAgrees(r, events, k - 1);
      var past, word := Intervals(r, events, k - 1), Word(r, events, k - 1);
      match events[k - 1] {
        case Start(at) => StartAgrees(r, past, word, at);
        case Stop(at) => StopAgrees(r, past, word, at);
      }
    }
  }

  lemma InitiallyAgrees(r: Range)
    ensures Agrees(r, [], STOPPED)
  {
    StoppedDecoded();
  }

  // ---- The monitor agrees with the history ----

  /** An evaluation reports an error exactly when some interval so far was missed; and the error tells which way. */
  lemma ReportsTheHistory(r: Range, events: seq<Event>, t: nat)
    requires Sensible(r, events) && forall k :: 0 <= k < |events| ==> events[k].at <= t
    ensures var past := Intervals(r, events, |events|);
            && (Report(Word(r, events, |events|), t).Some? <==> exists i :: 0 <= i < |past| && Missed(r, past[i], t))
            && (Report(Word(r, events, |events|), t) == Some(TooEarly) <==> exists i :: 0 <= i < |past| && Early(r, past[i]))
  {
    WordAgrees(r, events, |events|);
    StopsAreBefore(r, events, |events|, t);
    LastDecides(r, Intervals(r, events, |events|), Word(r, events, |events|), t);
  }

  lemma {:induction false} StopsAreBefore(r: Range, events: seq<Event>, k: nat, t: nat)
    requires k <= |events| && forall j :: 0 <= j < k ==> events[j].at <= t
    ensures forall i :: 0 <= i < |Intervals(r, events, k)| && Intervals(r, events, k)[i].stop.Some? ==>
              Intervals(r, events, k)[i].stop.value <= t
  {
    if k > 0 {
      StopsAreBefore(r, events, k - 1, t);
    }
  }

  lemma LastDecides(r: Range, past: seq<Interval>, word: nat, t: nat)
    requires Agrees(r, past, word)
    requires forall i :: 0 <= i < |past| && past[i].stop.Some? ==> past[i].stop.value <= t
    ensures Report(word, t).Some? <==> exists i :: 0 <= i < |past| && Missed(r, past[i], t)
    ensures Report(word, t) == Some(TooEarly) <==> exists i :: 0 <= i < |past| && Early(r, past[i])
  {
    if past != [] {
      var n := |past| - 1;
      forall i | 0 <= i < n ensures Met(r, past[i]) {
        assert past[i] == past[..n][i];
      }
      assert Missed(r, past[n], t) || !Missed(r, past[n], t);
      assert Early(r, past[n]) || !Early(r, past[n]);
    }
  }

  /** From the stop that closes a missed interval on, nothing more is started */
  lemma {:induction false} NothingStartsAfterMiss(r: Range, events: seq<Event>, j: nat, k: nat, i: nat)
    requires Sensible(r, events) && j <= k <= |events|
    requires i < |Intervals(r, events, j)| && (Early(r, Intervals(r, events, j)[i]) || Late(r, Intervals(r, events, j)[i]))
    ensures Intervals(r, events, k) == Intervals(r, events, j)
    ensures k < |events| && events[k].Start? ==> Started(r, Word(r, events, k), events[k].at).None?
  {
    hide Started, StoppedAt, Agrees, Word;
    if j < k {
      NothingStartsAfterMiss(r, events, j, k - 1, i);
      WordAgrees(r, events, k - 1);
      NothingExtends(r, Intervals(r, events, k - 1), Word(r, events, k - 1), i, events[k - 1]);
    }
    WordAgrees(r, events, k);
    var past := Intervals(r, events, k);
    assert !AllMet(r, past) by { assert !Met(r, past[i]); }
    if k < |events| && events[k].Start? {
      StartAgrees(r, past, Word(r, events, k), events[k].at);
    }
  }

  lemma NothingExtends(r: Range, past: seq<Interval>, word: nat, i: nat, e: Event)
    requires Agrees(r, past, word) && i < |past| && past[i].stop.Some? && !Met(r, past[i])
    ensures Extended(r, past, e) == past
  {
    NotOpen(r, past, word, i);
    assert !AllMet(r, past) by { assert !Met(r, past[i]); }
  }

  lemma NotOpen(r: Range, past: seq<Interval>, word: nat, i: nat)
    requires Agrees(r, past, word) && i < |past| && past[i].stop.Some? && !Met(r, past[i])
    ensures !Open(past)
  {
    assert forall k :: 0 <= k < |past| - 1 ==> past[..|past| - 1][k] == past[k];
  }

  /** and every evaluation reports it. */
  lemma MissIsReportedForever(r: Range, events: seq<Event>, j: nat, i: nat, t: nat)
    requires Sensible(r, events) && j <= |events| && forall k :: 0 <= k < |events| ==> events[k].at <= t
    requires i < |Intervals(r, events, j)| && (Early(r, Intervals(r, events, j)[i]) || Late(r, Intervals(r, events, j)[i]))
    ensures Report(Word(r, events, |events|), t).Some?
  {
    NothingStartsAfterMiss(r, events, j, |events|, i);
    ReportsTheHistory(r, events, t);
    assert Missed(r, Intervals(r, events, |events|)[i], t);
  }

  // ---- An evaluation that is overtaken ----

  /** An evaluation takes a snapshot of the word after `k` events and reads the clock after all of them. */
  ghost predicate AgreesAt(r: Range, events: seq<Event>, k: nat, t: nat)
    requires k <= |events|
  {
    Report(Word(r, events, k), t).Some? <==> SomeMissed(r, Intervals(r, events, |events|), t)
  }

  ghost predicate SomeMissed(r: Range, past: seq<Interval>, t: nat) {
    exists i :: 0 <= i < |past| && Missed(r, past[i], t)
  }

  /** The deadline was running at the snapshot and its latest time had passed when the clock was read, but it had been stopped
      in time in between, and nothing that began later was missed: a false report. */
  ghost predicate FalseLate(r: Range, seen: seq<Interval>, all: seq<Interval>, t: nat)
    requires |seen| <= |all|
  {
    && Open(seen) && t > seen[|seen| - 1].start + r.max && Met(r, all[|seen| - 1])
    && !SomeMissed(r, all[|seen|..], t)
  }

  /** The deadline was running at the snapshot and its latest time had not passed when the clock was read, but
      it had been stopped too early in between: a miss that is overlooked. */
  ghost predicate EarlyOverlooked(r: Range, seen: seq<Interval>, all: seq<Interval>, t: nat)
    requires |seen| <= |all|
  {
    Open(seen) && t <= seen[|seen| - 1].start + r.max && Early(r, all[|seen| - 1])
  }

  /** All that was seen was met, in time for the clock's reading, but something that began after the snapshot was missed. */
  ghost predicate LaterOverlooked(r: Range, seen: seq<Interval>, all: seq<Interval>, t: nat)
    requires |seen| <= |all|
  {
    && AllMet(r, all[..|seen|]) && (Open(seen) ==> t <= seen[|seen| - 1].start + r.max)
    && SomeMissed(r, all[|seen|..], t)
  }

  /** Later events close the open interval and add others; what was closed stays as it is. */
  ghost predicate Extends(seen: seq<Interval>, all: seq<Interval>) {
    && |seen| <= |all|
    && (forall i :: 0 <= i < |seen| ==> all[i].start == seen[i].start && (seen[i].stop.Some? ==> all[i] == seen[i]))
  }

  lemma {:induction false} IntervalsExtend(r: Range, events: seq<Event>, k: nat, m: nat)
    requires k <= m <= |events|
    ensures Extends(Intervals(r, events, k), Intervals(r, events, m))
  {
    if k < m {
      IntervalsExtend(r, events, k, m - 1);
    }
  }

  /** What an evaluation that saw the word `word` reports, in terms of the intervals it stands for. */
  lemma SnapshotReport(r: Range, seen: seq<Interval>, word: nat, t: nat)
    requires Agrees(r, seen, word)
    requires forall i :: 0 <= i < |seen| && seen[i].stop.Some? ==> seen[i].stop.value <= t
    ensures Report(word, t).Some? <==>
            seen != [] && Missed(r, seen[|seen| - 1], t)
    ensures forall i :: 0 <= i < |seen| - 1 ==> Met(r, seen[i])
  {
    if seen != [] {
      var n := |seen| - 1;
      forall i | 0 <= i < n ensures Met(r, seen[i]) {
        assert seen[i] == seen[..n][i];
      }
    }
  }

  /** Whether some interval was missed, part by part. */
  lemma MissedParts(r: Range, all: seq<Interval>, n: nat, t: nat)
    requires n <= |all|
    ensures SomeMissed(r, all, t) <==> SomeMissed(r, all[..n], t) || SomeMissed(r, all[n..], t)
  {
    if SomeMissed(r, all, t) {
      var i :| 0 <= i < |all| && Missed(r, all[i], t);
      if i < n {
        assert Missed(r, all[..n][i], t);
      } else {
        assert Missed(r, all[n..][i - n], t);
      }
    }
    if SomeMissed(r, all[n..], t) {
      var i :| 0 <= i < |all[n..]| && Missed(r, all[n..][i], t);
      assert Missed(r, all[n + i], t);
    }
  }

  /** Of what was seen only the last interval can have been missed. */
  lemma OnlyLastMissed(r: Range, part: seq<Interval>, t: nat)
    requires part != [] && forall i :: 0 <= i < |part| - 1 ==> Met(r, part[i])
    ensures SomeMissed(r, part, t) <==> Missed(r, part[|part| - 1], t)
    ensures AllMet(r, part) <==> Met(r, part[|part| - 1])
  {
  }

  lemma OvertakenBySets(r: Range, seen: seq<Interval>, all: seq<Interval>, word: nat, t: nat)
    requires Agrees(r, seen, word) && Extends(seen, all) && seen != []
    requires forall i :: 0 <= i < |all| && all[i].stop.Some? ==> all[i].stop.value <= t
    requires |all| > |seen| ==> Met(r, all[|seen| - 1])
    requires seen[|seen| - 1].stop.Some? && !Met(r, seen[|seen| - 1]) ==> |all| == |seen|
    ensures (Report(word, t).Some? <==> SomeMissed(r, all, t)) <==>
            !FalseLate(r, seen, all, t) && !EarlyOverlooked(r, seen, all, t) && !LaterOverlooked(r, seen, all, t)
  {
    SnapshotReport(r, seen, word, t);
    var n := |seen|;
    MissedParts(r, all, n, t);
    OnlyLastMissed(r, all[..n], t);
    hide Agrees, Report;
    if |all| == n {
      assert !SomeMissed(r, all[n..], t);
    }
  }

  /** An evaluation agrees with the history at the time it reads the clock exactly unless a stop in time, a stop too early, or
      a later interval that was missed came between the snapshot and that. */
  lemma SplitEvaluationAgreesExactly(r: Range, events: seq<Event>, k: nat, t: nat)
    requires Sensible(r, events) && k <= |events| && forall j :: 0 <= j < |events| ==> events[j].at <= t
    ensures |Intervals(r, events, k)| <= |Intervals(r, events, |events|)|
    ensures var seen, all := Intervals(r, events, k), Intervals(r, events, |events|);
            AgreesAt(r, events, k, t) <==>
            !FalseLate(r, seen, all, t) && !EarlyOverlooked(r, seen, all, t) && !LaterOverlooked(r, seen, all, t)
  {
    var seen, all := Intervals(r, events, k), Intervals(r, events, |events|);
    IntervalsExtend(r, events, k, |events|);
    WordAgrees(r, events, k);
    WordAgrees(r, events, |events|);
    StopsAreBefore(r, events, |events|, t);
    hide Sensible, Intervals, Word, Started, StoppedAt;
    if seen == [] {
      assert all[0..] == all && AllMet(r, all[..0]);
      StoppedDecoded();
    } else {
      LaterNeedsMet(r, seen, all, Word(r, events, |events|));
      if seen[|seen| - 1].stop.Some? && !Met(r, seen[|seen| - 1]) {
        NothingStartsAfterMiss(r, events, k, |events|, |seen| - 1);
      }
      OvertakenBySets(r, seen, all, Word(r, events, k), t);
    }
  }

  lemma LaterNeedsMet(r: Range, seen: seq<Interval>, all: seq<Interval>, word: nat)
    requires Agrees(r, all, word) && Extends(seen, all) && seen != []
    ensures |all| > |seen| ==> Met(r, all[|seen| - 1])
  {
    if |all| > |seen| {
      assert all[..|all| - 1][|seen| - 1] == all[|seen| - 1];
    }
  }

  /** A stop in time between the snapshot and the reading of the clock: the deadline is reported late although it was met. */
  lemma StopInTimeReported(r: Range, start: nat, stop: nat, t: nat)
    requires start + r.min <= stop <= start + r.max < t && start + r.max < TIMES
    ensures var events := [Start(start), Stop(stop)];
            && Sensible(r, events) && Report(Word(r, events, 1), t) == Some(TooLate)
            && Report(Word(r, events, 2), t) == None && !SomeMissed(r, Intervals(r, events, 2), t)
  {
    var events := [Start(start), Stop(stop)];
    TwoEvents(r, start, stop);
    WordAgrees(r, events, 1);
    WordAgrees(r, events, 2);
  }

  /** A stop too early in between is not reported. */
  lemma EarlyStopOverlooked(r: Range, start: nat, stop: nat, t: nat)
    requires r.min <= r.max && start <= stop < start + r.min && stop <= t <= start + r.max && start + r.max < TIMES
    ensures var events := [Start(start), Stop(stop)];
            Sensible(r, events) && Report(Word(r, events, 1), t) == None && SomeMissed(r, Intervals(r, events, 2), t)
  {
    var events := [Start(start), Stop(stop)];
    TwoEvents(r, start, stop);
    WordAgrees(r, events, 1);
    assert Missed(r, Intervals(r, events, 2)[0], t);
  }

  lemma TwoEvents(r: Range, start: nat, stop: nat)
    requires r.min <= r.max && start <= stop && start + r.max < TIMES
    ensures var events := [Start(start), Stop(stop)];
            && Sensible(r, events) && Intervals(r, events, 1) == [Interval(start, None)]
            && Intervals(r, events, 2) == [Interval(start, Some(stop))]
  {
    var events := [Start(start), Stop(stop)];
    assert Intervals(r, events, 0) == [];
    assert Intervals(r, events, 1) == [Interval(start, None)];
  }

  /** A latest time beyond 32 bits wraps around: the deadline is reported as late the moment it starts. A start
      within 32 bits never is. */
  lemma LateAtOnce(r: Range, start: nat)
    requires start < TIMES && r.max < TIMES
    ensures Started(r, STOPPED, start).Some?
    ensures Report(Started(r, STOPPED, start).value, start).Some? <==> start + r.max >= TIMES
  {
    hide SetTimestamp, SetRunning;
    RunningDecoded(Latest(r, start));
    if start + r.max >= TIMES {
      assert Latest(r, start) == start + r.max - TIMES;
    }
  }
}
