/** The recovery client as the object it is, one call at a time, and the daemon's handler that drains it. */
module RecoveryClient {
  import opened States
  import opened Wrappers
  import opened RingBuffer

  datatype Errc = Failed | InvalidArguments | InTransitionToSameState | AlreadyInState

  /** What a future holds. */
  datatype Answer = Pending | Value | Error(code: Errc)

  datatype Request = Request(group: string, state: string, slot: nat)

  const REQUEST_SIZE: nat := 24

  class RecoveryClient {
    const ringBuffer: RingBuffer<Request>
    var inUse: seq<bool>
    /** For each slot the future that its promise was last made for. */
    var promise: seq<nat>
    var futures: seq<Answer>
    ghost var home: seq<nat>

    ghost function Requests(): seq<Item<Request>>
      requires ringBuffer.Valid()
      reads this, ringBuffer, ringBuffer.nodes
    {
      ringBuffer.Model().items
    }

    /** The slots in use are those of the requests in the buffer and the one being handled, all different, and
        their futures are pending. */
    ghost predicate Valid(handled: Option<Request>)
      reads this, ringBuffer, ringBuffer.nodes
    {
      && ringBuffer.Valid()
      && (forall k :: 0 <= k < |Requests()| ==> Requests()[k].size == REQUEST_SIZE)
      && Conserved(inUse, promise, futures, home, HandledSlot(handled) + Slots(Requests()))
    }

    constructor (capacity: nat)
      requires capacity > 0
      ensures Valid(None) && Requests() == [] && futures == []
      ensures ringBuffer.capacity == |inUse| == capacity
    {
      ringBuffer := new RingBuffer<Request>(capacity);
      inUse := seq(capacity, i => false);
      promise := seq(capacity, i => 0);
      futures, home := [], [];
    }

    method FindFreeSlot() returns (slot: nat)
      modifies this`inUse
      ensures slot <= |old(inUse)| && forall k :: 0 <= k < slot ==> old(inUse)[k]
      ensures slot < |old(inUse)| ==> !old(inUse)[slot] && inUse == old(inUse)[slot := true]
      ensures slot == |old(inUse)| ==> inUse == old(inUse)
    {
      slot := 0;
      while slot < |inUse|
        invariant slot <= |inUse| && inUse == old(inUse)
        invariant forall k :: 0 <= k < slot ==> inUse[k]
      {
        if !inUse[slot] {
          inUse := inUse[slot := true];
          return;
        }
        slot := slot + 1;
      }
    }

    /** Make a new promise in a free slot, if there is one and the promise gives away its future. */
    method MakePromise(available: bool) returns (slot: nat)
      requires Valid(None)
      modifies this
      ensures |inUse| == |old(inUse)| == |promise| == |old(promise)|
      ensures slot < |old(inUse)| ==>
                && available && !old(inUse)[slot] && inUse == old(inUse)[slot := true]
                && promise == old(promise)[slot := |old(futures)|] && futures == old(futures) + [Pending]
                && Conserved(inUse, promise, futures, home, Slots(Requests()) + [slot])
      ensures slot >= |old(inUse)| ==>
                && (!available || forall k :: 0 <= k < |inUse| ==> inUse[k])
                && inUse == old(inUse) && promise == old(promise) && futures == old(futures) && home == old(home)
    {
      assert |promise| == |inUse|;
      hide Conserved;
      assert HandledSlot(None) + Slots(Requests()) == Slots(Requests());
      slot := FindFreeSlot();
      if slot < |inUse| && !available {
        inUse := inUse[slot := false];
        slot := |inUse|;
      } else if slot < |inUse| {
        ClaimConserved(old(inUse), promise, futures, home, Slots(Requests()), slot);
        promise := promise[slot := |futures|];
        futures, home := futures + [Pending], home + [slot];
      }
    }

    /** The future is pending with a request at the end of the buffer, or it holds an error because no slot or no space
        was left or the promise has no future `available`. */
    method SendRecoveryRequest(group: string, state: string, available: bool) returns (future: nat)
      requires Valid(None)
      modifies this, ringBuffer, ringBuffer.nodes
      ensures Valid(None)
      ensures future == |old(futures)|
      ensures if available && (exists x :: 0 <= x < |old(inUse)| && !old(inUse)[x]) && |old(Requests())| < ringBuffer.capacity then
                && futures == old(futures) + [Pending]
                && exists slot: nat :: Requests() == old(Requests()) + [Item(REQUEST_SIZE, Request(group, state, slot))]
                               && slot < |promise| && promise[slot] == future
              else futures == old(futures) + [Error(Failed)] && Requests() == old(Requests()) && inUse == old(inUse)
    {
      hide Window, Wrapped, Conserved;
      ghost var before := Requests();
      assert HandledSlot(None) + Slots(before) == Slots(before);
      future := |futures|;
      var slot := MakePromise(available);
      if slot < |inUse| {
        var queued := ringBuffer.TryEnqueue(Request(group, state, slot), REQUEST_SIZE);
        if queued {
          assert HandledSlot(None) + Slots(Requests()) == Slots(before) + [slot];
        } else {
          ReorderConserved(inUse, promise, futures, home, Slots(before), slot);
          SetResponse(slot, Error(Failed), Slots(before));
          assert inUse == old(inUse) && futures == old(futures) + [Error(Failed)];
        }
      } else {
        ErrorConserved(inUse, promise, futures, home, Slots(before), slot, Failed);
        futures, home := futures + [Error(Failed)], home + [slot];
      }
    }

    /** Set the promise of a slot and free the slot. */
    method SetResponse(slot: nat, answer: Answer, ghost others: seq<nat>)
      requires Conserved(inUse, promise, futures, home, [slot] + others) && answer != Pending
      modifies this`inUse, this`futures
      ensures slot < |promise| && promise[slot] < |old(futures)| && slot < |old(inUse)|
      ensures inUse == old(inUse)[slot := false] && futures == old(futures)[promise[slot] := answer]
      ensures Conserved(inUse, promise, futures, home, others)
    {
      AnswerConserved(inUse, promise, futures, home, others, slot, answer);
      futures := futures[promise[slot] := answer];
      inUse := inUse[slot := false];
    }

    method GetNextRequest() returns (request: Option<Request>)
      requires Valid(None)
      modifies ringBuffer
      ensures Valid(request)
      ensures if old(Requests()) == [] then request == None && Requests() == []
              else request == Some(old(Requests())[0].value) && Requests() == old(Requests())[1..]
    {
      hide Conserved;
      ghost var before := Requests();
      request := ringBuffer.TryDequeue(REQUEST_SIZE);
      if request.Some? {
        SlotsOfRest(before);
      }
    }
  }

  ghost function Slots(items: seq<Item<Request>>): (slots: seq<nat>)
    ensures |slots| == |items|
    ensures forall k :: 0 <= k < |items| ==> slots[k] == items[k].value.slot
  {
    seq(|items|, k requires 0 <= k < |items| => items[k].value.slot)
  }

  lemma SlotsOfRest(items: seq<Item<Request>>)
    requires items != []
    ensures HandledSlot(None) + Slots(items) == HandledSlot(Some(items[0].value)) + Slots(items[1..])
  {
  }

  ghost function HandledSlot(handled: Option<Request>): seq<nat> {
    match handled
    case Some(r) => [r.slot]
    case None => []
  }

  /** The slots in use are exactly `slots`, all different; their futures are pending; every other
      future has been answered. */
  ghost predicate Conserved(inUse: seq<bool>, promise: seq<nat>, futures: seq<Answer>, home: seq<nat>, slots: seq<nat>) {
    && |promise| == |inUse| && |home| == |futures|
    && (forall j, k :: 0 <= j < k < |slots| ==> slots[j] != slots[k])
    && (forall x :: x in slots ==> x < |inUse|)
    && (forall x :: 0 <= x < |inUse| ==> (inUse[x] <==> x in slots))
    && (forall x :: x in slots ==>
          promise[x] < |futures| && futures[promise[x]] == Pending && home[promise[x]] == x)
    && forall f :: 0 <= f < |futures| && futures[f] == Pending ==> home[f] in slots && promise[home[f]] == f
  }

  lemma ClaimConserved(inUse: seq<bool>, promise: seq<nat>, futures: seq<Answer>, home: seq<nat>,
                       slots: seq<nat>, slot: nat)
    requires Conserved(inUse, promise, futures, home, slots)
    requires slot < |inUse| && !inUse[slot]
    ensures Conserved(inUse[slot := true], promise[slot := |futures|], futures + [Pending], home + [slot], slots + [slot])
  {
    assert forall x :: x in slots + [slot] <==> x in slots || x == slot;
  }

  lemma AnswerConserved(inUse: seq<bool>, promise: seq<nat>, futures: seq<Answer>, home: seq<nat>,
                        slots: seq<nat>, slot: nat, answer: Answer)
    requires Conserved(inUse, promise, futures, home, [slot] + slots) && answer != Pending
    ensures slot < |inUse| && promise[slot] < |futures|
    ensures Conserved(inUse[slot := false], promise, futures[promise[slot] := answer], home, slots)
  {
    var all := [slot] + slots;
    assert all[0] == slot;
    assert forall k :: 0 <= k < |slots| ==> slots[k] == all[k + 1];
    assert forall x :: x in all <==> x in slots || x == slot;
    assert slot !in slots;
  }

  lemma ErrorConserved(inUse: seq<bool>, promise: seq<nat>, futures: seq<Answer>, home: seq<nat>,
                       slots: seq<nat>, slot: nat, code: Errc)
    requires Conserved(inUse, promise, futures, home, slots)
    ensures Conserved(inUse, promise, futures + [Error(code)], home + [slot], slots)
  {
  }

  lemma ReorderConserved(inUse: seq<bool>, promise: seq<nat>, futures: seq<Answer>, home: seq<nat>,
                         slots: seq<nat>, slot: nat)
    requires Conserved(inUse, promise, futures, home, slots + [slot])
    ensures Conserved(inUse, promise, futures, home, [slot] + slots)
  {
    var a, b := slots + [slot], [slot] + slots;
    assert forall x :: x in a <==> x in b;
    forall j, k | 0 <= j < k < |b| ensures b[j] != b[k] {
      assert b[k] == a[k - 1] && b[j] == if j == 0 then a[|slots|] else a[j - 1];
    }
  }

  // ---- The handler ----

  /** A process group as the handler sees it; `busy` says that jobs are in flight. */
  datatype Group = Group(state: GraphState, current: string, pending: string, busy: bool)

  /** Cancelling a transition. */
  function Cancelled(g: Group): Group {
    g.(state := if g.busy then GraphState.Cancelled else Undefined)
  }

  function Decide(groups: map<string, Group>, r: Request): (map<string, Group>, Answer) {
    if r.group !in groups then (groups, Error(InvalidArguments))
    else
      var g := groups[r.group];
      if g.state == InTransition then
        if g.current != r.state then (groups[r.group := Cancelled(g.(pending := r.state))], Value)
        else (groups, Error(InTransitionToSameState))
      else if g.state == Success && g.current == r.state then (groups, Error(AlreadyInState))
      else (groups[r.group := g.(pending := r.state)], Value)
  }

  /** All requests, one after the other. */
  function DecideAll(groups: map<string, Group>, requests: seq<Item<Request>>): (r: (map<string, Group>, seq<Answer>))
    ensures |r.1| == |requests|
  {
    if requests == [] then (groups, [])
    else
      var (next, answer) := Decide(groups, requests[0].value);
      var (last, answers) := DecideAll(next, requests[1..]);
      (last, [answer] + answers)
  }

  lemma DecideAllFirst(groups: map<string, Group>, requests: seq<Item<Request>>)
    requires requests != []
    ensures var first := Decide(groups, requests[0].value);
            var rest := DecideAll(first.0, requests[1..]);
            first.1 != Pending && DecideAll(groups, requests) == (rest.0, [first.1] + rest.1)
  {
  }

  /** Request `k` is the last one for its group that was accepted. */
  ghost predicate LastAccepted(requests: seq<Item<Request>>, answers: seq<Answer>, k: nat)
    requires |answers| == |requests| && k < |answers|
  {
    && answers[k] == Value
    && forall j :: k < j < |answers| && requests[j].value.group == requests[k].value.group ==> answers[j] != Value
  }

  /** A group none of whose requests is accepted stays as it is. */
  lemma {:induction false} RefusedChangesNothing(groups: map<string, Group>, requests: seq<Item<Request>>, name: string)
    requires name in groups
    requires var answers := DecideAll(groups, requests).1;
             forall k :: 0 <= k < |answers| && requests[k].value.group == name ==> answers[k] != Value
    ensures var after := DecideAll(groups, requests).0; name in after && after[name] == groups[name]
    decreases |requests|
  {
    if requests != [] {
      DecideAllFirst(groups, requests);
      var first, answers := Decide(groups, requests[0].value), DecideAll(groups, requests).1;
      assert answers[0] == first.1 && answers[1..] == DecideAll(first.0, requests[1..]).1;
      assert forall k :: 0 <= k < |answers| - 1 ==> answers[1..][k] == answers[k + 1];
      RefusedChangesNothing(first.0, requests[1..], name);
    }
  }

  /** Otherwise the last accepted request decides which state is pending, and a transition that was going on has
      been cancelled. */
  lemma {:induction false} LastAcceptedDecides(groups: map<string, Group>, requests: seq<Item<Request>>, k: nat)
    requires k < |requests| && LastAccepted(requests, DecideAll(groups, requests).1, k)
    ensures var after, name := DecideAll(groups, requests).0, requests[k].value.group;
            && name in groups && name in after
            && after[name].pending == requests[k].value.state && after[name].current == groups[name].current
            && after[name].state != InTransition
    decreases |requests|
  {
    DecideAllFirst(groups, requests);
    var first, answers := Decide(groups, requests[0].value), DecideAll(groups, requests).1;
    var rest := requests[1..];
    assert answers[0] == first.1 && answers[1..] == DecideAll(first.0, rest).1;
    assert forall j :: 0 <= j < |rest| ==> answers[1..][j] == answers[j + 1] && rest[j] == requests[j + 1];
    if k == 0 {
      RefusedChangesNothing(first.0, rest, requests[0].value.group);
    } else {
      LastAcceptedDecides(first.0, rest, k - 1);
    }
  }

  /** Among the first `k` requests one asks the group for a state other than `current`. */
  ghost predicate AsksElse(requests: seq<Item<Request>>, k: nat, name: string, current: string)
    requires k <= |requests|
  {
    exists j :: 0 <= j < k && requests[j].value.group == name && requests[j].value.state != current
  }

  /** The answer to request `k`, told from the groups before any request was handled. */
  ghost function Promised(groups: map<string, Group>, requests: seq<Item<Request>>, k: nat): Answer
    requires k < |requests|
  {
    var r := requests[k].value;
    if r.group !in groups then Error(InvalidArguments)
    else
      var g := groups[r.group];
      if g.state == Success && r.state == g.current then Error(AlreadyInState)
      else if g.state == InTransition && !AsksElse(requests, k + 1, r.group, g.current) then Error(InTransitionToSameState)
      else Value
  }

  /** The state of a group after the requests: a transition is cancelled by the first request for another state, and
      is undefined at once if it has no job in flight; nothing else changes the state. */
  ghost function PromisedState(g: Group, name: string, requests: seq<Item<Request>>): GraphState {
    if g.state == InTransition && AsksElse(requests, |requests|, name, g.current) then
      if g.busy then GraphState.Cancelled else Undefined
    else g.state
  }

  /** What one request does to the groups, and to what is promised for the requests after it. */
  lemma FirstKeepsPromise(groups: map<string, Group>, requests: seq<Item<Request>>, k: nat)
    requires 0 < k < |requests|
    ensures Promised(Decide(groups, requests[0].value).0, requests[1..], k - 1) == Promised(groups, requests, k)
  {
    var r, rest := requests[k].value, requests[1..];
    assert rest[k - 1] == requests[k];
    if r.group in groups {
      AsksElseFirst(requests, k + 1, r.group, groups[r.group].current);
    }
  }

  lemma AsksElseFirst(requests: seq<Item<Request>>, k: nat, name: string, current: string)
    requires 0 < k <= |requests|
    ensures AsksElse(requests, k, name, current) <==>
            || (requests[0].value.group == name && requests[0].value.state != current)
            || AsksElse(requests[1..], k - 1, name, current)
  {
    var rest := requests[1..];
    if j :| 0 < j < k && requests[j].value.group == name && requests[j].value.state != current {
      assert rest[j - 1] == requests[j];
    }
    if j :| 0 <= j < k - 1 && rest[j].value.group == name && rest[j].value.state != current {
      assert requests[j + 1] == rest[j];
    }
  }

  /** The answers of the whole drain, told from the groups before it. A group that is not known is an invalid argument;
      a group in success refuses exactly its own state; a group in transition refuses its own state until the first
      request for another one has cancelled the transition; and everything else is accepted. */
  lemma {:induction false} AnswersAsPromised(groups: map<string, Group>, requests: seq<Item<Request>>, k: nat)
    requires k < |requests|
    ensures DecideAll(groups, requests).1[k] == Promised(groups, requests, k)
    decreases |requests|
  {
    DecideAllFirst(groups, requests);
    if k == 0 {
      FirstAnswer(groups, requests);
    } else {
      hide Decide, Promised, DecideAll;
      AnswersAsPromised(Decide(groups, requests[0].value).0, requests[1..], k - 1);
      FirstKeepsPromise(groups, requests, k);
    }
  }

  lemma FirstAnswer(groups: map<string, Group>, requests: seq<Item<Request>>)
    requires requests != []
    ensures Decide(groups, requests[0].value).1 == Promised(groups, requests, 0)
  {
    var r := requests[0].value;
    if r.group in groups {
      AsksElseFirst(requests, 1, r.group, groups[r.group].current);
    }
  }

  /** The groups after the whole drain: the same ones, each with the state that is promised, and with its own name and jobs. */
  lemma {:induction false} GroupsAsPromised(groups: map<string, Group>, requests: seq<Item<Request>>, name: string)
    ensures var after := DecideAll(groups, requests).0;
            && after.Keys == groups.Keys
            && (name in groups ==>
                  && after[name].state == PromisedState(groups[name], name, requests)
                  && after[name].current == groups[name].current && after[name].busy == groups[name].busy)
    decreases |requests|
  {
    if requests != [] {
      DecideAllFirst(groups, requests);
      GroupsAsPromised(Decide(groups, requests[0].value).0, requests[1..], name);
      if name in groups {
        AsksElseFirst(requests, |requests|, name, groups[name].current);
      }
    }
  }

  method HandleRequest(groups: map<string, Group>, r: Request) returns (after: map<string, Group>, answer: Answer)
    ensures (after, answer) == Decide(groups, r)
  {
    after := groups;
    if r.group !in groups {
      return after, Error(InvalidArguments);
    }
    var g := groups[r.group];
    if g.state == InTransition {
      if g.current != r.state {
        return groups[r.group := Cancelled(g.(pending := r.state))], Value;
      }
      return after, Error(InTransitionToSameState);
    }
    if g.state == Success && g.current == r.state {
      return after, Error(AlreadyInState);
    }
    return groups[r.group := g.(pending := r.state)], Value;
  }

  /** Draining the buffer answers the future of every request in it, in order, leaves the futures answered before
      alone and frees every slot. */
  method RecoveryActionHandler(client: RecoveryClient, groups: map<string, Group>) returns (after: map<string, Group>)
    requires client.Valid(None)
    modifies client, client.ringBuffer
    ensures client.Valid(None) && client.Requests() == [] && client.promise == old(client.promise)
    ensures |client.futures| == |old(client.futures)|
    ensures after == DecideAll(groups, old(client.Requests())).0
    ensures forall k :: 0 <= k < |old(client.Requests())| ==>
              var x := old(client.Requests())[k].value.slot;
              && x < |client.promise| && client.promise[x] < |client.futures|
              && client.futures[client.promise[x]] == DecideAll(groups, old(client.Requests())).1[k]
              && client.futures[client.promise[x]] == Promised(groups, old(client.Requests()), k)
    ensures forall f :: 0 <= f < |client.futures| && old(client.futures)[f] != Pending ==>
              client.futures[f] == old(client.futures)[f]
  {
    hide Conserved, Progress, Decide, DecideAll, Promised, Window, Wrapped, Slots, HandledSlot;
    after := groups;
    ghost var all, done, before := client.Requests(), [], client.futures;
    var request := client.GetNextRequest();
    ProgressBegins(groups, all, client.promise, before);
    while request.Some?
      invariant client.Valid(request) && |done| <= |all|
      invariant if |done| == |all| then request == None && client.Requests() == []
                else request == Some(all[|done|].value) && client.Requests() == all[|done| + 1..]
      invariant client.promise == old(client.promise)
      invariant Progress(groups, after, all, done, client.promise, before, client.futures)
      decreases |all| - |done|
    {
      ghost var groups1, futures1 := after, client.futures;
      var answer;
      after, answer := Serve(client, after, request.value);
      ProgressGoesOn(groups, groups1, all, done, client.promise, before, futures1);
      done := done + [answer];
      request := client.GetNextRequest();
    }
    ProgressEnds(groups, after, all, done, client.promise, before, client.futures);
    forall k | 0 <= k < |all| ensures done[k] == Promised(groups, all, k) {
      AnswersAsPromised(groups, all, k);
    }
  }

  /** The requests that have been served have the answers `done`, the rest will go on from the groups as they
      are, and no other future has changed. */
  ghost predicate Progress(groups: map<string, Group>, now: map<string, Group>, all: seq<Item<Request>>,
                           done: seq<Answer>, promise: seq<nat>, before: seq<Answer>, futures: seq<Answer>)
    requires |done| <= |all|
  {
    && |futures| == |before|
    && DecideAll(groups, all).0 == DecideAll(now, all[|done|..]).0
    && DecideAll(groups, all).1 == done + DecideAll(now, all[|done|..]).1
    && (forall k :: 0 <= k < |done| ==>
          var x := all[k].value.slot;
          x < |promise| && promise[x] < |futures| && futures[promise[x]] == done[k] && done[k] != Pending)
    && forall f :: 0 <= f < |futures| && before[f] != Pending ==> futures[f] == before[f]
  }

  lemma ProgressBegins(groups: map<string, Group>, all: seq<Item<Request>>, promise: seq<nat>, before: seq<Answer>)
    ensures Progress(groups, groups, all, [], promise, before, before)
  {
    assert all[0..] == all;
  }

  lemma ProgressGoesOn(groups: map<string, Group>, now: map<string, Group>, all: seq<Item<Request>>,
                       done: seq<Answer>, promise: seq<nat>, before: seq<Answer>, futures: seq<Answer>)
    requires |done| < |all| && Progress(groups, now, all, done, promise, before, futures)
    requires var x := all[|done|].value.slot;
             x < |promise| && promise[x] < |futures| && futures[promise[x]] == Pending
    ensures var (next, answer) := Decide(now, all[|done|].value);
            Progress(groups, next, all, done + [answer], promise, before,
                     futures[promise[all[|done|].value.slot] := answer])
  {
    hide Decide;
    var rest := all[|done|..];
    assert rest[0] == all[|done|] && rest[1..] == all[|done| + 1..];
    DecideAllFirst(now, rest);
    var (next, answer) := Decide(now, rest[0].value);
    assert done + ([answer] + DecideAll(next, rest[1..]).1) == (done + [answer]) + DecideAll(next, rest[1..]).1;
  }

  lemma ProgressEnds(groups: map<string, Group>, now: map<string, Group>, all: seq<Item<Request>>,
                     done: seq<Answer>, promise: seq<nat>, before: seq<Answer>, futures: seq<Answer>)
    requires |done| == |all| && Progress(groups, now, all, done, promise, before, futures)
    ensures now == DecideAll(groups, all).0 && done == DecideAll(groups, all).1 && |futures| == |before|
    ensures forall k :: 0 <= k < |all| ==>
              var x := all[k].value.slot; x < |promise| && promise[x] < |futures| && futures[promise[x]] == done[k]
    ensures forall f :: 0 <= f < |futures| && before[f] != Pending ==> futures[f] == before[f]
  {
  }

  /** Answer one request and free its slot. */
  method Serve(client: RecoveryClient, groups: map<string, Group>, r: Request)
      returns (after: map<string, Group>, answer: Answer)
    requires client.Valid(Some(r))
    modifies client`inUse, client`futures
    ensures client.Valid(None) && client.Requests() == old(client.Requests())
    ensures (after, answer) == Decide(groups, r)
    ensures r.slot < |client.promise| && client.promise[r.slot] < |old(client.futures)|
    ensures old(client.futures)[client.promise[r.slot]] == Pending
    ensures client.futures == old(client.futures)[client.promise[r.slot] := answer]
  {
    after, answer := HandleRequest(groups, r);
    ghost var others := Slots(client.Requests());
    HandledIsPending(client.inUse, client.promise, client.futures, client.home, others, r.slot);
    hide Conserved;
    client.SetResponse(r.slot, answer, others);
    assert HandledSlot(None) + others == others;
  }

  lemma HandledIsPending(inUse: seq<bool>, promise: seq<nat>, futures: seq<Answer>, home: seq<nat>,
                         slots: seq<nat>, slot: nat)
    requires Conserved(inUse, promise, futures, home, [slot] + slots)
    ensures slot < |promise| && promise[slot] < |futures| && futures[promise[slot]] == Pending
  {
    assert slot in [slot] + slots;
  }
}
