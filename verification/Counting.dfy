/** Counting entries of dependency lists. A list may name the same process twice,
    and every entry is waited for separately. */
module Counting {

  /** How many entries of `list` are `x`. */
  function Count(list: seq<nat>, x: nat): nat {
    if list == [] then 0 else (if list[0] == x then 1 else 0) + Count(list[1..], x)
  }

  /** How many entries of `list` are not in `done`. */
  function CountOutside(list: seq<nat>, done: set<nat>): nat {
    if list == [] then 0 else (if list[0] in done then 0 else 1) + CountOutside(list[1..], done)
  }

  /** How many entries naming `x` there are in the lists of the members of `holders`
      among the first `k` lists. */
  function CountHeld(lists: seq<seq<nat>>, holders: set<nat>, x: nat, k: nat): nat
    requires k <= |lists|
  {
    if k == 0 then 0
    else CountHeld(lists, holders, x, k - 1) + (if k - 1 in holders then Count(lists[k - 1], x) else 0)
  }

  /** The numbers below `n`. */
  function Below(n: nat): (s: set<nat>)
    ensures forall i: nat :: i in s <==> i < n
    ensures |s| == n
  {
    if n == 0 then {} else Below(n - 1) + {n - 1}
  }

  function Minus(a: nat, b: nat): nat {
    if a <= b then 0 else a - b
  }

  lemma {:induction false} CountPositive(list: seq<nat>, x: nat)
    ensures Count(list, x) > 0 <==> x in list
  {
    if list != [] {
      CountPositive(list[1..], x);
    }
  }

  lemma {:induction false} CountAppend(a: seq<nat>, b: seq<nat>, x: nat)
    ensures Count(a + b, x) == Count(a, x) + Count(b, x)
  {
    if a == [] {
      assert a + b == b;
    } else {
      assert (a + b)[1..] == a[1..] + b;
      CountAppend(a[1..], b, x);
    }
  }

  lemma {:induction false} CountOutsideZero(list: seq<nat>, done: set<nat>)
    ensures CountOutside(list, done) == 0 <==> forall d :: d in list ==> d in done
  {
    if list != [] {
      CountOutsideZero(list[1..], done);
      assert forall d :: d in list <==> d == list[0] || d in list[1..];
    }
  }

  /** Marking one more process done lowers the count by its number of entries. */
  lemma {:induction false} CountOutsideAdd(list: seq<nat>, done: set<nat>, x: nat)
    ensures x !in done ==> CountOutside(list, done + {x}) + Count(list, x) == CountOutside(list, done)
    ensures x in done ==> CountOutside(list, done + {x}) == CountOutside(list, done)
  {
    if list != [] {
      CountOutsideAdd(list[1..], done, x);
    }
  }

  lemma {:induction false} CountHeldZero(lists: seq<seq<nat>>, holders: set<nat>, x: nat, k: nat)
    requires k <= |lists|
    ensures CountHeld(lists, holders, x, k) == 0 <==> forall h :: 0 <= h < k && h in holders ==> x !in lists[h]
  {
    if k > 0 {
      CountHeldZero(lists, holders, x, k - 1);
      CountPositive(lists[k - 1], x);
    }
  }

  /** Dropping one holder lowers the count by that holder's number of entries. */
  lemma {:induction false} CountHeldRemove(lists: seq<seq<nat>>, holders: set<nat>, x: nat, h: nat, k: nat)
    requires k <= |lists|
    requires h in holders
    ensures CountHeld(lists, holders, x, k) ==
            CountHeld(lists, holders - {h}, x, k) + (if h < k then Count(lists[h], x) else 0)
  {
    if k > 0 {
      CountHeldRemove(lists, holders, x, h, k - 1);
    }
  }

  /** A multiset without repetitions is no larger than a set that holds its elements. */
  lemma {:induction false} DistinctFits(m: multiset<nat>, s: set<nat>)
    requires forall x: nat :: m[x] <= 1
    requires forall x: nat :: x in m ==> x in s
    ensures |m| <= |s|
    decreases |m|
  {
    if |m| > 0 {
      var x :| x in m;
      var m1 := m - multiset{x};
      assert m == m1 + multiset{x};
      DistinctFits(m1, s - {x});
    }
  }

  // ---- Counting the same entries from the other side ----

  /** How many entries of `list` are in `members`. */
  function CountIn(list: seq<nat>, members: set<nat>): nat {
    if list == [] then 0 else (if list[0] in members then 1 else 0) + CountIn(list[1..], members)
  }

  /** The same, added up over the possible entries below `k`. */
  function CountInBelow(list: seq<nat>, members: set<nat>, k: nat): nat {
    if k == 0 then 0
    else CountInBelow(list, members, k - 1) + (if k - 1 in members then Count(list, k - 1) else 0)
  }

  lemma {:induction false} CountInBelowCons(x: nat, list: seq<nat>, members: set<nat>, k: nat)
    ensures CountInBelow([x] + list, members, k) ==
            CountInBelow(list, members, k) + (if x < k && x in members then 1 else 0)
  {
    if k > 0 {
      CountInBelowCons(x, list, members, k - 1);
      assert ([x] + list)[1..] == list;
    }
  }

  lemma {:induction false} CountInByValue(list: seq<nat>, members: set<nat>, k: nat)
    requires forall x :: x in list ==> x < k
    ensures CountIn(list, members) == CountInBelow(list, members, k)
  {
    if list == [] {
      CountInBelowEmpty(members, k);
    } else {
      assert list[0] in list && forall x :: x in list[1..] ==> x in list;
      CountInByValue(list[1..], members, k);
      CountInBelowCons(list[0], list[1..], members, k);
      assert [list[0]] + list[1..] == list;
    }
  }

  lemma {:induction false} CountInBelowEmpty(members: set<nat>, k: nat)
    ensures CountInBelow([], members, k) == 0
  {
    if k > 0 {
      CountInBelowEmpty(members, k - 1);
    }
  }

  /** `list` names every dependent of `x` as often as that one's list names `x`. */
  ghost predicate Transposes(list: seq<nat>, lists: seq<seq<nat>>, x: nat) {
    && (forall k :: k in list ==> k < |lists|)
    && (forall k: nat :: k < |lists| ==> Count(list, k) == Count(lists[k], x))
  }

  lemma {:induction false} HeldByValue(list: seq<nat>, lists: seq<seq<nat>>, holders: set<nat>, x: nat, k: nat)
    requires Transposes(list, lists, x) && k <= |lists|
    ensures CountInBelow(list, holders, k) == CountHeld(lists, holders, x, k)
  {
    if k > 0 {
      HeldByValue(list, lists, holders, x, k - 1);
    }
  }

  /** Counting dependents that are holders is counting what holders hold. */
  lemma CountInTransposed(list: seq<nat>, lists: seq<seq<nat>>, holders: set<nat>, x: nat)
    requires Transposes(list, lists, x)
    ensures CountIn(list, holders) == CountHeld(lists, holders, x, |lists|)
  {
    CountInByValue(list, holders, |lists|);
    HeldByValue(list, lists, holders, x, |lists|);
  }

  lemma {:induction false} CountInAppend(a: seq<nat>, b: seq<nat>, members: set<nat>)
    ensures CountIn(a + b, members) == CountIn(a, members) + CountIn(b, members)
  {
    if a == [] {
      assert a + b == b;
    } else {
      assert (a + b)[1..] == a[1..] + b;
      CountInAppend(a[1..], b, members);
    }
  }

  lemma {:induction false} CountOutsideAppend(a: seq<nat>, b: seq<nat>, done: set<nat>)
    ensures CountOutside(a + b, done) == CountOutside(a, done) + CountOutside(b, done)
  {
    if a == [] {
      assert a + b == b;
    } else {
      assert (a + b)[1..] == a[1..] + b;
      CountOutsideAppend(a[1..], b, done);
    }
  }
}
