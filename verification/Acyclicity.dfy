/** Dependencies without a cycle can be ranked, and only those. */
module Acyclicity {
  import opened Counting

  /** `p` goes from each process to one it depends on, and from the last back to the first. */
  ghost predicate Cycle(deps: seq<seq<nat>>, p: seq<nat>) {
    && |p| > 0
    && (forall k :: 0 <= k < |p| ==> p[k] < |deps|)
    && (forall k :: 0 <= k < |p| - 1 ==> p[k + 1] in deps[p[k]])
    && p[0] in deps[p[|p| - 1]]
  }

  ghost predicate Acyclic(deps: seq<seq<nat>>) {
    forall p :: !Cycle(deps, p)
  }

  /** Every process ranks above those it depends on. */
  ghost predicate RankedBy(deps: seq<seq<nat>>, rank: seq<nat>) {
    && |rank| == |deps|
    && forall i, d: nat :: 0 <= i < |deps| && d in deps[i] && d < |deps| ==> rank[d] < rank[i]
  }

  ghost predicate InRange(deps: seq<seq<nat>>, s: set<nat>) {
    forall i :: i in s ==> i < |deps|
  }

  ghost predicate NoneInside(deps: seq<seq<nat>>, s: set<nat>, i: nat)
    requires i < |deps|
  {
    forall d :: d in deps[i] ==> d !in s
  }

  // ---- Without a cycle, every set of processes has one that depends on none of the others ----

  /** A walk inside `s` along dependencies. */
  ghost predicate Walk(deps: seq<seq<nat>>, s: set<nat>, p: seq<nat>)
    requires InRange(deps, s)
  {
    && (forall k :: 0 <= k < |p| ==> p[k] in s)
    && (forall k :: 0 <= k < |p| - 1 ==> p[k + 1] in deps[p[k]])
  }

  lemma WalkOn(deps: seq<seq<nat>>, s: set<nat>, q: seq<nat>, d: nat)
    requires InRange(deps, s) && q != [] && Walk(deps, s, q) && q[|q| - 1] < |deps| && d in deps[q[|q| - 1]] && d in s
    ensures Walk(deps, s, q + [d])
  {
  }

  lemma {:induction false} LongWalk(deps: seq<seq<nat>>, s: set<nat>, n: nat) returns (p: seq<nat>)
    requires InRange(deps, s) && s != {}
    requires forall i :: i in s ==> !NoneInside(deps, s, i)
    ensures |p| == n + 1 && Walk(deps, s, p)
  {
    if n == 0 {
      var i :| i in s;
      p := [i];
    } else {
      var q := LongWalk(deps, s, n - 1);
      var last := q[|q| - 1];
      assert !NoneInside(deps, s, last);
      var d :| d in deps[last] && d in s;
      p := q + [d];
      WalkOn(deps, s, q, d);
    }
  }

  /** A sequence longer than the set it draws from repeats itself. */
  lemma {:induction false} Repeats(s: set<nat>, p: seq<nat>) returns (a: nat, b: nat)
    requires |p| > |s|
    requires forall k :: 0 <= k < |p| ==> p[k] in s
    ensures a < b < |p| && p[a] == p[b]
    decreases |s|
  {
    var last := p[|p| - 1];
    if k :| 0 <= k < |p| - 1 && p[k] == last {
      a, b := k, |p| - 1;
    } else {
      assert last in s;
      a, b := Repeats(s - {last}, p[..|p| - 1]);
    }
  }

  lemma SomeSource(deps: seq<seq<nat>>, s: set<nat>) returns (i: nat)
    requires Acyclic(deps) && InRange(deps, s) && s != {}
    ensures i in s && NoneInside(deps, s, i)
  {
    if j :| j in s && NoneInside(deps, s, j) {
      i := j;
    } else {
      var p := WalkRound(deps, s);
      assert false;
    }
  }

  lemma WalkRound(deps: seq<seq<nat>>, s: set<nat>) returns (p: seq<nat>)
    requires InRange(deps, s) && s != {} && forall j :: j in s ==> !NoneInside(deps, s, j)
    ensures Cycle(deps, p)
  {
    p := LongWalk(deps, s, |s|);
    var a, b := Repeats(s, p);
    p := p[a..b];
  }

  // ---- Ranking ----

  ghost function Everyone(deps: seq<seq<nat>>): set<nat> {
    Below(|deps|)
  }

  /** The members of `ranked` rank above those they depend on, which are all in `ranked`. */
  ghost predicate PartlyRanked(deps: seq<seq<nat>>, ranked: set<nat>, rank: map<nat, nat>) {
    && InRange(deps, ranked)
    && rank.Keys == ranked
    && (forall i :: i in ranked ==> rank[i] < |ranked|)
    && (forall i :: i in ranked ==> Above(deps, rank, i))
  }

  ghost predicate Above(deps: seq<seq<nat>>, rank: map<nat, nat>, i: nat)
    requires i < |deps| && i in rank
  {
    forall d :: d in deps[i] && d < |deps| ==> d in rank && rank[d] < rank[i]
  }

  lemma RankOne(deps: seq<seq<nat>>, ranked: set<nat>, rank: map<nat, nat>, i: nat)
    requires PartlyRanked(deps, ranked, rank) && i < |deps| && i !in ranked
    requires forall d :: d in deps[i] && d < |deps| ==> d in ranked
    ensures PartlyRanked(deps, ranked + {i}, rank[i := |ranked|])
  {
    var rank1 := rank[i := |ranked|];
    assert rank1.Keys == ranked + {i};
    forall k | k in ranked + {i}
      ensures Above(deps, rank1, k)
    {
      assert k in ranked ==> Above(deps, rank, k);
    }
  }

  lemma {:induction false} RankRest(deps: seq<seq<nat>>, ranked: set<nat>, rank: map<nat, nat>) returns (r: map<nat, nat>)
    requires Acyclic(deps) && PartlyRanked(deps, ranked, rank)
    ensures PartlyRanked(deps, Everyone(deps), r)
    decreases Everyone(deps) - ranked
  {
    hide Below;
    var rest := Everyone(deps) - ranked;
    if rest == {} {
      assert ranked == Everyone(deps);
      r := rank;
    } else {
      var i := SomeSource(deps, rest);
      RankOne(deps, ranked, rank, i);
      r := RankRest(deps, ranked + {i}, rank[i := |ranked|]);
    }
  }

  /** Dependencies without a cycle can be ranked. */
  lemma AcyclicRanked(deps: seq<seq<nat>>) returns (rank: seq<nat>)
    requires Acyclic(deps)
    ensures RankedBy(deps, rank)
  {
    var r := RankRest(deps, {}, map[]);
    rank := seq(|deps|, i requires 0 <= i < |deps| => assert i in r.Keys; r[i]);
    assert forall i: nat :: i < |deps| ==> Above(deps, r, i);
  }

  lemma {:induction false} RanksFall(deps: seq<seq<nat>>, rank: seq<nat>, p: seq<nat>, k: nat)
    requires RankedBy(deps, rank) && Cycle(deps, p) && k < |p|
    ensures rank[p[k]] <= rank[p[0]]
  {
    if k > 0 {
      RanksFall(deps, rank, p, k - 1);
    }
  }

  /** Ranked dependencies have no cycle. */
  lemma RankedAcyclic(deps: seq<seq<nat>>, rank: seq<nat>)
    requires RankedBy(deps, rank)
    ensures Acyclic(deps)
  {
    forall p
      ensures !Cycle(deps, p)
    {
      if Cycle(deps, p) {
        RanksFall(deps, rank, p, |p| - 1);
      }
    }
  }

  lemma {:induction false} Highest(s: set<nat>, rank: seq<nat>) returns (i: nat)
    requires s != {} && forall k :: k in s ==> k < |rank|
    ensures i in s && forall k :: k in s ==> rank[k] <= rank[i]
  {
    i :| i in s;
    if s != {i} {
      var j := Highest(s - {i}, rank);
      if rank[i] < rank[j] {
        i := j;
      }
    }
  }

  lemma {:induction false} Lowest(s: set<nat>, rank: seq<nat>) returns (i: nat)
    requires s != {} && forall k :: k in s ==> k < |rank|
    ensures i in s && forall k :: k in s ==> rank[i] <= rank[k]
  {
    i :| i in s;
    if s != {i} {
      var j := Lowest(s - {i}, rank);
      if rank[j] < rank[i] {
        i := j;
      }
    }
  }
}
