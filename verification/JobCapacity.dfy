/** All process groups share one job queue, sized by the total number of processes. It never overflows. */
module JobCapacity {
  import opened Counting
  import opened Engine
  import opened EngineInvariant

  const MAX_PROCESSES: nat := 1024

  function Sum(sizes: seq<nat>): nat {
    if sizes == [] then 0 else Sum(sizes[..|sizes| - 1]) + sizes[|sizes| - 1]
  }

  /** Every element adds its value. */
  lemma {:induction false} SumAdds(a: seq<nat>, b: seq<nat>)
    ensures Sum(a + b) == Sum(a) + Sum(b) && forall x: nat :: Sum([x]) == x
    decreases |b|
  {
    if b == [] {
      assert a + b == a;
    } else {
      var rest := b[..|b| - 1];
      assert (a + b)[..|a + b| - 1] == a + rest;
      SumAdds(a, rest);
    }
  }

  lemma SumOfPrefix(sizes: seq<nat>, k: nat)
    requires k <= |sizes|
    ensures Sum(sizes[..k]) <= Sum(sizes)
  {
    assert sizes == sizes[..k] + sizes[k..];
    SumAdds(sizes[..k], sizes[k..]);
  }

  /** Create the graphs of the configured groups, whose numbers of processes are `sizes`, and add up
      their processes. It succeeds exactly when there is a group and all processes together are within the
      limit; otherwise it has created the groups before the first that exceeded the limit. */
  method InitializeProcessGroups(sizes: seq<nat>) returns (ok: bool, groups: seq<nat>, total: nat)
    ensures ok <==> sizes != [] && Sum(sizes) <= MAX_PROCESSES
    ensures ok ==> groups == sizes
    ensures groups <= sizes && total == Sum(groups) <= MAX_PROCESSES
    ensures !ok && sizes != [] ==> |groups| < |sizes| && Sum(sizes[..|groups| + 1]) > MAX_PROCESSES
  {
    ok, groups, total := false, [], 0;
    if sizes != [] {
      ok := true;
      var k := 0;
      while k < |sizes|
        invariant 0 <= k <= |sizes|
        invariant ok && groups == sizes[..k]
        invariant total == Sum(groups) <= MAX_PROCESSES
      {
        assert sizes[..k + 1][..k] == sizes[..k];
        if total + sizes[k] <= MAX_PROCESSES {
          groups := groups + [sizes[k]];
          total := total + sizes[k];
          assert groups == sizes[..k + 1];
        } else {
          ok := false;
          SumOfPrefix(sizes, k + 1);
          break;
        }
        k := k + 1;
      }
      assert ok ==> groups == sizes;
    }
  }

  /** The groups of one launch manager: configuration and state of each. */
  datatype System = System(configs: seq<Config>, engines: seq<Engine>)

  function Sizes(configs: seq<Config>): seq<nat> {
    seq(|configs|, g requires 0 <= g < |configs| => |configs[g].deps|)
  }

  function QueueLengths(engines: seq<Engine>): seq<nat> {
    seq(|engines|, g requires 0 <= g < |engines| => |engines[g].queued|)
  }

  ghost predicate SystemInv(s: System) {
    && |s.configs| == |s.engines|
    && forall g :: 0 <= g < |s.engines| ==> Inv(s.configs[g], s.engines[g])
  }

  datatype SystemStep = SystemStep(group: nat, step: Step)

  ghost predicate SystemEnabled(s: System, t: SystemStep) {
    && |s.configs| == |s.engines| && t.group < |s.engines|
    && Sized(s.configs[t.group], s.engines[t.group])
    && Enabled(s.configs[t.group], s.engines[t.group], t.step)
  }

  function SystemApply(s: System, t: SystemStep): System
    requires SystemEnabled(s, t)
  {
    s.(engines := s.engines[t.group := Apply(s.configs[t.group], s.engines[t.group], t.step)])
  }

  function InitialSystem(configs: seq<Config>): System {
    System(configs, seq(|configs|, g requires 0 <= g < |configs| => Initial(configs[g])))
  }

  ghost predicate IsSystemRun(configs: seq<Config>, run: seq<System>, steps: seq<SystemStep>) {
    && |run| == |steps| + 1
    && run[0] == InitialSystem(configs)
    && forall t :: 0 <= t < |steps| ==> SystemStepAt(run, steps, t)
  }

  ghost predicate SystemStepAt(run: seq<System>, steps: seq<SystemStep>, t: nat)
    requires |run| == |steps| + 1 && t < |steps|
  {
    SystemEnabled(run[t], steps[t]) && run[t + 1] == SystemApply(run[t], steps[t])
  }

  lemma {:induction false} SystemRunInv(configs: seq<Config>, run: seq<System>, steps: seq<SystemStep>, t: nat)
    requires IsSystemRun(configs, run, steps) && t < |run|
    ensures SystemInv(run[t]) && run[t].configs == configs
  {
    if t == 0 {
      forall g | 0 <= g < |configs|
        ensures Inv(configs[g], run[0].engines[g])
      {
        InitialInv(configs[g]);
      }
    } else {
      SystemRunInv(configs, run, steps, t - 1);
      assert SystemStepAt(run, steps, t - 1);
      SystemStepInv(run[t - 1], steps[t - 1]);
    }
  }

  lemma SystemStepInv(s: System, t: SystemStep)
    requires SystemInv(s) && SystemEnabled(s, t)
    ensures SystemInv(SystemApply(s, t))
  {
    hide Apply, Inv;
    StepInv(s.configs[t.group], s.engines[t.group], t.step);
  }

  /** A group never has more queued jobs than processes. */
  lemma QueueFits(c: Config, e: Engine)
    requires Inv(c, e)
    ensures |e.queued| <= |c.deps|
  {
    assert forall i: nat :: e.queued[i] <= Load(e, i);
    DistinctFits(e.queued, Below(|c.deps|));
  }

  lemma {:induction false} SumAtMost(a: seq<nat>, b: seq<nat>)
    requires |a| == |b| && forall k :: 0 <= k < |a| ==> a[k] <= b[k]
    ensures Sum(a) <= Sum(b)
  {
    if a != [] {
      SumAtMost(a[..|a| - 1], b[..|b| - 1]);
    }
  }

  /** At every moment of every run of every set of groups, the jobs waiting in the queue are no more than the
      processes of all groups, which is the capacity of the queue. In particular the jobs that a step adds
      all find room. */
  lemma QueueNeverOverflows(configs: seq<Config>, run: seq<System>, steps: seq<SystemStep>, t: nat)
    requires IsSystemRun(configs, run, steps) && t < |run|
    ensures Sum(QueueLengths(run[t].engines)) <= Sum(Sizes(configs))
  {
    SystemRunInv(configs, run, steps, t);
    var s := run[t];
    forall g | 0 <= g < |s.engines|
      ensures QueueLengths(s.engines)[g] <= Sizes(configs)[g]
    {
      QueueFits(s.configs[g], s.engines[g]);
    }
    SumAtMost(QueueLengths(s.engines), Sizes(configs));
  }
}
