/** How the configuration gives every process of a group an index, every state of the group its list of indexes, and every
    dependency the index of its target. */
module Configuration {
  import opened Engine

  const NUMBERS: nat := 0x1_0000_0000
  const INDEXES: nat := 0x8000_0000

  datatype Dependency = Dependency(target: string, index: nat)

  datatype OsProcess = OsProcess(id: string, number: nat, dependencies: seq<Dependency>)

  datatype ProcessGroupState = ProcessGroupState(name: string, indexes: seq<nat>)

  datatype ProcessGroup = ProcessGroup(name: string, states: seq<ProcessGroupState>, processes: seq<OsProcess>)

  /** A process is to run in a state of a group. */
  datatype Assignment = Assignment(group: string, state: string, process: OsProcess)

  // ---- Searching ----

  /** `i` is the first element with the property, or the length if there is none. */
  ghost predicate IsFirst<T>(s: seq<T>, f: T -> bool, i: nat) {
    i <= |s| && (i < |s| ==> f(s[i])) && forall j :: 0 <= j < i ==> !f(s[j])
  }

  function First<T>(s: seq<T>, f: T -> bool): (i: nat)
    ensures IsFirst(s, f, i)
  {
    if s == [] || f(s[0]) then 0 else 1 + First(s[1..], f)
  }

  method Find<T>(s: seq<T>, f: T -> bool) returns (i: nat)
    ensures IsFirst(s, f, i)
  {
    i := 0;
    while i < |s|
      invariant i <= |s| && forall j :: 0 <= j < i ==> !f(s[j])
    {
      if f(s[i]) {
        return;
      }
      i := i + 1;
    }
  }

  function GroupIndex(groups: seq<ProcessGroup>, name: string): (i: nat)
    ensures i <= |groups| && (i < |groups| ==> groups[i].name == name)
    ensures forall j :: 0 <= j < i ==> groups[j].name != name
  {
    First(groups, (g: ProcessGroup) => g.name == name)
  }

  function StateIndex(g: ProcessGroup, name: string): (i: nat)
    ensures i <= |g.states| && (i < |g.states| ==> g.states[i].name == name)
    ensures forall j :: 0 <= j < i ==> g.states[j].name != name
  {
    First(g.states, (s: ProcessGroupState) => s.name == name)
  }

  function ProcessIndex(g: ProcessGroup, number: nat): (i: nat)
    ensures i <= |g.processes| && (i < |g.processes| ==> g.processes[i].number == number)
    ensures forall j :: 0 <= j < i ==> g.processes[j].number != number
  {
    First(g.processes, (p: OsProcess) => p.number == number)
  }

  // ---- Assigning processes ----

  function WithIndex(s: ProcessGroupState, i: nat): ProcessGroupState {
    if i in s.indexes then s else s.(indexes := s.indexes + [i])
  }

  /** The process gets an index, its old one if it has one, and the state lists that index. */
  function AssignToState(g: ProcessGroup, k: nat, p: OsProcess): ProcessGroup
    requires k < |g.states|
  {
    var i := ProcessIndex(g, p.number);
    if i < |g.processes| then g.(states := g.states[k := WithIndex(g.states[k], i % INDEXES)])
    else g.(states := g.states[k := WithIndex(g.states[k], i % NUMBERS)], processes := g.processes + [p])
  }

  function AssignToGroup(g: ProcessGroup, state: string, p: OsProcess): ProcessGroup {
    var k := StateIndex(g, state);
    if k < |g.states| then AssignToState(g, k, p) else g
  }

  function Assign(groups: seq<ProcessGroup>, a: Assignment): seq<ProcessGroup> {
    var i := GroupIndex(groups, a.group);
    if i < |groups| then groups[i := AssignToGroup(groups[i], a.state, a.process)] else groups
  }

  /** The number of the instance that comes after `i` others. */
  function Number(i: nat): nat {
    if i < NUMBERS then i else NUMBERS - 1
  }

  class ConfigurationManager {
    var groups: seq<ProcessGroup>
    var processIndex: nat

    /** Each instance gets a number of its own, as long as there are any. */
    method NextProcessNumber() returns (number: nat)
      modifies this`processIndex
      ensures number == old(processIndex)
      ensures processIndex == if old(processIndex) < NUMBERS - 1 then old(processIndex) + 1 else old(processIndex)
    {
      number := processIndex;
      if processIndex < NUMBERS - 1 {
        processIndex := processIndex + 1;
      }
    }

    /** The startup configurations of the processes, one after the other. */
    method NumberInstances(instances: seq<OsProcess>) returns (numbered: seq<OsProcess>)
      requires processIndex < NUMBERS
      modifies this`processIndex
      ensures processIndex == Number(old(processIndex) + |instances|)
      ensures |numbered| == |instances|
      ensures forall i :: 0 <= i < |instances| ==> numbered[i] == instances[i].(number := Number(old(processIndex) + i))
    {
      numbered := [];
      for i := 0 to |instances|
        invariant processIndex == Number(old(processIndex) + i) && |numbered| == i
        invariant forall j :: 0 <= j < i ==> numbered[j] == instances[j].(number := Number(old(processIndex) + j))
      {
        var number := NextProcessNumber();
        numbered := numbered + [instances[i].(number := number)];
      }
    }

    method AssignOsProcessInstanceToProcessGroup(a: Assignment)
      modifies this`groups
      ensures groups == Assign(old(groups), a)
    {
      hide GroupIndex, StateIndex, ProcessIndex;
      var i := Find(groups, (g: ProcessGroup) => g.name == a.group);
      assert i == GroupIndex(groups, a.group);
      if i < |groups| {
        var g := groups[i];
        var k := Find(g.states, (s: ProcessGroupState) => s.name == a.state);
        assert k == StateIndex(g, a.state);
        if k < |g.states| {
          var index := Find(g.processes, (p: OsProcess) => p.number == a.process.number);
          assert index == ProcessIndex(g, a.process.number);
          if index == |g.processes| {
            index := index % NUMBERS;
            g := g.(processes := g.processes + [a.process]);
          } else {
            index := index % INDEXES;
          }
          if index !in g.states[k].indexes {
            g := g.(states := g.states[k := g.states[k].(indexes := g.states[k].indexes + [index])]);
          } else {
            assert g.states == g.states[k := g.states[k]];
          }
          groups := groups[i := g];
        }
      }
    }

    /** Give every dependency of every process the index of its target. */
    method AssignOsProcessIndexesInDependencyList()
      modifies this`groups
      ensures |groups| == |old(groups)|
      ensures forall i :: 0 <= i < |groups| ==> groups[i] == Resolved(old(groups)[i])
    {
      for i := 0 to |groups|
        invariant |groups| == |old(groups)|
        invariant forall j :: 0 <= j < i ==> groups[j] == Resolved(old(groups)[j])
        invariant forall j :: i <= j < |groups| ==> groups[j] == old(groups)[j]
      {
        var g := UpdateDependencyLists(groups[i]);
        groups := groups[i := g];
      }
    }
  }

  method UpdateDependencyLists(g: ProcessGroup) returns (updated: ProcessGroup)
    ensures updated == Resolved(g)
  {
    var processes := g.processes;
    for j := 0 to |processes|
      invariant |processes| == |g.processes|
      invariant forall x :: 0 <= x < j ==> processes[x] == ResolvedProcess(g, g.processes[x])
      invariant forall x :: j <= x < |processes| ==> processes[x] == g.processes[x]
    {
      var dependencies := UpdateOsProcessIndexInDependencyList(g, processes[j].dependencies);
      processes := processes[j := processes[j].(dependencies := dependencies)];
    }
    assert processes == Resolved(g).processes;
    updated := g.(processes := processes);
  }

  method UpdateOsProcessIndexInDependencyList(g: ProcessGroup, list: seq<Dependency>) returns (updated: seq<Dependency>)
    ensures updated == ResolvedList(g, list)
  {
    updated := list;
    for i := 0 to |list|
      invariant |updated| == |list|
      invariant forall x :: 0 <= x < i ==> updated[x] == ResolvedDependency(g, list[x])
      invariant forall x :: i <= x < |list| ==> updated[x] == list[x]
    {
      var index := Find(g.processes, (p: OsProcess) => p.id == list[i].target);
      assert index == TargetIndex(g, list[i].target);
      if index < |g.processes| {
        updated := updated[i := updated[i].(index := index % NUMBERS)];
      }
    }
  }

  // ---- Resolving dependencies ----

  function TargetIndex(g: ProcessGroup, target: string): (i: nat)
    ensures i <= |g.processes| && (i < |g.processes| ==> g.processes[i].id == target)
    ensures forall j :: 0 <= j < i ==> g.processes[j].id != target
  {
    First(g.processes, (p: OsProcess) => p.id == target)
  }

  /** A dependency whose target is not in the group keeps the index it has. */
  function ResolvedDependency(g: ProcessGroup, d: Dependency): Dependency {
    var i := TargetIndex(g, d.target);
    if i < |g.processes| then d.(index := i % NUMBERS) else d
  }

  function ResolvedList(g: ProcessGroup, list: seq<Dependency>): seq<Dependency> {
    seq(|list|, i requires 0 <= i < |list| => ResolvedDependency(g, list[i]))
  }

  function ResolvedProcess(g: ProcessGroup, p: OsProcess): OsProcess {
    p.(dependencies := ResolvedList(g, p.dependencies))
  }

  function Resolved(g: ProcessGroup): ProcessGroup {
    g.(processes := seq(|g.processes|, i requires 0 <= i < |g.processes| => ResolvedProcess(g, g.processes[i])))
  }

  /** The dependency lists as the graph uses them. */
  ghost function DependencyIndexes(g: ProcessGroup): seq<seq<nat>> {
    seq(|g.processes|, i requires 0 <= i < |g.processes| => IndexesOf(g.processes[i].dependencies))
  }

  ghost function IndexesOf(list: seq<Dependency>): seq<nat> {
    seq(|list|, j requires 0 <= j < |list| => list[j].index)
  }

  /** A dependency whose target is in the group names the first process with that id. */
  lemma DependencyNamesTarget(g: ProcessGroup, i: nat, j: nat, t: nat)
    requires |g.processes| < INDEXES && i < |g.processes| && j < |g.processes[i].dependencies|
    requires t < |g.processes| && g.processes[t].id == g.processes[i].dependencies[j].target
    ensures var index := Resolved(g).processes[i].dependencies[j].index;
            && index <= t && Resolved(g).processes[index].id == g.processes[i].dependencies[j].target
            && forall x :: 0 <= x < index ==> Resolved(g).processes[x].id != g.processes[i].dependencies[j].target
  {
    hide TargetIndex;
  }

  /** Whatever the targets are, dependencies that start out as zero end up in range, so that the graph can be built. A missing
      target leaves a dependency on process zero. */
  lemma DependenciesAreInRange(g: ProcessGroup, selfTerminating: set<nat>, reporting: set<nat>)
    requires |g.processes| < INDEXES
    requires forall p, d :: p in g.processes && d in p.dependencies ==> d.index == 0
    ensures ValidConfig(Config(DependencyIndexes(Resolved(g)), selfTerminating, reporting))
  {
    hide TargetIndex, ResolvedDependency;
    var r := Resolved(g);
    forall i, d | 0 <= i < |r.processes| && d in IndexesOf(r.processes[i].dependencies) ensures d < |r.processes| {
      var j :| 0 <= j < |r.processes[i].dependencies| && r.processes[i].dependencies[j].index == d;
      var configured := g.processes[i].dependencies[j];
      assert configured in g.processes[i].dependencies && r.processes[i].dependencies[j] == ResolvedDependency(g, configured);
      ResolvedInRange(g, configured);
    }
  }

  lemma ResolvedInRange(g: ProcessGroup, d: Dependency)
    requires 0 < |g.processes| < INDEXES && d.index == 0
    ensures ResolvedDependency(g, d).index < |g.processes|
  {
    hide TargetIndex;
  }

  /** A dependency whose target is missing stays as it was, and as it was made it names process zero, which is not its target. */
  lemma MissingTargetIsProcessZero(g: ProcessGroup, i: nat, j: nat)
    requires i < |g.processes| && j < |g.processes[i].dependencies|
    requires forall t :: 0 <= t < |g.processes| ==> g.processes[t].id != g.processes[i].dependencies[j].target
    ensures Resolved(g).processes[i].dependencies[j] == g.processes[i].dependencies[j]
    ensures g.processes[0].id != g.processes[i].dependencies[j].target
  {
    hide TargetIndex;
  }

  // ---- Every sequence of assignments ----

  ghost function AssignAll(groups: seq<ProcessGroup>, all: seq<Assignment>): seq<ProcessGroup> {
    if all == [] then groups else Assign(AssignAll(groups, all[..|all| - 1]), all[|all| - 1])
  }

  /** The numbers of the assigned processes tell them apart. */
  ghost predicate Numbered(all: seq<Assignment>) {
    forall i, j :: 0 <= i < |all| && 0 <= j < |all| && all[i].process.number == all[j].process.number ==>
      all[i].process == all[j].process
  }

  /** The instances as the numbering leaves them, starting from zero. */
  ghost predicate NumberedFromZero(instances: seq<OsProcess>) {
    forall i :: 0 <= i < |instances| ==> instances[i].number == Number(i)
  }

  /** Assignments of the given instances only. */
  ghost predicate Draws(all: seq<Assignment>, instances: seq<OsProcess>) {
    forall i :: 0 <= i < |all| ==> all[i].process in instances
  }

  /** Different instances have different numbers exactly when there are not more instances than numbers. */
  lemma NumbersTellApart(instances: seq<OsProcess>)
    requires NumberedFromZero(instances)
    ensures NoDuplicates(seq(|instances|, i requires 0 <= i < |instances| => instances[i].number)) <==> |instances| <= NUMBERS
  {
    var numbers := seq(|instances|, i requires 0 <= i < |instances| => instances[i].number);
    if |instances| > NUMBERS {
      assert numbers[NUMBERS - 1] == numbers[NUMBERS];
    }
  }

  /** Exactly then the numbers of assigned processes always tell them apart, provided that instances have different ids. */
  lemma NumberedExactly(instances: seq<OsProcess>)
    requires NumberedFromZero(instances)
    requires forall i, j :: 0 <= i < j < |instances| ==> instances[i].id != instances[j].id
    ensures (forall all :: Draws(all, instances) ==> Numbered(all)) <==> |instances| <= NUMBERS
  {
    if |instances| > NUMBERS {
      var p, q := instances[NUMBERS - 1], instances[NUMBERS];
      var all := [Assignment("", "", p), Assignment("", "", q)];
      assert Draws(all, instances) && all[0].process.number == all[1].process.number;
      assert !Numbered(all);
    }
  }

  /** Groups as they are configured before any process is assigned. */
  ghost predicate Blank(groups: seq<ProcessGroup>) {
    forall i :: 0 <= i < |groups| ==>
      groups[i].processes == [] && forall k :: 0 <= k < |groups[i].states| ==> groups[i].states[k].indexes == []
  }

  /** The processes assigned to a state. */
  ghost function Assigned(all: seq<Assignment>, group: string, state: string): set<OsProcess> {
    set i | 0 <= i < |all| && all[i].group == group && all[i].state == state :: all[i].process
  }

  // ---- What the lists mean ----

  ghost predicate NoDuplicates<T>(s: seq<T>) {
    forall i, j :: 0 <= i < j < |s| ==> s[i] != s[j]
  }

  /** Every index list is free of duplicates and in range, and no two processes have the same number. */
  ghost predicate GroupOk(g: ProcessGroup) {
    && (forall i, j :: 0 <= i < j < |g.processes| ==> g.processes[i].number != g.processes[j].number)
    && forall k :: 0 <= k < |g.states| ==>
         NoDuplicates(g.states[k].indexes) && forall i :: i in g.states[k].indexes ==> i < |g.processes|
  }

  /** The processes that a state's list stands for. */
  ghost function Decoded(g: ProcessGroup, k: nat): set<OsProcess>
    requires k < |g.states|
  {
    set i | i in g.states[k].indexes && i < |g.processes| :: g.processes[i]
  }

  lemma AssignStateOk(g: ProcessGroup, k: nat, p: OsProcess)
    requires GroupOk(g) && k < |g.states| && |g.processes| < INDEXES
    ensures var g1 := AssignToState(g, k, p);
            GroupOk(g1) && g.processes <= g1.processes && |g1.states| == |g.states|
            && forall j :: 0 <= j < |g.states| ==> g.states[j].name == g1.states[j].name && g.states[j].indexes <= g1.states[j].indexes
  {
  }

  /** Exactly when the state lists the index of the process: if it did so before, or if the index has not been cut off, to 31 bits
      for a process of the group and to 32 bits for a new one. */
  lemma ListedExactly(g: ProcessGroup, k: nat, p: OsProcess)
    requires k < |g.states|
    ensures var i, g1 := ProcessIndex(g, p.number), AssignToState(g, k, p);
            && i < |g1.processes| && g1.processes[i].number == p.number
            && (i in g1.states[k].indexes <==>
                i in g.states[k].indexes || i < if i < |g.processes| then INDEXES else NUMBERS)
  {
  }

  /** The state's list stands for one process more, and no other list changes its meaning. */
  lemma AssignStateMeaning(g: ProcessGroup, k: nat, p: OsProcess, j: nat)
    requires GroupOk(g) && k < |g.states| && j < |g.states| && |g.processes| < INDEXES
    requires forall q :: q in g.processes && q.number == p.number ==> q == p
    ensures Decoded(AssignToState(g, k, p), j) == Decoded(g, j) + if j == k then {p} else {}
  {
    var g1 := AssignToState(g, k, p);
    var i := ProcessIndex(g, p.number);
    assert i < |g1.processes| && g1.processes[i] == p;
    if j == k {
      assert i in g1.states[k].indexes;
      assert forall x :: x in g1.states[k].indexes <==> x in g.states[k].indexes || x == i;
    }
    forall q ensures q in Decoded(g1, j) <==> q in Decoded(g, j) || (j == k && q == p) {
      if q in Decoded(g, j) {
        var x :| x in g.states[j].indexes && x < |g.processes| && g.processes[x] == q;
        assert x in g1.states[j].indexes && g1.processes[x] == q;
      }
    }
  }

  /** State `k` of group `i` is where assignments to their names go. */
  ghost predicate Addressed(groups: seq<ProcessGroup>, i: nat, k: nat) {
    && i < |groups| && k < |groups[i].states|
    && (forall j :: 0 <= j < i ==> groups[j].name != groups[i].name)
    && forall j :: 0 <= j < k ==> groups[i].states[j].name != groups[i].states[k].name
  }

  /** Assigning to a group: only the first state of the name changes. */
  lemma AssignGroupOk(g: ProcessGroup, state: string, p: OsProcess)
    requires GroupOk(g) && |g.processes| < INDEXES
    ensures var g1 := AssignToGroup(g, state, p);
            && GroupOk(g1) && g1.name == g.name && |g1.states| == |g.states|
            && g.processes <= g1.processes && |g1.processes| <= |g.processes| + 1
            && (forall q :: q in g1.processes ==> q in g.processes || q == p)
            && forall j :: 0 <= j < |g.states| ==>
                 g.states[j].name == g1.states[j].name && g.states[j].indexes <= g1.states[j].indexes
  {
    hide AssignToState, StateIndex, GroupOk;
    var k := StateIndex(g, state);
    if k < |g.states| {
      AssignStateOk(g, k, p);
      AssignStateProcesses(g, k, p);
    }
  }

  lemma AssignStateProcesses(g: ProcessGroup, k: nat, p: OsProcess)
    requires k < |g.states|
    ensures var g1 := AssignToState(g, k, p);
            && g1.name == g.name && (g1.processes == g.processes || g1.processes == g.processes + [p])
  {
  }

  lemma AssignGroupMeaning(g: ProcessGroup, state: string, p: OsProcess, k: nat)
    requires GroupOk(g) && |g.processes| < INDEXES && k < |g.states|
    requires forall j :: 0 <= j < k ==> g.states[j].name != g.states[k].name
    requires forall q :: q in g.processes && q.number == p.number ==> q == p
    ensures k < |AssignToGroup(g, state, p).states|
    ensures Decoded(AssignToGroup(g, state, p), k) == Decoded(g, k) + if state == g.states[k].name then {p} else {}
  {
    hide AssignToState, StateIndex, GroupOk, Decoded;
    var j := StateIndex(g, state);
    AssignGroupOk(g, state, p);
    if j < |g.states| {
      AssignStateMeaning(g, j, p, k);
    }
  }

  ghost predicate FromAssignments(g: ProcessGroup, all: seq<Assignment>) {
    forall q :: q in g.processes ==> exists i :: 0 <= i < |all| && all[i].process == q
  }

  /** Group `i` after all assignments: in order, with the same states, and with nothing but assigned processes. */
  lemma {:induction false} AssignedGroupOk(groups: seq<ProcessGroup>, all: seq<Assignment>, i: nat)
    requires Blank(groups) && |all| < INDEXES && i < |groups|
    ensures |AssignAll(groups, all)| == |groups|
    ensures var g, g1 := groups[i], AssignAll(groups, all)[i];
            && GroupOk(g1) && g1.name == g.name && |g1.states| == |g.states|
            && (forall k :: 0 <= k < |g.states| ==> g1.states[k].name == g.states[k].name)
            && |g1.processes| <= |all| && FromAssignments(g1, all)
  {
    hide AssignToGroup, GroupIndex;
    if all != [] {
      var rest, a := all[..|all| - 1], all[|all| - 1];
      AssignedGroupOk(groups, rest, i);
      var before, after := AssignAll(groups, rest), AssignAll(groups, all);
      if GroupIndex(before, a.group) == i {
        AssignGroupOk(before[i], a.state, a.process);
      }
      forall q | q in after[i].processes ensures exists j :: 0 <= j < |all| && all[j].process == q {
        if q in before[i].processes {
          var j :| 0 <= j < |rest| && rest[j].process == q;
          assert all[j].process == q;
        } else {
          assert all[|all| - 1].process == q;
        }
      }
    }
  }

  /** After any assignments, the index list of a state is free of duplicates and in range and
      stands for exactly the processes assigned to that state. */
  lemma {:induction false} IndexListsDecode(groups: seq<ProcessGroup>, all: seq<Assignment>, i: nat, k: nat)
    requires Blank(groups) && Numbered(all) && |all| < INDEXES && Addressed(groups, i, k)
    ensures i < |AssignAll(groups, all)| && k < |AssignAll(groups, all)[i].states|
    ensures var g := AssignAll(groups, all)[i];
            && NoDuplicates(g.states[k].indexes)
            && (forall x :: x in g.states[k].indexes ==> x < |g.processes|)
            && Decoded(g, k) == Assigned(all, groups[i].name, groups[i].states[k].name)
  {
    hide AssignToGroup, GroupIndex, Numbered;
    AssignedGroupOk(groups, all, i);
    if all == [] {
      assert Decoded(groups[i], k) == {};
    } else {
      var rest, a := all[..|all| - 1], all[|all| - 1];
      NumberedRest(all);
      IndexListsDecode(groups, rest, i, k);
      AssignedGroupOk(groups, rest, i);
      AssignedStep(groups, all, i, k);
    }
  }

  lemma NumberedRest(all: seq<Assignment>)
    requires all != [] && Numbered(all)
    ensures Numbered(all[..|all| - 1])
  {
  }

  lemma AssignedStep(groups: seq<ProcessGroup>, all: seq<Assignment>, i: nat, k: nat)
    requires Blank(groups) && Numbered(all) && 0 < |all| < INDEXES && Addressed(groups, i, k)
    requires var rest := all[..|all| - 1];
             && i < |AssignAll(groups, rest)| && k < |AssignAll(groups, rest)[i].states|
             && Decoded(AssignAll(groups, rest)[i], k) == Assigned(rest, groups[i].name, groups[i].states[k].name)
    ensures i < |AssignAll(groups, all)| && k < |AssignAll(groups, all)[i].states|
    ensures Decoded(AssignAll(groups, all)[i], k) == Assigned(all, groups[i].name, groups[i].states[k].name)
  {
    hide AssignToGroup, Decoded, Assigned, GroupOk;
    var rest, a := all[..|all| - 1], all[|all| - 1];
    var before := AssignAll(groups, rest);
    AssignedGroupOk(groups, rest, i);
    AssignedGroupOk(groups, all, i);
    NamesOfGroups(groups, rest);
    AssignedOneMore(all, groups[i].name, groups[i].states[k].name);
    SameProcess(before[i], all);
    if a.group == groups[i].name {
      AssignGroupMeaning(before[i], a.state, a.process, k);
    }
  }

  /** A process of the group with the number of the last assigned one is that one. */
  lemma SameProcess(g: ProcessGroup, all: seq<Assignment>)
    requires all != [] && Numbered(all) && FromAssignments(g, all[..|all| - 1])
    ensures forall q :: q in g.processes && q.number == all[|all| - 1].process.number ==> q == all[|all| - 1].process
  {
  }

  lemma NamesOfGroups(groups: seq<ProcessGroup>, all: seq<Assignment>)
    requires Blank(groups) && |all| < INDEXES && groups != []
    ensures |AssignAll(groups, all)| == |groups|
    ensures forall j :: 0 <= j < |groups| ==> AssignAll(groups, all)[j].name == groups[j].name
  {
    AssignedGroupOk(groups, all, 0);
    forall j | 0 <= j < |groups| ensures j < |AssignAll(groups, all)| && AssignAll(groups, all)[j].name == groups[j].name {
      AssignedGroupOk(groups, all, j);
    }
  }

  lemma AssignedOneMore(all: seq<Assignment>, group: string, state: string)
    requires all != []
    ensures var a := all[|all| - 1];
            Assigned(all, group, state) ==
            Assigned(all[..|all| - 1], group, state) + if a.group == group && a.state == state then {a.process} else {}
  {
    var n := |all| - 1;
    var rest := all[..n];
    forall p ensures p in Assigned(all, group, state) <==>
                     p in Assigned(rest, group, state) || (all[n].group == group && all[n].state == state && p == all[n].process)
    {
      if p in Assigned(rest, group, state) {
        var i :| 0 <= i < |rest| && rest[i].group == group && rest[i].state == state && rest[i].process == p;
        assert all[i].process == p;
      }
      if p in Assigned(all, group, state) {
        var i :| 0 <= i < |all| && all[i].group == group && all[i].state == state && all[i].process == p;
        if i < n {
          assert rest[i].process == p;
        }
      }
    }
  }

  /** An index once given stays valid: processes are only ever added behind the others, and so are indexes. */
  lemma {:induction false} IndexesStay(groups: seq<ProcessGroup>, all: seq<Assignment>, m: nat, i: nat, k: nat)
    requires Blank(groups) && |all| < INDEXES && m <= |all| && i < |groups| && k < |groups[i].states|
    ensures |AssignAll(groups, all)| == |AssignAll(groups, all[..m])| == |groups|
    ensures var g, g1 := AssignAll(groups, all[..m])[i], AssignAll(groups, all)[i];
            && g.processes <= g1.processes
            && |g.states| == |g1.states| == |groups[i].states| && g.states[k].indexes <= g1.states[k].indexes
  {
    hide AssignToGroup, GroupIndex, GroupOk;
    AssignedGroupOk(groups, all, i);
    AssignedGroupOk(groups, all[..m], i);
    if m == |all| {
      assert all[..m] == all;
    } else {
      var rest, a := all[..|all| - 1], all[|all| - 1];
      assert rest[..m] == all[..m];
      IndexesStay(groups, rest, m, i, k);
      AssignedGroupOk(groups, rest, i);
      AssignGroupOk(AssignAll(groups, rest)[i], a.state, a.process);
    }
  }
}
