/** The structured plan artifact: generation, schema check, repair of ungoverned groups. */
module Plans {
  import opened Common
  import opened Checkpoints

  // ---- What a backend returns --------------------------------------------

  datatype AcceptanceCriterion = AcceptanceCriterion(
    criterionId: string,
    description: string,
    verificationTests: seq<string>
  )

  datatype SubTask = SubTask(
    taskId: string,
    description: string,
    parallelGroup: Option<string>,
    dependsOn: seq<string>,
    interfaceContract: Option<string>
  )

  datatype PlanOutput = PlanOutput(
    outcomes: string,
    acceptanceCriteria: seq<AcceptanceCriterion>,
    scopeIn: seq<string>,
    scopeOut: seq<string>,
    subtasks: seq<SubTask>,
    storySize: string,
    crossCuttingOrHighRisk: bool,
    riskTier: string,
    rollbackStrategy: string,
    constraints: string,
    priorDecisions: string,
    openQuestions: seq<string>
  )

  datatype DiffOutput = DiffOutput(
    filesTouched: seq<string>,
    linesChanged: int,
    commitMessage: string,
    subtaskId: Option<string>
  )

  // ---- What is stored ----------------------------------------------------

  datatype Mode = Parallel | Sequential

  datatype PlannedTask = PlannedTask(
    taskId: string,
    description: string,
    mode: Mode,
    parallelGroup: Option<string>,
    dependsOn: seq<string>,
    interfaceContract: Option<string>
  )

  /** in_scope is only ever used as a set, so it is one here. */
  datatype PlanArtifact = PlanArtifact(
    planVersion: nat,
    inScope: set<string>,
    outOfScope: seq<string>,
    criteria: seq<AcceptanceCriterion>,
    tasks: seq<PlannedTask>,
    riskTier: string,
    highRisk: bool,
    storySize: string,
    budget: Budget
  )

  datatype PlanError = NoBudget(reason: BudgetError) | SchemaViolation

  /** A string that is absent or empty is false. */
  predicate Truthy(s: Option<string>) {
    s.Some? && s.value != ""
  }

  function Planned(st: SubTask): PlannedTask {
    PlannedTask(st.taskId, st.description, if Truthy(st.parallelGroup) then Parallel else Sequential,
                st.parallelGroup, st.dependsOn, st.interfaceContract)
  }

  function PlannedAll(sts: seq<SubTask>): seq<PlannedTask> {
    seq(|sts|, i requires 0 <= i < |sts| => Planned(sts[i]))
  }

  /** No budget number is negative. */
  predicate BudgetOk(b: Budget) {
    b.wallClockMinutes >= 0.0 && b.costCeilingUsd >= 0.0 && b.sizeCheckpointLines >= 0 && b.sizeCheckpointFiles >= 0
  }

  /** The constraints of plan_artifact.schema.json that a typed plan can still violate. */
  predicate MeetsSchema(version: nat, out: PlanOutput, budget: Budget) {
    && version >= 1 && BudgetOk(budget)
    && (forall ac :: ac in out.acceptanceCriteria ==>
         ac.criterionId != "" && ac.description != "" && ac.verificationTests != [])
    && (forall st :: st in out.subtasks ==> st.taskId != "" && st.description != "")
    && out.riskTier in ["low", "medium", "high"]
    && out.storySize in STORY_SIZES
  }

  // ---- Contracts before parallel writes ----------------------------------

  predicate SameGroup(tasks: seq<PlannedTask>, i: nat, j: nat)
    requires i < |tasks| && j < |tasks|
  {
    Truthy(tasks[i].parallelGroup) && tasks[i].parallelGroup == tasks[j].parallelGroup
  }

  /** Task i shares its group with another task, and some member has no contract. */
  predicate Ungoverned(tasks: seq<PlannedTask>, i: nat)
    requires i < |tasks|
  {
    && (exists j | 0 <= j < |tasks| :: j != i && SameGroup(tasks, i, j))
    && (exists j | 0 <= j < |tasks| :: SameGroup(tasks, i, j) && !Truthy(tasks[j].interfaceContract))
  }

  /** No group with two or more members has a member without a contract. */
  predicate Governed(tasks: seq<PlannedTask>) {
    forall i | 0 <= i < |tasks| :: !Ungoverned(tasks, i)
  }

  function Demote(t: PlannedTask): PlannedTask {
    t.(parallelGroup := None, mode := Sequential)
  }

  function Demoted(tasks: seq<PlannedTask>): (r: seq<PlannedTask>) {
    seq(|tasks|, i requires 0 <= i < |tasks| => if Ungoverned(tasks, i) then Demote(tasks[i]) else tasks[i])
  }

  /** Repair is complete and touches nothing but the marker: same ids, order, dependencies, contracts. */
  lemma DemotedIsGoverned(tasks: seq<PlannedTask>)
    ensures var r := Demoted(tasks);
            && Governed(r)
            && |r| == |tasks|
            && (forall i | 0 <= i < |tasks| ::
                 && r[i].taskId == tasks[i].taskId
                 && r[i].description == tasks[i].description
                 && r[i].dependsOn == tasks[i].dependsOn
                 && r[i].interfaceContract == tasks[i].interfaceContract
                 && (r[i].parallelGroup == tasks[i].parallelGroup || r[i].parallelGroup.None?))
  {
    var r := Demoted(tasks);
    forall i, j | 0 <= i < |r| && 0 <= j < |r| && SameGroup(r, i, j)
      ensures SameGroup(tasks, i, j) && !Ungoverned(tasks, i)
    {
    }
  }

  /** A governed plan is left alone, so repairing twice is repairing once. */
  lemma DemotionIdempotent(tasks: seq<PlannedTask>)
    ensures Governed(tasks) ==> Demoted(tasks) == tasks
    ensures Demoted(Demoted(tasks)) == Demoted(tasks)
  {
    DemotedIsGoverned(tasks);
  }

  /** Demotion removes a marker only from groups that were really ungoverned, and then from every member. */
  lemma DemotionIsAllOrNothing(tasks: seq<PlannedTask>, i: nat, j: nat)
    requires i < |tasks| && j < |tasks| && SameGroup(tasks, i, j)
    ensures Demoted(tasks)[i].parallelGroup.None? <==> Demoted(tasks)[j].parallelGroup.None?
    ensures Demoted(tasks)[i].parallelGroup.None? <==> Ungoverned(tasks, i)
  {
    if Ungoverned(tasks, i) {
      UngovernedSpreads(tasks, i, j);
    }
    if Ungoverned(tasks, j) {
      UngovernedSpreads(tasks, j, i);
    }
  }

  lemma UngovernedSpreads(tasks: seq<PlannedTask>, i: nat, j: nat)
    requires i < |tasks| && j < |tasks| && SameGroup(tasks, i, j) && Ungoverned(tasks, i)
    ensures Ungoverned(tasks, j)
  {
    var o :| 0 <= o < |tasks| && o != i && SameGroup(tasks, i, o);
    var k :| 0 <= k < |tasks| && SameGroup(tasks, i, k) && !Truthy(tasks[k].interfaceContract);
    assert SameGroup(tasks, j, k);
    if i != j {
      assert SameGroup(tasks, j, i);
    } else {
      assert SameGroup(tasks, j, o);
    }
  }

  function SetOf(members: seq<nat>): (r: set<nat>)
    ensures forall m: nat :: m in r <==> m in members
  {
    set m | m in members
  }

  predicate Within(members: seq<nat>, n: nat) {
    forall i | 0 <= i < |members| :: members[i] < n
  }

  /** The members of one group, oldest first. */
  ghost predicate MembersOf(tasks: seq<PlannedTask>, n: nat, g: string, members: seq<nat>)
    requires n <= |tasks|
  {
    && Within(members, n)
    && (forall x | 0 <= x < n :: x in members <==> tasks[x].parallelGroup == Some(g))
    && (forall p, q | 0 <= p < q < |members| :: members[p] < members[q])
  }

  /** groups, keyed in order of first appearance, partitions the grouped tasks among the first n. */
  ghost predicate Grouping(tasks: seq<PlannedTask>, n: nat, keys: seq<string>, groups: map<string, seq<nat>>)
    requires n <= |tasks|
  {
    && (forall g :: g in keys <==> g in groups)
    && (forall p, q :: 0 <= p < q < |keys| ==> keys[p] != keys[q])
    && (forall g :: g in groups ==> g != "" && MembersOf(tasks, n, g, groups[g]))
    && (forall x | 0 <= x < n :: Truthy(tasks[x].parallelGroup) ==> tasks[x].parallelGroup.value in groups)
  }

  lemma MembersGrow(tasks: seq<PlannedTask>, n: nat, g: string, members: seq<nat>)
    requires n < |tasks| && MembersOf(tasks, n, g, members)
    ensures MembersOf(tasks, n + 1, g, if tasks[n].parallelGroup == Some(g) then members + [n] else members)
  {
    var grown := members + [n];
    assert forall x :: x in grown <==> x in members || x == n;
    assert forall p, q | 0 <= p < q < |grown| :: grown[p] < grown[q];
  }

  /** The table after task n has been filed under its group, if it has one. */
  function Filed(tasks: seq<PlannedTask>, n: nat, groups: map<string, seq<nat>>): map<string, seq<nat>>
    requires n < |tasks|
  {
    var pg := tasks[n].parallelGroup;
    if !Truthy(pg) then groups
    else if pg.value in groups then groups[pg.value := groups[pg.value] + [n]]
    else groups[pg.value := [n]]
  }

  lemma FilingKeepsGrouping(tasks: seq<PlannedTask>, n: nat, keys: seq<string>, groups: map<string, seq<nat>>)
    requires n < |tasks| && Grouping(tasks, n, keys, groups)
    ensures var pg := tasks[n].parallelGroup;
            Grouping(tasks, n + 1, if Truthy(pg) && pg.value !in groups then keys + [pg.value] else keys,
                     Filed(tasks, n, groups))
  {
    var pg := tasks[n].parallelGroup;
    var after := Filed(tasks, n, groups);
    forall g | g in after
      ensures MembersOf(tasks, n + 1, g, after[g])
    {
      if g in groups {
        MembersGrow(tasks, n, g, groups[g]);
      } else {
        assert MembersOf(tasks, n, g, []);
        MembersGrow(tasks, n, g, []);
        assert [] + [n] == [n];
      }
    }
  }

  /** The grouping loop: subtasks of each truthy parallel_group, in plan order. */
  method GroupTasks(tasks: array<PlannedTask>) returns (keys: seq<string>, groups: map<string, seq<nat>>)
    ensures Grouping(tasks[..], tasks.Length, keys, groups)
  {
    keys, groups := [], map[];
    for n := 0 to tasks.Length
      invariant Grouping(tasks[..], n, keys, groups)
    {
      hide Grouping;
      FilingKeepsGrouping(tasks[..], n, keys, groups);
      var pg := tasks[n].parallelGroup;
      if Truthy(pg) {
        var g := pg.value;
        if g !in groups {
          keys := keys + [g];
          groups := groups[g := [n]];
        } else {
          groups := groups[g := groups[g] + [n]];
        }
      }
    }
  }

  predicate LacksContract(tasks: seq<PlannedTask>, members: seq<nat>)
    requires Within(members, |tasks|)
  {
    exists i | 0 <= i < |members| :: !Truthy(tasks[members[i]].interfaceContract)
  }

  /** A group is ungoverned exactly when it has two members and one lacks a contract. */
  lemma GroupIsUngoverned(tasks: seq<PlannedTask>, g: string, members: seq<nat>, m: nat)
    requires g != "" && MembersOf(tasks, |tasks|, g, members) && m in members
    ensures Ungoverned(tasks, m) <==> |members| >= 2 && LacksContract(tasks, members)
  {
    if |members| >= 2 && LacksContract(tasks, members) {
      var a, b := members[0], members[1];
      var other := if a == m then b else a;
      assert other in members && other != m && SameGroup(tasks, m, other);
      var i :| 0 <= i < |members| && !Truthy(tasks[members[i]].interfaceContract);
      assert members[i] in members && SameGroup(tasks, m, members[i]);
    }
    if Ungoverned(tasks, m) {
      var o :| 0 <= o < |tasks| && o != m && SameGroup(tasks, m, o);
      assert o in members;
      var k :| 0 <= k < |tasks| && SameGroup(tasks, m, k) && !Truthy(tasks[k].interfaceContract);
      assert k in members;
    }
  }

  function DemotedAt(tasks: seq<PlannedTask>, hit: set<nat>): seq<PlannedTask> {
    seq(|tasks|, i requires 0 <= i < |tasks| => if i in hit then Demote(tasks[i]) else tasks[i])
  }

  function IdsAt(tasks: seq<PlannedTask>, members: seq<nat>): seq<string>
    requires Within(members, |tasks|)
  {
    seq(|members|, i requires 0 <= i < |members| => tasks[members[i]].taskId)
  }

  /** One ungoverned group: every member loses the marker, in order. */
  method DemoteGroup(tasks: array<PlannedTask>, members: seq<nat>) returns (names: seq<string>)
    requires Within(members, tasks.Length)
    modifies tasks
    ensures tasks[..] == DemotedAt(old(tasks[..]), SetOf(members))
    ensures names == IdsAt(old(tasks[..]), members)
  {
    names := [];
    for i := 0 to |members|
      invariant tasks[..] == DemotedAt(old(tasks[..]), SetOf(members[..i]))
      invariant names == IdsAt(old(tasks[..]), members[..i])
    {
      var m := members[i];
      assert members[..i + 1] == members[..i] + [m];
      ghost var here := tasks[..];
      assert here[m].taskId == old(tasks[..])[m].taskId;
      tasks[m] := Demote(tasks[m]);
      assert tasks[..] == here[m := Demote(here[m])];
      names := names + [tasks[m].taskId];
    }
    assert members[..|members|] == members;
  }

  method AnyLacksContract(tasks: array<PlannedTask>, members: seq<nat>) returns (any: bool)
    requires Within(members, tasks.Length)
    ensures any <==> LacksContract(tasks[..], members)
  {
    any := false;
    for i := 0 to |members|
      invariant any <==> exists k | 0 <= k < i :: !Truthy(tasks[members[k]].interfaceContract)
    {
      any := any || !Truthy(tasks[members[i]].interfaceContract);
    }
  }

  /** The tasks already repaired: the ungoverned ones whose group is among the groups visited. */
  ghost function HitIn(tasks: seq<PlannedTask>, visited: seq<string>): set<nat> {
    set x: nat | x < |tasks| && Ungoverned(tasks, x) && tasks[x].parallelGroup.Some? && tasks[x].parallelGroup.value in visited
  }

  lemma VisitGroup(tasks: seq<PlannedTask>, visited: seq<string>, g: string, members: seq<nat>)
    requires g != "" && g !in visited && MembersOf(tasks, |tasks|, g, members)
    ensures var hit := HitIn(tasks, visited);
            && (forall m :: m in members ==> m !in hit)
            && HitIn(tasks, visited + [g]) ==
                 hit + if |members| >= 2 && LacksContract(tasks, members) then SetOf(members) else {}
  {
    hide Ungoverned;
    forall m | m in members
      ensures Ungoverned(tasks, m) <==> |members| >= 2 && LacksContract(tasks, members)
    {
      GroupIsUngoverned(tasks, g, members, m);
    }
    var hit := HitIn(tasks, visited);
    var now := HitIn(tasks, visited + [g]);
    forall x: nat
      ensures x in now <==> x in hit || (x in members && Ungoverned(tasks, x))
    {
    }
    assert forall x :: x in members ==> x < |tasks|;
  }

  lemma ContractsSurvive(tasks: seq<PlannedTask>, hit: set<nat>, members: seq<nat>)
    requires Within(members, |tasks|)
    ensures LacksContract(DemotedAt(tasks, hit), members) <==> LacksContract(tasks, members)
    ensures IdsAt(DemotedAt(tasks, hit), members) == IdsAt(tasks, members)
  {
    var r := DemotedAt(tasks, hit);
    assert forall i | 0 <= i < |members| ::
        r[members[i]].interfaceContract == tasks[members[i]].interfaceContract
        && r[members[i]].taskId == tasks[members[i]].taskId;
  }

  /** One round of the repair loop: a group with a member lacking a contract is demoted whole. */
  method RepairGroup(tasks: array<PlannedTask>, members: seq<nat>, ghost was: seq<PlannedTask>, ghost hit: set<nat>)
    returns (names: seq<string>, ghost moved: seq<nat>)
    requires Within(members, |was|) && tasks[..] == DemotedAt(was, hit)
    modifies tasks
    ensures moved == if |members| >= 2 && LacksContract(was, members) then members else []
    ensures tasks[..] == DemotedAt(was, hit + SetOf(moved))
    ensures names == IdsAt(was, moved)
  {
    names, moved := [], [];
    ContractsSurvive(was, hit, members);
    assert hit + SetOf(moved) == hit;
    if |members| >= 2 {
      var ungoverned := AnyLacksContract(tasks, members);
      if ungoverned {
        names := DemoteGroup(tasks, members);
        moved := members;
        DemotedTwice(was, hit, SetOf(members));
      }
    }
  }

  lemma AllGroupsVisited(tasks: seq<PlannedTask>, keys: seq<string>, groups: map<string, seq<nat>>, order: seq<nat>)
    requires Grouping(tasks, |tasks|, keys, groups)
    requires Within(order, |tasks|) && SetOf(order) == HitIn(tasks, keys)
    ensures DemotedAt(tasks, HitIn(tasks, keys)) == Demoted(tasks)
    ensures forall id :: id in IdsAt(tasks, order) <==>
              exists i | 0 <= i < |tasks| :: Ungoverned(tasks, i) && tasks[i].taskId == id
  {
    var names := IdsAt(tasks, order);
    forall i: nat | i < |tasks| && Ungoverned(tasks, i)
      ensures i in HitIn(tasks, keys) && tasks[i].taskId in names
    {
      assert i in SetOf(order);
      var p :| 0 <= p < |order| && order[p] == i;
      assert names[p] == tasks[i].taskId;
    }
    forall p | 0 <= p < |names|
      ensures Ungoverned(tasks, order[p]) && tasks[order[p]].taskId == names[p]
    {
      assert order[p] in SetOf(order);
    }
  }

  /** The list and the report after the groups in visited were handled, in that order. */
  ghost predicate RepairedSoFar(was: seq<PlannedTask>, visited: seq<string>, order: seq<nat>,
                                tasks: seq<PlannedTask>, demoted: seq<string>)
  {
    && tasks == DemotedAt(was, HitIn(was, visited))
    && Within(order, |was|)
    && SetOf(order) == HitIn(was, visited)
    && demoted == IdsAt(was, order)
  }

  lemma OneMoreGroup(was: seq<PlannedTask>, visited: seq<string>, order: seq<nat>, g: string, members: seq<nat>,
                     moved: seq<nat>)
    requires Within(order, |was|) && SetOf(order) == HitIn(was, visited)
    requires g != "" && g !in visited && MembersOf(was, |was|, g, members)
    requires moved == if |members| >= 2 && LacksContract(was, members) then members else []
    ensures RepairedSoFar(was, visited + [g], order + moved,
                          DemotedAt(was, HitIn(was, visited) + SetOf(moved)), IdsAt(was, order) + IdsAt(was, moved))
  {
    VisitGroup(was, visited, g, members);
    AppendOrder(was, order, moved);
    assert SetOf([]) == {};
  }

  lemma AppendOrder(was: seq<PlannedTask>, order: seq<nat>, moved: seq<nat>)
    requires Within(order, |was|) && Within(moved, |was|)
    ensures Within(order + moved, |was|)
    ensures SetOf(order + moved) == SetOf(order) + SetOf(moved)
    ensures IdsAt(was, order + moved) == IdsAt(was, order) + IdsAt(was, moved)
  {
  }

  /** The repair, in place on the artifact's own list; reports whom it demoted. */
  method DemoteUngovernedParallelGroups(tasks: array<PlannedTask>) returns (demoted: seq<string>)
    modifies tasks
    ensures tasks[..] == Demoted(old(tasks[..]))
    ensures forall id :: id in demoted <==>
              exists i | 0 <= i < |old(tasks[..])| :: Ungoverned(old(tasks[..]), i) && old(tasks[..])[i].taskId == id
  {
    ghost var was := tasks[..];
    var keys, groups := GroupTasks(tasks);
    demoted := [];
    ghost var order: seq<nat> := [];
    assert RepairedSoFar(was, keys[..0], order, tasks[..], demoted);
    for k := 0 to |keys|
      invariant RepairedSoFar(was, keys[..k], order, tasks[..], demoted)
    {
      var names, moved := RepairGroup(tasks, groups[keys[k]], was, HitIn(was, keys[..k]));
      OneMoreGroup(was, keys[..k], order, keys[k], groups[keys[k]], moved);
      assert keys[..k + 1] == keys[..k] + [keys[k]];
      demoted := demoted + names;
      order := order + moved;
    }
    assert keys[..|keys|] == keys;
    AllGroupsVisited(was, keys, groups, order);
  }

  lemma DemotedTwice(tasks: seq<PlannedTask>, a: set<nat>, b: set<nat>)
    ensures DemotedAt(DemotedAt(tasks, a), b) == DemotedAt(tasks, a + b)
  {
  }

  // ---- Generation --------------------------------------------------------

  function Generated(version: nat, out: PlanOutput, budget: Budget): Result<PlanArtifact, PlanError> {
    if MeetsSchema(version, out, budget) then
      Success(PlanArtifact(
        version, (set f | f in out.scopeIn), out.scopeOut, out.acceptanceCriteria,
        Demoted(PlannedAll(out.subtasks)), out.riskTier, out.crossCuttingOrHighRisk, out.storySize, budget))
    else
      Failure(SchemaViolation)
  }

  /** Budget first, then the artifact: the order in which the orchestrator does it. */
  function PlanFor(budgets: Budgets, version: nat, out: PlanOutput): Result<PlanArtifact, PlanError> {
    match ResolveBudget(out.storySize, out.crossCuttingOrHighRisk, budgets)
    case Failure(e) => Failure(NoBudget(e))
    case Success(budget) => Generated(version, out, budget)
  }

  /** Subtask i of an authored plan shares its group with another one, and some member has no contract. */
  ghost predicate SharedWithoutContract(sts: seq<SubTask>, i: nat)
    requires i < |sts|
  {
    var g := sts[i].parallelGroup;
    && g.Some? && g.value != ""
    && (exists j | 0 <= j < |sts| :: j != i && sts[j].parallelGroup == g)
    && (exists j | 0 <= j < |sts| :: sts[j].parallelGroup == g && sts[j].interfaceContract in {None, Some("")})
  }

  /** What an artifact records of the plan it was made from. */
  ghost predicate Records(a: PlanArtifact, version: nat, out: PlanOutput, budget: Budget) {
    && a.planVersion == version && a.budget == budget
    && (forall f :: f in a.inScope <==> f in out.scopeIn) && a.outOfScope == out.scopeOut
    && a.criteria == out.acceptanceCriteria && a.riskTier == out.riskTier
    && a.highRisk == out.crossCuttingOrHighRisk && a.storySize == out.storySize
    && |a.tasks| == |out.subtasks|
    && forall i | 0 <= i < |a.tasks| :: TaskRecords(a.tasks[i], out.subtasks, i)
  }

  /** Everything about a subtask is kept but the group of one that shares it without a contract for all. */
  ghost predicate TaskRecords(t: PlannedTask, sts: seq<SubTask>, i: nat)
    requires i < |sts|
  {
    && t.taskId == sts[i].taskId && t.description == sts[i].description
    && t.dependsOn == sts[i].dependsOn && t.interfaceContract == sts[i].interfaceContract
    && t.parallelGroup == (if SharedWithoutContract(sts, i) then None else sts[i].parallelGroup)
    && (t.mode.Parallel? <==> t.parallelGroup.Some? && t.parallelGroup.value != "")
  }

  lemma UngovernedAsAuthored(sts: seq<SubTask>, i: nat)
    requires i < |sts|
    ensures Ungoverned(PlannedAll(sts), i) <==> SharedWithoutContract(sts, i)
  {
    var tasks := PlannedAll(sts);
    if SharedWithoutContract(sts, i) {
      var j :| 0 <= j < |sts| && j != i && sts[j].parallelGroup == sts[i].parallelGroup;
      assert SameGroup(tasks, i, j);
      var k :| 0 <= k < |sts| && sts[k].parallelGroup == sts[i].parallelGroup && sts[k].interfaceContract in {None, Some("")};
      assert SameGroup(tasks, i, k) && !Truthy(tasks[k].interfaceContract);
    }
    if Ungoverned(tasks, i) {
      var j :| 0 <= j < |tasks| && j != i && SameGroup(tasks, i, j);
      assert sts[j].parallelGroup == sts[i].parallelGroup;
      var k :| 0 <= k < |tasks| && SameGroup(tasks, i, k) && !Truthy(tasks[k].interfaceContract);
      assert sts[k].parallelGroup == sts[i].parallelGroup;
    }
  }

  /** An artifact records the whole plan, and the budget its size and flag resolve to. */
  lemma GeneratedRecords(version: nat, out: PlanOutput, budget: Budget)
    ensures Generated(version, out, budget).Success? ==> Records(Generated(version, out, budget).value, version, out, budget)
  {
    hide Ungoverned, SharedWithoutContract;
    forall i: nat | i < |out.subtasks|
      ensures Ungoverned(PlannedAll(out.subtasks), i) <==> SharedWithoutContract(out.subtasks, i)
    {
      UngovernedAsAuthored(out.subtasks, i);
    }
  }

  /** So does every plan that is stored; and a plan is refused for want of a budget exactly if none resolves. */
  lemma PlanIsRecorded(budgets: Budgets, version: nat, out: PlanOutput)
    ensures var r, budget := PlanFor(budgets, version, out), ResolveBudget(out.storySize, out.crossCuttingOrHighRisk, budgets);
            && (r.Success? ==> budget.Success? && Records(r.value, version, out, budget.value))
            && (r.Failure? && r.error.NoBudget? <==> budget.Failure?)
            && (budget.Failure? ==> r == Failure(NoBudget(budget.error)))
  {
    var budget := ResolveBudget(out.storySize, out.crossCuttingOrHighRisk, budgets);
    if budget.Success? {
      GeneratedRecords(version, out, budget.value);
    }
    hide Records, ResolveBudget, MeetsSchema, Demoted;
  }

  method GeneratePlanArtifact(version: nat, out: PlanOutput, budget: Budget)
    returns (r: Result<PlanArtifact, PlanError>, demoted: seq<string>)
    ensures r == Generated(version, out, budget)
    ensures r.Success? ==> Records(r.value, version, out, budget)
    ensures r.Success? ==> forall id :: id in demoted <==>
              exists i | 0 <= i < |out.subtasks| ::
                Ungoverned(PlannedAll(out.subtasks), i) && out.subtasks[i].taskId == id
  {
    GeneratedRecords(version, out, budget);
    hide Records;
    demoted := [];
    if !MeetsSchema(version, out, budget) {
      return Failure(SchemaViolation), demoted;
    }
    var planned := PlannedAll(out.subtasks);
    var tasks := new PlannedTask[|planned|](i requires 0 <= i < |planned| => planned[i]);
    assert tasks[..] == planned;
    demoted := DemoteUngovernedParallelGroups(tasks);
    forall id
      ensures id in demoted <==> exists i | 0 <= i < |out.subtasks| ::
                Ungoverned(planned, i) && out.subtasks[i].taskId == id
    {
      if id in demoted {
        var i :| 0 <= i < tasks.Length && Ungoverned(planned, i) && planned[i].taskId == id;
        assert out.subtasks[i].taskId == id;
      }
    }
    r := Success(PlanArtifact(
      version, (set f | f in out.scopeIn), out.scopeOut, out.acceptanceCriteria,
      tasks[..], out.riskTier, out.crossCuttingOrHighRisk, out.storySize, budget));
  }

  /** What every artifact in the store satisfies: governed, and its budget still resolves. */
  predicate WellPlanned(budgets: Budgets, a: PlanArtifact) {
    && Governed(a.tasks)
    && ResolveBudget(a.storySize, a.highRisk, budgets).Success?
    && (forall t :: t in a.tasks ==> t.taskId != "")
  }

  lemma PlanForIsWellPlanned(budgets: Budgets, version: nat, out: PlanOutput)
    ensures PlanFor(budgets, version, out).Success? ==>
              var a := PlanFor(budgets, version, out).value;
              && WellPlanned(budgets, a)
              && a.planVersion == version
              && |a.tasks| == |out.subtasks|
              && (forall i | 0 <= i < |a.tasks| ::
                   a.tasks[i].taskId == out.subtasks[i].taskId && a.tasks[i].dependsOn == out.subtasks[i].dependsOn)
  {
    DemotedIsGoverned(PlannedAll(out.subtasks));
  }

  /** Only the in-scope files grow, and the version moves by one. */
  function Extended(a: PlanArtifact, extra: set<string>): PlanArtifact {
    a.(inScope := a.inScope + extra, planVersion := a.planVersion + 1)
  }
}
