/** The subtask graph: which subtask is next, which run together, and when the graph can finish. */
module Scheduling {
  import opened Common
  import opened Plans

  predicate Ready(t: PlannedTask, done: seq<string>) {
    t.taskId !in done && forall d | d in t.dependsOn :: d in done
  }

  /** The first subtask in plan order that is not done and whose dependencies are. */
  function NextSubtask(tasks: seq<PlannedTask>, done: seq<string>): (r: Option<PlannedTask>)
    ensures r.Some? ==> r.value in tasks && Ready(r.value, done)
    ensures r.None? ==> forall t :: t in tasks ==> !Ready(t, done)
  {
    if tasks == [] then None
    else if Ready(tasks[0], done) then Some(tasks[0])
    else NextSubtask(tasks[1..], done)
  }

  function ReadyInGroup(tasks: seq<PlannedTask>, done: seq<string>, g: string): (r: seq<PlannedTask>)
    ensures forall t :: t in r <==> t in tasks && Ready(t, done) && t.parallelGroup == Some(g)
  {
    if tasks == [] then []
    else
      (if Ready(tasks[0], done) && tasks[0].parallelGroup == Some(g) then [tasks[0]] else [])
      + ReadyInGroup(tasks[1..], done, g)
  }

  /** `first` alone, or every ready member of its group. */
  function ReadySubtaskBatch(tasks: seq<PlannedTask>, done: seq<string>, first: PlannedTask): seq<PlannedTask> {
    if !Truthy(first.parallelGroup) then [first] else ReadyInGroup(tasks, done, first.parallelGroup.value)
  }

  /** The next subtask is the first ready one of the plan, and nothing before it is ready. */
  lemma {:induction false} NextIsFirstReady(tasks: seq<PlannedTask>, done: seq<string>, i: nat)
    requires i < |tasks| && Ready(tasks[i], done) && forall j | 0 <= j < i :: !Ready(tasks[j], done)
    ensures NextSubtask(tasks, done) == Some(tasks[i])
  {
    if i > 0 {
      NextIsFirstReady(tasks[1..], done, i - 1);
    }
  }

  /** Increasing places in a list, at which it holds exactly those values. */
  ghost predicate At(tasks: seq<PlannedTask>, places: seq<nat>, values: seq<PlannedTask>) {
    && |places| == |values|
    && (forall p, q | 0 <= p < q < |places| :: places[p] < places[q])
    && (forall p | 0 <= p < |places| :: places[p] < |tasks| && tasks[places[p]] == values[p])
  }

  /** The same places, counted in the list with one more in front. */
  lemma AtShifted(tasks: seq<PlannedTask>, rest: seq<nat>, values: seq<PlannedTask>) returns (places: seq<nat>)
    requires tasks != [] && At(tasks[1..], rest, values)
    ensures At(tasks, places, values) && forall x: nat :: x in places <==> x > 0 && x - 1 in rest
    ensures forall p | 0 <= p < |places| :: places[p] > 0
  {
    places := seq(|rest|, p requires 0 <= p < |rest| => rest[p] + 1);
    assert forall p | 0 <= p < |rest| :: places[p] == rest[p] + 1;
    forall x: nat | x > 0 && x - 1 in rest ensures x in places {
      var p :| 0 <= p < |rest| && rest[p] == x - 1;
      assert places[p] == x;
    }
  }

  lemma AtFirst(tasks: seq<PlannedTask>, rest: seq<nat>, values: seq<PlannedTask>)
    requires tasks != [] && At(tasks, rest, values) && forall p | 0 <= p < |rest| :: rest[p] > 0
    ensures At(tasks, [0] + rest, [tasks[0]] + values)
    ensures forall x: nat :: x in [0] + rest <==> x == 0 || x in rest
  {
  }

  /** A batch of a group is every ready subtask of it, in plan order: the places are the ready ones, no more and no fewer. */
  lemma {:induction false} BatchIsTheReadyGroup(tasks: seq<PlannedTask>, done: seq<string>, g: string) returns (places: seq<nat>)
    ensures At(tasks, places, ReadyInGroup(tasks, done, g))
    ensures forall i: nat | i < |tasks| :: i in places <==> Ready(tasks[i], done) && tasks[i].parallelGroup == Some(g)
  {
    if tasks == [] {
      places := [];
    } else {
      var rest := BatchIsTheReadyGroup(tasks[1..], done, g);
      places := OneMorePlace(tasks, done, g, rest);
    }
  }

  lemma OneMorePlace(tasks: seq<PlannedTask>, done: seq<string>, g: string, rest: seq<nat>) returns (places: seq<nat>)
    requires tasks != [] && At(tasks[1..], rest, ReadyInGroup(tasks[1..], done, g))
    requires forall i: nat | i < |tasks| - 1 :: i in rest <==> Ready(tasks[1..][i], done) && tasks[1..][i].parallelGroup == Some(g)
    ensures At(tasks, places, ReadyInGroup(tasks, done, g))
    ensures forall i: nat | i < |tasks| :: i in places <==> Ready(tasks[i], done) && tasks[i].parallelGroup == Some(g)
  {
    places := AtShifted(tasks, rest, ReadyInGroup(tasks[1..], done, g));
    hide Ready, At;
    if Ready(tasks[0], done) && tasks[0].parallelGroup == Some(g) {
      AtFirst(tasks, places, ReadyInGroup(tasks[1..], done, g));
      places := [0] + places;
    }
    forall i: nat | i < |tasks| ensures i in places <==> Ready(tasks[i], done) && tasks[i].parallelGroup == Some(g) {
      if i > 0 {
        assert tasks[1..][i - 1] == tasks[i];
      }
    }
  }

  /** The batch of the next subtask: that one alone if it is in no group, and all of its group that is ready if it is in one. */
  lemma BatchOfNext(tasks: seq<PlannedTask>, done: seq<string>, i: nat) returns (places: seq<nat>)
    requires i < |tasks| && Ready(tasks[i], done) && forall j | 0 <= j < i :: !Ready(tasks[j], done)
    ensures var first, g := NextSubtask(tasks, done), tasks[i].parallelGroup;
            && first == Some(tasks[i])
            && At(tasks, places, ReadySubtaskBatch(tasks, done, first.value))
            && (g.None? || g.value == "" ==> places == [i])
            && (g.Some? && g.value != "" ==>
                 forall k: nat | k < |tasks| :: k in places <==> Ready(tasks[k], done) && tasks[k].parallelGroup == g)
  {
    hide Ready, NextSubtask;
    NextIsFirstReady(tasks, done, i);
    if Truthy(tasks[i].parallelGroup) {
      places := BatchIsTheReadyGroup(tasks, done, tasks[i].parallelGroup.value);
    } else {
      places := [i];
    }
  }

  predicate UniqueIds(tasks: seq<PlannedTask>) {
    forall i, j | 0 <= i < j < |tasks| :: tasks[i].taskId != tasks[j].taskId
  }

  predicate AllDone(tasks: seq<PlannedTask>, done: seq<string>) {
    forall t | t in tasks :: t.taskId in done
  }

  /** Every id in `done` names a task whose dependencies all stand earlier in `done`. */
  ghost predicate LinearExtension(tasks: seq<PlannedTask>, done: seq<string>) {
    forall k | 0 <= k < |done| :: Justified(tasks, done[k], done[..k])
  }

  ghost predicate Justified(tasks: seq<PlannedTask>, id: string, before: seq<string>) {
    exists t :: t in tasks && t.taskId == id && forall d :: d in t.dependsOn ==> d in before
  }

  ghost predicate HasTask(tasks: seq<PlannedTask>, id: string) {
    exists t :: t in tasks && t.taskId == id
  }

  predicate NoDuplicates(s: seq<string>) {
    forall i, j | 0 <= i < j < |s| :: s[i] != s[j]
  }

  function IdsOf(tasks: seq<PlannedTask>): (r: seq<string>)
    ensures |r| == |tasks| && forall i | 0 <= i < |r| :: r[i] == tasks[i].taskId
  {
    seq(|tasks|, i requires 0 <= i < |tasks| => tasks[i].taskId)
  }

  /** Completing any first part of a ready batch keeps the order of completion a linear extension. */
  lemma CompletingKeepsOrder(tasks: seq<PlannedTask>, done: seq<string>, batch: seq<PlannedTask>)
    requires LinearExtension(tasks, done)
    requires forall t :: t in batch ==> t in tasks && Ready(t, done)
    ensures LinearExtension(tasks, done + IdsOf(batch))
  {
    var all := done + IdsOf(batch);
    forall k | 0 <= k < |all|
      ensures Justified(tasks, all[k], all[..k])
    {
      if k < |done| {
        assert all[..k] == done[..k];
      } else {
        var t := batch[k - |done|];
        assert t in batch && t.taskId == all[k];
        forall d | d in t.dependsOn
          ensures d in all[..k]
        {
          var p :| 0 <= p < |done| && done[p] == d;
          assert all[..k][p] == d;
        }
      }
    }
  }

  lemma UniqueTail(tasks: seq<PlannedTask>)
    requires UniqueIds(tasks) && tasks != []
    ensures UniqueIds(tasks[1..])
    ensures forall t :: t in tasks[1..] ==> t.taskId != tasks[0].taskId
  {
  }

  /** The ready members of a group are a subsequence of the plan. */
  lemma {:induction false} BatchIsOrdered(tasks: seq<PlannedTask>, done: seq<string>, g: string)
    requires UniqueIds(tasks)
    ensures NoDuplicates(IdsOf(ReadyInGroup(tasks, done, g)))
  {
    if tasks != [] {
      UniqueTail(tasks);
      BatchIsOrdered(tasks[1..], done, g);
      var rest := ReadyInGroup(tasks[1..], done, g);
      forall i | 0 <= i < |rest|
        ensures IdsOf(rest)[i] != tasks[0].taskId
      {
        assert rest[i] in rest;
      }
      NoDuplicatesCons(tasks[0], rest);
      assert ReadyInGroup(tasks, done, g) == rest || ReadyInGroup(tasks, done, g) == [tasks[0]] + rest;
    }
  }

  lemma NoDuplicatesCons(t: PlannedTask, rest: seq<PlannedTask>)
    requires NoDuplicates(IdsOf(rest)) && forall i | 0 <= i < |rest| :: IdsOf(rest)[i] != t.taskId
    ensures NoDuplicates(IdsOf([t] + rest))
  {
    assert IdsOf([t] + rest) == [t.taskId] + IdsOf(rest);
  }

  lemma CompletingKeepsDistinct(tasks: seq<PlannedTask>, done: seq<string>, first: PlannedTask, n: nat)
    requires UniqueIds(tasks) && NoDuplicates(done)
    requires first in tasks && Ready(first, done) && n <= |ReadySubtaskBatch(tasks, done, first)|
    ensures NoDuplicates(done + IdsOf(ReadySubtaskBatch(tasks, done, first)[..n]))
  {
    var batch := ReadySubtaskBatch(tasks, done, first);
    if Truthy(first.parallelGroup) {
      BatchIsOrdered(tasks, done, first.parallelGroup.value);
    }
    forall i | 0 <= i < n
      ensures IdsOf(batch[..n])[i] !in done
    {
      assert batch[i] in batch;
    }
    assert forall i | 0 <= i < n :: IdsOf(batch[..n])[i] == IdsOf(batch)[i];
  }

  // ---- Progress ----------------------------------------------------------

  function Undone(tasks: seq<PlannedTask>, done: seq<string>): nat {
    if tasks == [] then 0
    else (if tasks[0].taskId in done then 0 else 1) + Undone(tasks[1..], done)
  }

  lemma {:induction false} UndoneShrinks(tasks: seq<PlannedTask>, done: seq<string>, more: seq<string>)
    ensures Undone(tasks, done + more) <= Undone(tasks, done)
    ensures (exists t :: t in tasks && t.taskId !in done && t.taskId in more) ==>
              Undone(tasks, done + more) < Undone(tasks, done)
  {
    if tasks != [] {
      UndoneShrinks(tasks[1..], done, more);
      assert forall t :: t in tasks <==> t == tasks[0] || t in tasks[1..];
    }
  }

  lemma {:induction false} UndoneZero(tasks: seq<PlannedTask>, done: seq<string>)
    ensures Undone(tasks, done) == 0 <==> AllDone(tasks, done)
  {
    if tasks != [] {
      UndoneZero(tasks[1..], done);
      assert forall t :: t in tasks <==> t == tasks[0] || t in tasks[1..];
    }
  }

  // ---- Which graphs finish -----------------------------------------------

  /** A schedule: an order of completion that reaches every task. */
  ghost predicate Schedulable(tasks: seq<PlannedTask>) {
    exists order :: LinearExtension(tasks, order) && AllDone(tasks, order)
  }

  /**
   * Reaching "no next subtask" means "all done" exactly on schedulable graphs,
   * whatever has been completed so far.
   */
  lemma NoNextMeansDone(tasks: seq<PlannedTask>, done: seq<string>)
    requires LinearExtension(tasks, done) && NextSubtask(tasks, done).None?
    ensures AllDone(tasks, done) <==> Schedulable(tasks)
  {
    if Schedulable(tasks) {
      var order :| LinearExtension(tasks, order) && AllDone(tasks, order);
      OrderIsCovered(tasks, done, order, |order|);
      assert order[..|order|] == order;
    }
  }

  lemma {:induction false} OrderIsCovered(tasks: seq<PlannedTask>, done: seq<string>, order: seq<string>, n: nat)
    requires LinearExtension(tasks, order) && n <= |order|
    requires forall t :: t in tasks ==> !Ready(t, done)
    ensures forall id :: id in order[..n] ==> id in done
  {
    if n > 0 {
      OrderIsCovered(tasks, done, order, n - 1);
      assert order[..n] == order[..n - 1] + [order[n - 1]];
      assert Justified(tasks, order[n - 1], order[..n - 1]);
      var t :| t in tasks && t.taskId == order[n - 1] && forall d :: d in t.dependsOn ==> d in order[..n - 1];
      assert !Ready(t, done);
    }
  }

  /** A blocked set: each member waits for an id that is in the set or that no task carries. */
  ghost predicate Blocked(tasks: seq<PlannedTask>, ids: set<string>) {
    && (exists id :: id in ids && HasTask(tasks, id))
    && forall t :: t in tasks && t.taskId in ids ==>
         exists d :: d in t.dependsOn && (d in ids || !HasTask(tasks, d))
  }

  /** A graph cannot finish exactly when it contains a cycle or a dangling dependency, as a blocked set. */
  lemma UnschedulableIffBlocked(tasks: seq<PlannedTask>)
    ensures !Schedulable(tasks) <==> exists ids :: Blocked(tasks, ids)
  {
    var end := RunToEnd(tasks, []);
    if !Schedulable(tasks) {
      var ids := set t | t in tasks && t.taskId !in end :: t.taskId;
      forall t | t in tasks && t.taskId in ids
        ensures exists d :: d in t.dependsOn && (d in ids || !HasTask(tasks, d))
      {
        assert !Ready(t, end);
        var d :| d in t.dependsOn && d !in end;
        assert d in ids || !HasTask(tasks, d);
      }
      assert !AllDone(tasks, end);
      var left :| left in tasks && left.taskId !in end;
      assert left.taskId in ids && HasTask(tasks, left.taskId);
      assert Blocked(tasks, ids);
    }
    if ids :| Blocked(tasks, ids) {
      forall order | LinearExtension(tasks, order)
        ensures !AllDone(tasks, order)
      {
        BlockedNeverDone(tasks, ids, order, |order|);
        assert order[..|order|] == order;
      }
    }
  }

  lemma {:induction false} BlockedNeverDone(tasks: seq<PlannedTask>, ids: set<string>, order: seq<string>, n: nat)
    requires Blocked(tasks, ids) && LinearExtension(tasks, order) && n <= |order|
    ensures forall id :: id in order[..n] ==> id !in ids
  {
    if n > 0 {
      BlockedNeverDone(tasks, ids, order, n - 1);
      assert order[..n] == order[..n - 1] + [order[n - 1]];
      assert Justified(tasks, order[n - 1], order[..n - 1]);
      var t :| t in tasks && t.taskId == order[n - 1] && forall d :: d in t.dependsOn ==> d in order[..n - 1];
      forall d | d in t.dependsOn
        ensures d !in ids && HasTask(tasks, d)
      {
        var p :| 0 <= p < n - 1 && order[p] == d;
        assert Justified(tasks, order[p], order[..p]);
      }
    }
  }

  /** The scheduler run one subtask at a time until nothing is ready. */
  lemma RunToEnd(tasks: seq<PlannedTask>, done: seq<string>) returns (end: seq<string>)
    requires LinearExtension(tasks, done)
    ensures LinearExtension(tasks, end) && NextSubtask(tasks, end).None?
    ensures AllDone(tasks, end) <==> Schedulable(tasks)
    decreases Undone(tasks, done)
  {
    var next := NextSubtask(tasks, done);
    if next.None? {
      end := done;
      NoNextMeansDone(tasks, end);
    } else {
      CompletingKeepsOrder(tasks, done, [next.value]);
      UndoneShrinks(tasks, done, IdsOf([next.value]));
      assert IdsOf([next.value])[0] == next.value.taskId;
      end := RunToEnd(tasks, done + IdsOf([next.value]));
    }
  }

  /** Every dependency is a task of a strictly smaller rank: acyclic and dependency-closed. */
  ghost predicate Ranked(tasks: seq<PlannedTask>, rank: map<string, nat>) {
    forall t :: t in tasks ==> t.taskId in rank && forall d :: d in t.dependsOn ==> Below(tasks, rank, d, rank[t.taskId])
  }

  ghost predicate Below(tasks: seq<PlannedTask>, rank: map<string, nat>, id: string, n: nat) {
    HasTask(tasks, id) && id in rank && rank[id] < n
  }

  lemma RankedIsSchedulable(tasks: seq<PlannedTask>, rank: map<string, nat>)
    requires Ranked(tasks, rank)
    ensures Schedulable(tasks)
  {
    var end := RunToEnd(tasks, []);
    forall t | t in tasks
      ensures t.taskId in end
    {
      LowRanksDone(tasks, rank, end, rank[t.taskId] + 1);
      assert Below(tasks, rank, t.taskId, rank[t.taskId] + 1);
    }
  }

  lemma {:induction false} LowRanksDone(tasks: seq<PlannedTask>, rank: map<string, nat>, end: seq<string>, n: nat)
    requires Ranked(tasks, rank) && NextSubtask(tasks, end).None?
    ensures forall id :: Below(tasks, rank, id, n) ==> id in end
  {
    if n > 0 {
      LowRanksDone(tasks, rank, end, n - 1);
      forall id | Below(tasks, rank, id, n)
        ensures id in end
      {
        var t :| t in tasks && t.taskId == id;
        forall d | d in t.dependsOn
          ensures d in end
        {
          assert Below(tasks, rank, d, n - 1);
        }
        assert !Ready(t, end);
      }
    }
  }

  // ---- What may run in parallel ------------------------------------------

  /** p walks dependencies: each id names a task that depends on the next one. */
  ghost predicate DependencyPath(tasks: seq<PlannedTask>, p: seq<string>) {
    forall k | 0 <= k < |p| - 1 :: exists t :: t in tasks && t.taskId == p[k] && p[k + 1] in t.dependsOn
  }

  /** Whatever carries the id x depends on d. */
  predicate Needs(tasks: seq<PlannedTask>, x: string, d: string) {
    forall t :: t in tasks && t.taskId == x ==> d in t.dependsOn
  }

  /** a itself depends on the first id of p, and each id needs the next one. */
  predicate NeedsAll(tasks: seq<PlannedTask>, a: PlannedTask, p: seq<string>) {
    && (p != [] ==> p[0] in a.dependsOn)
    && (forall k | 0 <= k < |p| - 1 :: Needs(tasks, p[k], p[k + 1]))
  }

  /** Everything a completed or ready task needs, however far away, is completed, whatever the ids. */
  lemma {:induction false} NeedsAreDone(tasks: seq<PlannedTask>, done: seq<string>, a: PlannedTask, p: seq<string>, n: nat)
    requires LinearExtension(tasks, done) && Ready(a, done) && NeedsAll(tasks, a, p) && n < |p|
    ensures p[n] in done
  {
    if n > 0 {
      NeedsAreDone(tasks, done, a, p, n - 1);
      var k :| 0 <= k < |done| && done[k] == p[n - 1];
      assert Justified(tasks, done[k], done[..k]);
      assert Needs(tasks, p[n - 1], p[n]);
    }
  }

  /** With unique ids, what one task of an id depends on is what the id needs. */
  lemma PathNeeds(tasks: seq<PlannedTask>, a: PlannedTask, p: seq<string>)
    requires UniqueIds(tasks) && a in tasks && DependencyPath(tasks, p) && |p| > 0 && p[0] == a.taskId
    ensures NeedsAll(tasks, a, p[1..])
  {
    forall k | 0 <= k < |p| - 1 ensures Needs(tasks, p[k], p[k + 1]) {
      var t :| t in tasks && t.taskId == p[k] && p[k + 1] in t.dependsOn;
      forall u | u in tasks && u.taskId == p[k] ensures p[k + 1] in u.dependsOn {
        SameIdSameTask(tasks, t, u);
      }
    }
  }

  lemma SameIdSameTask(tasks: seq<PlannedTask>, a: PlannedTask, b: PlannedTask)
    requires UniqueIds(tasks) && a in tasks && b in tasks && a.taskId == b.taskId
    ensures a == b
  {
    var i :| 0 <= i < |tasks| && tasks[i] == a;
    var j :| 0 <= j < |tasks| && tasks[j] == b;
  }

  /** A batch of two or more comes from two places of the plan, whichever member one looks at. */
  lemma {:induction false} BatchHasTwoPlaces(tasks: seq<PlannedTask>, done: seq<string>, g: string, t: PlannedTask)
    requires |ReadyInGroup(tasks, done, g)| >= 2 && t in ReadyInGroup(tasks, done, g)
    ensures exists i, j :: 0 <= i < |tasks| && 0 <= j < |tasks| && i != j && tasks[i] == t && tasks[j].parallelGroup == Some(g)
  {
    var rest := ReadyInGroup(tasks[1..], done, g);
    if Ready(tasks[0], done) && tasks[0].parallelGroup == Some(g) {
      var o := if t == tasks[0] then rest[0] else t;
      assert o in rest;
      var k :| 0 <= k < |tasks[1..]| && tasks[1..][k] == o;
      assert tasks[k + 1] == o;
      if t == tasks[0] {
        assert tasks[0] == t && tasks[k + 1].parallelGroup == Some(g);
      } else {
        assert tasks[k + 1] == t && tasks[0].parallelGroup == Some(g);
      }
    } else {
      BatchHasTwoPlaces(tasks[1..], done, g, t);
      var i, j :| 0 <= i < |tasks[1..]| && 0 <= j < |tasks[1..]| && i != j && tasks[1..][i] == t && tasks[1..][j].parallelGroup == Some(g);
      assert tasks[i + 1] == t && tasks[j + 1].parallelGroup == Some(g);
    }
  }

  /**
   * A batch that goes to the parallel call is governed: one group, and a contract each. With unique
   * ids its members are also distinct, and none needs another, directly or through any chain.
   */
  lemma ParallelBatchIsSafe(tasks: seq<PlannedTask>, done: seq<string>, first: PlannedTask)
    requires Governed(tasks) && LinearExtension(tasks, done)
    requires NextSubtask(tasks, done) == Some(first)
    requires |ReadySubtaskBatch(tasks, done, first)| >= 2
    ensures Truthy(first.parallelGroup)
    ensures forall t :: t in ReadySubtaskBatch(tasks, done, first) ==>
              t.parallelGroup == first.parallelGroup && Truthy(t.interfaceContract)
    ensures UniqueIds(tasks) ==> Independent(tasks, ReadySubtaskBatch(tasks, done, first))
  {
    hide Governed, LinearExtension, NextSubtask, Independent;
    forall t | t in ReadySubtaskBatch(tasks, done, first)
      ensures t.parallelGroup == first.parallelGroup && Truthy(t.interfaceContract)
    {
      MemberIsGoverned(tasks, done, first, t);
    }
    if UniqueIds(tasks) {
      BatchIsIndependent(tasks, done, first);
    }
  }

  lemma MemberIsGoverned(tasks: seq<PlannedTask>, done: seq<string>, first: PlannedTask, t: PlannedTask)
    requires Governed(tasks) && |ReadySubtaskBatch(tasks, done, first)| >= 2 && t in ReadySubtaskBatch(tasks, done, first)
    ensures t.parallelGroup == first.parallelGroup && Truthy(t.interfaceContract)
  {
    var g := first.parallelGroup.value;
    BatchHasTwoPlaces(tasks, done, g, t);
    var i, j :| 0 <= i < |tasks| && 0 <= j < |tasks| && i != j && tasks[i] == t && tasks[j].parallelGroup == Some(g);
    assert SameGroup(tasks, i, j) && SameGroup(tasks, i, i);
    assert !Ungoverned(tasks, i);
  }

  lemma BatchIsIndependent(tasks: seq<PlannedTask>, done: seq<string>, first: PlannedTask)
    requires UniqueIds(tasks) && LinearExtension(tasks, done) && |ReadySubtaskBatch(tasks, done, first)| >= 2
    ensures Independent(tasks, ReadySubtaskBatch(tasks, done, first))
  {
    hide LinearExtension;
    var batch := ReadySubtaskBatch(tasks, done, first);
    BatchIsOrdered(tasks, done, first.parallelGroup.value);
    forall a, b, p | a in batch && b in batch && DependencyPath(tasks, p) && |p| >= 2 && p[0] == a.taskId
      ensures p[|p| - 1] != b.taskId
    {
      PathNeeds(tasks, a, p);
      NeedsAreDone(tasks, done, a, p[1..], |p| - 2);
    }
  }

  /** Distinct subtasks, none of which needs another through any chain of dependencies. */
  ghost predicate Independent(tasks: seq<PlannedTask>, batch: seq<PlannedTask>) {
    && NoDuplicates(IdsOf(batch))
    && (forall a, b, p :: a in batch && b in batch && DependencyPath(tasks, p) && |p| >= 2 && p[0] == a.taskId ==>
         p[|p| - 1] != b.taskId)
  }

  /** With an id used twice, a batch can hold what the plan records as one subtask twice. */
  lemma RepeatedIdsBreakIndependence()
    ensures exists tasks, done, first ::
              && Governed(tasks) && LinearExtension(tasks, done) && NextSubtask(tasks, done) == Some(first)
              && |ReadySubtaskBatch(tasks, done, first)| >= 2 && !Independent(tasks, ReadySubtaskBatch(tasks, done, first))
  {
    var a := PlannedTask("a", "", Parallel, Some("g"), [], Some("c"));
    var tasks := [a, a];
    assert tasks[1..] == [a] && [a][1..] == [];
    assert ReadyInGroup([a], [], "g") == [a];
    assert ReadyInGroup(tasks, [], "g") == [a, a];
    assert ReadySubtaskBatch(tasks, [], a) == [a, a];
    assert IdsOf([a, a])[0] == IdsOf([a, a])[1];
    assert !Independent(tasks, [a, a]);
    assert Governed(tasks) && LinearExtension(tasks, []) && NextSubtask(tasks, []) == Some(a);
  }

  /** The batch is never empty and starts with the next subtask's own completion in reach. */
  lemma BatchAdvances(tasks: seq<PlannedTask>, done: seq<string>, first: PlannedTask, n: nat)
    requires NextSubtask(tasks, done) == Some(first)
    requires n <= |ReadySubtaskBatch(tasks, done, first)|
    ensures ReadySubtaskBatch(tasks, done, first) != []
    ensures forall t :: t in ReadySubtaskBatch(tasks, done, first) ==> t in tasks && Ready(t, done)
    ensures var ids := IdsOf(ReadySubtaskBatch(tasks, done, first)[..n]);
            if n == 0 then Undone(tasks, done + ids) == Undone(tasks, done)
            else Undone(tasks, done + ids) < Undone(tasks, done)
  {
    var batch := ReadySubtaskBatch(tasks, done, first);
    assert first in batch;
    var ids := IdsOf(batch[..n]);
    if n == 0 {
      assert done + ids == done;
    } else {
      assert batch[0] in batch;
      assert ids[0] == batch[0].taskId;
      UndoneShrinks(tasks, done, ids);
    }
  }
}
