/** Safety of whole runs: statements about every history, with a crash possible after any event. */
module RunTheorems {
  import opened Common
  import opened Stages
  import opened Checkpoints
  import opened Plans
  import opened Scheduling
  import opened RunMachine
  import opened RunInvariants

  /** The state after the first n events. */
  function SysAt(budgets: Budgets, log: seq<Event>, n: nat): Sys
    requires History(budgets, log) && n <= |log|
  {
    PrefixHistory(budgets, log, n);
    Exec(budgets, log[..n]).value
  }

  function DiskAt(budgets: Budgets, log: seq<Event>, n: nat): Disk
    requires History(budgets, log) && n <= |log|
  {
    SysAt(budgets, log, n).disk
  }

  lemma StateAt(budgets: Budgets, log: seq<Event>, n: nat) returns (s: Sys)
    requires History(budgets, log) && n <= |log|
    ensures s == SysAt(budgets, log, n) && Exec(budgets, log[..n]) == Some(s) && Inv(budgets, s)
    ensures n < |log| ==> Next(budgets, s, log[n]).Some? && Next(budgets, s, log[n]) == Exec(budgets, log[..n + 1])
  {
    hide Exec, History, Inv, Next;
    PrefixHistory(budgets, log, n);
    HistoryKeepsInv(budgets, log[..n]);
    s := Exec(budgets, log[..n]).value;
  }

  /** One event of a history, with the states around it. */
  lemma Happened(budgets: Budgets, log: seq<Event>, n: nat) returns (s: Sys, s': Sys)
    requires History(budgets, log) && n < |log|
    ensures s == SysAt(budgets, log, n) && s' == SysAt(budgets, log, n + 1)
    ensures Inv(budgets, s) && Inv(budgets, s') && Next(budgets, s, log[n]) == Some(s')
  {
    hide Exec, History, Inv, Next, SysAt;
    s := StateAt(budgets, log, n);
    s' := StateAt(budgets, log, n + 1);
  }

  lemma FirstState(budgets: Budgets, log: seq<Event>)
    requires History(budgets, log)
    ensures SysAt(budgets, log, 0) == INITIAL
  {
    assert log[..0] == [];
  }

  /** What any one event does to the stage, and where it can happen. */
  predicate StepShape(s: Sys, e: Event, s': Sys) {
    var stage, stage' := s.disk.run.stage, s'.disk.run.stage;
    && stage' == (if e.Moved? then e.next else if e.AttemptAppended? then PlanAuthoring else stage)
    && (e.Moved? ==> e.from == stage && LegalTransition(stage, e.next))
    && (e.Moved? && stage.PlanApprovalGate? ==> e.next.Abandoned? || s.place == Entering(Implementation))
    && (e.Moved? && stage.PlanApprovalGate? ==> e.next.Implementation? || e.next.Abandoned?)
    && (e.Moved? && (e.next.ChangeReviewGate? || e.next.Packaging?) ==> s.place == Entering(e.next))
    && (e.AttemptAppended? ==> stage.PlanApprovalGate?)
    && (e.PlanReturned? ==> stage.PlanAuthoring?)
    && (e.Implement? ==> stage.Implementation?)
    && (e.Verify? ==> stage.Verification?)
    && (e.Packaged? ==> stage.Packaging?)
  }

  lemma StepHasShape(budgets: Budgets, s: Sys, e: Event)
    requires Inv(budgets, s) && Next(budgets, s, e).Some?
    ensures StepShape(s, e, Next(budgets, s, e).value)
  {
    hide WellPlanned, LinearExtension, Triggers, PlanFor, PlanStoreOk, NextSubtask, Due, AfterWork, Absorbed;
  }

  lemma ShapeAt(budgets: Budgets, log: seq<Event>, n: nat) returns (s: Sys, s': Sys)
    requires History(budgets, log) && n < |log|
    ensures Exec(budgets, log[..n]) == Some(s) && Exec(budgets, log[..n + 1]) == Some(s')
    ensures s.disk == DiskAt(budgets, log, n) && s'.disk == DiskAt(budgets, log, n + 1)
    ensures StepShape(s, log[n], s')
  {
    hide Exec, History, Inv, Next, SysAt;
    s := StateAt(budgets, log, n);
    s' := StateAt(budgets, log, n + 1);
    StepHasShape(budgets, s, log[n]);
  }

  /** The registry never has to refuse: with one driver, every edge taken is legal. */
  lemma EveryMoveIsLegal(budgets: Budgets, log: seq<Event>, i: nat)
    requires History(budgets, log) && i < |log| && log[i].Moved?
    ensures LegalTransition(log[i].from, log[i].next)
    ensures log[i].from == DiskAt(budgets, log, i).run.stage
    ensures log[i].next == DiskAt(budgets, log, i + 1).run.stage
    ensures DiskAt(budgets, log, i + 1).run.version == DiskAt(budgets, log, i).run.version + 1
  {
    hide Exec, History, Inv;
    var s := StateAt(budgets, log, i);
    MovedKeepsInv(budgets, s, log[i].from, log[i].next);
  }

  // ---- Completed work is never lost and never redone ---------------------

  function CompletedOf(d: Disk): seq<string> {
    if d.progress.Some? then d.progress.value.completed else []
  }

  function AckedOf(d: Disk): set<Trigger> {
    if d.progress.Some? then d.progress.value.acked else {}
  }

  /** Nothing that was recorded is dropped. */
  predicate WorkKept(d: Disk, d': Disk) {
    && CompletedOf(d) <= CompletedOf(d')
    && AckedOf(d) <= AckedOf(d')
    && (d.progress.Some? ==> d'.progress.Some? && d.progress.value.files <= d'.progress.value.files)
    && (d.progress.Some? && d.latest.Some? ==> d'.latest.Some? && d'.latest.value.tasks == d.latest.value.tasks)
  }

  lemma SavingKeepsWork(budgets: Budgets, s: Sys, p: RunProgress)
    requires Inv(budgets, s) && SavingProgress(s, p).Some? && s.place.Implemented?
    ensures WorkKept(s.disk, SavingProgress(s, p).value.disk)
  {
    var work, diffs := s.place.work, s.place.diffs;
    WorkKeepsOrder(s.disk.latest.value, s.disk.progress.value, work, diffs);
    if work.Batch? && diffs.Some? {
      AbsorbedCompletes(s.disk.progress.value, work.tasks, diffs.value, Min(|work.tasks|, |diffs.value|));
    }
    hide LinearExtension, WellPlanned, PlanStoreOk, Absorbed, NextSubtask, Due;
  }

  lemma StepKeepsWork(budgets: Budgets, s: Sys, e: Event)
    requires Inv(budgets, s) && Next(budgets, s, e).Some?
    ensures WorkKept(s.disk, Next(budgets, s, e).value.disk)
  {
    hide LinearExtension, Triggers, PlanFor, WellPlanned, PlanStoreOk, AfterWork, NextSubtask, Due;
    if e.ProgressSaved? && s.place.Implemented? {
      SavingKeepsWork(budgets, s, e.progress);
      hide Inv, SavingProgress;
    }
  }

  /** Completed ids and acknowledgements only ever grow, across crashes and restarts. */
  lemma {:induction false} WorkIsNeverLost(budgets: Budgets, log: seq<Event>, i: nat, j: nat)
    requires History(budgets, log) && i <= j <= |log|
    ensures CompletedOf(DiskAt(budgets, log, i)) <= CompletedOf(DiskAt(budgets, log, j))
    ensures AckedOf(DiskAt(budgets, log, i)) <= AckedOf(DiskAt(budgets, log, j))
    decreases j
  {
    hide Exec, History, Inv, Next, SysAt;
    if i < j {
      WorkIsNeverLost(budgets, log, i, j - 1);
      var s := StateAt(budgets, log, j - 1);
      var s' := StateAt(budgets, log, j);
      StepKeepsWork(budgets, s, log[j - 1]);
    }
  }

  /** No backend call ever includes a subtask that was complete at any earlier time. */
  lemma WorkIsNeverRedone(budgets: Budgets, log: seq<Event>, i: nat, j: nat, t: PlannedTask)
    requires History(budgets, log) && i <= j < |log|
    requires log[j].Implement? && log[j].work.Batch? && t in log[j].work.tasks
    ensures t.taskId !in CompletedOf(DiskAt(budgets, log, i))
  {
    hide Exec, History, Inv;
    WorkIsNeverLost(budgets, log, i, j);
    var s := StateAt(budgets, log, j);
    var a, p := s.disk.latest.value, s.disk.progress.value;
    BatchAdvances(a.tasks, p.completed, NextSubtask(a.tasks, p.completed).value, 0);
  }

  ghost predicate DistinctOk(d: Disk) {
    d.progress.Some? && d.latest.Some? && UniqueIds(d.latest.value.tasks) ==> NoDuplicates(d.progress.value.completed)
  }

  lemma StepKeepsDistinct(budgets: Budgets, s: Sys, e: Event)
    requires Inv(budgets, s) && Next(budgets, s, e).Some? && DistinctOk(s.disk)
    ensures DistinctOk(Next(budgets, s, e).value.disk)
  {
    hide LinearExtension, Triggers, PlanFor, WellPlanned, Absorbed, NextSubtask;
    StepKeepsWork(budgets, s, e);
    if e.ProgressSaved? && s.place.Implemented? && s.place.diffs.Some? && s.place.work.Batch? {
      var a, p := s.disk.latest.value, s.disk.progress.value;
      var work, ds := s.place.work, s.place.diffs.value;
      var n := Min(|work.tasks|, |ds|);
      AbsorbedCompletes(p, work.tasks, ds, n);
      if UniqueIds(a.tasks) {
        CompletingKeepsDistinct(a.tasks, p.completed, NextSubtask(a.tasks, p.completed).value, n);
      }
    }
  }

  /**
   * Completed ids are always a linear extension of the dependency relation, and, for a plan with
   * unique ids, each id occurs once.
   */
  lemma {:induction false} CompletionOrder(budgets: Budgets, log: seq<Event>)
    requires History(budgets, log)
    ensures var d := Exec(budgets, log).value.disk;
            d.progress.Some? ==>
              && d.latest.Some?
              && LinearExtension(d.latest.value.tasks, d.progress.value.completed)
              && (UniqueIds(d.latest.value.tasks) ==> NoDuplicates(d.progress.value.completed))
  {
    HistoryKeepsInv(budgets, log);
    if log != [] {
      var before := log[..|log| - 1];
      CompletionOrder(budgets, before);
      HistoryKeepsInv(budgets, before);
      StepKeepsDistinct(budgets, Exec(budgets, before).value, log[|log| - 1]);
    }
  }

  /** At every move to verification, every subtask is complete exactly if the graph can be scheduled at all. */
  lemma VerificationMeansAllDone(budgets: Budgets, log: seq<Event>, i: nat)
    requires History(budgets, log) && i < |log| && log[i].Moved? && log[i].next.Verification?
    ensures var d := DiskAt(budgets, log, i);
            && d.latest.Some? && d.progress.Some?
            && (AllDone(d.latest.value.tasks, d.progress.value.completed) <==> Schedulable(d.latest.value.tasks))
  {
    hide Exec, History;
    var s := StateAt(budgets, log, i);
    NoNextMeansDone(s.disk.latest.value.tasks, s.disk.progress.value.completed);
  }

  /**
   * Every parallel call: subtasks of the plan in one group, a contract each; and, if ids are unique,
   * distinct subtasks with no dependency between any two.
   */
  lemma ParallelCallsAreSafe(budgets: Budgets, log: seq<Event>, i: nat)
    requires History(budgets, log) && i < |log| && log[i].Implement? && log[i].work.Batch? && |log[i].work.tasks| >= 2
    ensures DiskAt(budgets, log, i).latest.Some?
    ensures var tasks, batch := DiskAt(budgets, log, i).latest.value.tasks, log[i].work.tasks;
            && (forall t :: t in batch ==>
                 t in tasks && t.parallelGroup == batch[0].parallelGroup && Truthy(t.parallelGroup) && Truthy(t.interfaceContract))
            && (UniqueIds(tasks) ==> Independent(tasks, batch))
  {
    hide Exec, History;
    var s := StateAt(budgets, log, i);
    var a, p := s.disk.latest.value, s.disk.progress.value;
    var first := NextSubtask(a.tasks, p.completed).value;
    ParallelBatchIsSafe(a.tasks, p.completed, first);
    BatchAdvances(a.tasks, p.completed, first, 0);
    assert log[i].work.tasks[0] in log[i].work.tasks;
  }

  // ---- What a shipped run went through ------------------------------------

  /** A human approved the plan: the call at a, and the durable move it made. */
  predicate ApprovedAt(log: seq<Event>, a: nat) {
    && a + 1 < |log|
    && log[a] == Called(ApprovePlan("approve"))
    && log[a + 1] == Moved(PlanApprovalGate, Implementation)
  }

  /** Verification passed at p, and that very process saved it and opened the change review. */
  predicate PassedAt(log: seq<Event>, p: nat) {
    && p + 2 < |log|
    && log[p].Verify? && log[p].result.passed
    && log[p + 1].ProgressSaved?
    && log[p + 2] == Moved(Verification, ChangeReviewGate)
  }

  predicate ReviewedAt(log: seq<Event>, c: nat) {
    && c + 1 < |log|
    && log[c] == Called(ApproveChangeReview("approve"))
    && log[c + 1] == Moved(ChangeReviewGate, Packaging)
  }

  /** No call to the backend or the verifier, and no move, among events lo..hi-1. */
  predicate Quiet(log: seq<Event>, lo: nat, hi: nat) {
    forall k | lo <= k < hi && k < |log| :: !log[k].Implement? && !log[k].PlanReturned? && !log[k].Verify? && !log[k].Moved?
  }

  predicate NoImplement(log: seq<Event>, lo: nat, hi: nat) {
    forall k | lo <= k < hi && k < |log| :: !log[k].Implement?
  }

  ghost predicate ApprovedBefore(log: seq<Event>) {
    exists a: nat :: ApprovedAt(log, a) && NoImplement(log, 0, a)
  }

  ghost predicate UnderReview(log: seq<Event>) {
    exists p: nat :: PassedAt(log, p) && Quiet(log, p + 3, |log|)
  }

  ghost predicate Reviewed(log: seq<Event>) {
    exists p: nat, c: nat ::
      PassedAt(log, p) && p + 2 < c && ReviewedAt(log, c) && Quiet(log, p + 3, c + 1) && NoImplement(log, c, |log|)
  }

  /** What the last events say about the place the process is at. */
  predicate TailOk(log: seq<Event>, s: Sys) {
    var n := |log|;
    match s.place
    case Verified(result) => n >= 1 && log[n - 1] == Verify(result)
    case Entering(next) =>
      (match next
       case ChangeReviewGate => n >= 2 && log[n - 1].ProgressSaved? && log[n - 2].Verify? && log[n - 2].result.passed
       case Implementation => s.disk.run.stage.PlanApprovalGate? ==> n >= 1 && log[n - 1] == Called(ApprovePlan("approve"))
       case Packaging => n >= 1 && log[n - 1] == Called(ApproveChangeReview("approve"))
       case _ => true)
    case _ => true
  }

  ghost predicate PathOk(log: seq<Event>, s: Sys) {
    var stage := s.disk.run.stage;
    && TailOk(log, s)
    && (BeforeApproval(stage) ==> NoImplement(log, 0, |log|))
    && (Working(stage) || stage.ChangeReviewGate? || Shipping(stage) ==> ApprovedBefore(log))
    && (!ApprovedBefore(log) ==> NoImplement(log, 0, |log|))
    && (stage.ChangeReviewGate? ==> UnderReview(log))
    && (Shipping(stage) ==> Reviewed(log))
  }

  lemma TailStep(budgets: Budgets, log: seq<Event>, s: Sys, e: Event)
    requires Inv(budgets, s) && TailOk(log, s) && Next(budgets, s, e).Some?
    ensures TailOk(log + [e], Next(budgets, s, e).value)
  {
    hide Exec, History, Inv, LinearExtension, Triggers, PlanFor, WellPlanned, Absorbed, NextSubtask;
    var longer := log + [e];
    assert longer[|longer| - 1] == e && (|log| > 0 ==> longer[|longer| - 2] == log[|log| - 1]);
  }

  /** Facts about a history survive one more event. */
  lemma FactsExtend(log: seq<Event>, e: Event)
    ensures ApprovedBefore(log) ==> ApprovedBefore(log + [e])
    ensures UnderReview(log) && !e.Implement? && !e.PlanReturned? && !e.Verify? && !e.Moved? ==> UnderReview(log + [e])
    ensures Reviewed(log) && !e.Implement? ==> Reviewed(log + [e])
    ensures NoImplement(log, 0, |log|) && !e.Implement? ==> NoImplement(log + [e], 0, |log| + 1)
  {
    hide Exec, History, Inv, Next, SysAt;
    var longer := log + [e];
    if a: nat :| ApprovedAt(log, a) && NoImplement(log, 0, a) {
      assert ApprovedAt(longer, a) && NoImplement(longer, 0, a);
    }
    if p: nat :| PassedAt(log, p) && Quiet(log, p + 3, |log|) {
      assert PassedAt(longer, p);
      if !e.Implement? && !e.PlanReturned? && !e.Verify? && !e.Moved? {
        assert Quiet(longer, p + 3, |longer|);
      }
    }
    if p: nat, c: nat :|
      PassedAt(log, p) && p + 2 < c && ReviewedAt(log, c) && Quiet(log, p + 3, c + 1) && NoImplement(log, c, |log|)
    {
      assert PassedAt(longer, p) && ReviewedAt(longer, c) && Quiet(longer, p + 3, c + 1);
      if !e.Implement? {
        assert NoImplement(longer, c, |longer|);
      }
    }
  }

  lemma PathStep(log: seq<Event>, s: Sys, e: Event, s': Sys)
    requires PathOk(log, s) && StepShape(s, e, s') && TailOk(log + [e], s')
    ensures PathOk(log + [e], s')
  {
    hide Exec, History, Inv, Next, SysAt;
    var longer, n := log + [e], |log|;
    FactsExtend(log, e);
    if e == Moved(PlanApprovalGate, Implementation) {
      assert longer[n - 1] == log[n - 1] && longer[n] == e;
      assert ApprovedAt(longer, n - 1) && NoImplement(longer, 0, n - 1);
    }
    if e == Moved(Verification, ChangeReviewGate) {
      assert longer[n - 1] == log[n - 1] && longer[n - 2] == log[n - 2] && longer[n] == e;
      assert PassedAt(longer, n - 2) && Quiet(longer, n + 1, n + 1);
    }
    if e == Moved(ChangeReviewGate, Packaging) {
      ReviewStep(log, e);
    }
  }

  lemma ReviewStep(log: seq<Event>, e: Event)
    requires UnderReview(log) && |log| >= 1 && log[|log| - 1] == Called(ApproveChangeReview("approve"))
    requires e == Moved(ChangeReviewGate, Packaging)
    ensures Reviewed(log + [e])
  {
    hide Exec, History, Inv, Next, SysAt;
    var longer, n := log + [e], |log|;
    var p: nat :| PassedAt(log, p) && Quiet(log, p + 3, n);
    assert longer[n - 1] == log[n - 1] && longer[n] == e;
    assert PassedAt(longer, p) && ReviewedAt(longer, n - 1);
    assert Quiet(longer, p + 3, n) && NoImplement(longer, n - 1, n + 1);
  }

  lemma {:induction false} HistoryKeepsPath(budgets: Budgets, log: seq<Event>)
    requires History(budgets, log)
    ensures PathOk(log, Exec(budgets, log).value)
  {
    if log != [] {
      var before := log[..|log| - 1];
      HistoryKeepsPath(budgets, before);
      HistoryKeepsInv(budgets, before);
      var s, e := Exec(budgets, before).value, log[|log| - 1];
      TailStep(budgets, before, s, e);
      StepHasShape(budgets, s, e);
      PathStep(before, s, e, Next(budgets, s, e).value);
      assert before + [e] == log;
    }
  }

  /**
   * A run that reached packaging went, in this order, through: plan approval; all its implementation
   * calls; a passing verification; change-review approval. Nothing was implemented, planned or
   * verified between the pass and that approval, and nothing is implemented afterwards.
   */
  lemma ShippedRunsWereApproved(budgets: Budgets, log: seq<Event>)
    requires History(budgets, log) && Shipping(Exec(budgets, log).value.disk.run.stage)
    ensures exists a: nat, p: nat, c: nat ::
              && ApprovedAt(log, a) && PassedAt(log, p) && ReviewedAt(log, c) && a + 1 < p && p + 2 < c
              && NoImplement(log, 0, a) && Quiet(log, p + 3, c + 1) && NoImplement(log, p, |log|)
  {
    hide Exec, History, Inv, Next, SysAt;
    HistoryKeepsPath(budgets, log);
    var a: nat :| ApprovedAt(log, a) && NoImplement(log, 0, a);
    var p: nat, c: nat :|
      PassedAt(log, p) && p + 2 < c && ReviewedAt(log, c) && Quiet(log, p + 3, c + 1) && NoImplement(log, c, |log|);
    ApprovalPrecedesPass(budgets, log, a, p);
    assert NoImplement(log, p, |log|);
  }

  lemma ApprovalPrecedesPass(budgets: Budgets, log: seq<Event>, a: nat, p: nat)
    requires History(budgets, log) && ApprovedAt(log, a) && PassedAt(log, p)
    ensures a + 1 < p
  {
    hide Exec, History, Inv, Next, SysAt;
    if p <= a + 1 {
      var _, _ := ShapeAt(budgets, log, a + 1);
      var _, _ := ShapeAt(budgets, log, p);
      NeverBackToPlanning(budgets, log, p, a + 1);
    }
  }

  // ---- Gates are left once ------------------------------------------------

  /** Once a plan has been decided on, planning is over. */
  lemma {:induction false} NeverBackToPlanning(budgets: Budgets, log: seq<Event>, i: nat, j: nat)
    requires History(budgets, log) && i <= j <= |log|
    requires !BeforeApproval(DiskAt(budgets, log, i).run.stage)
    ensures !BeforeApproval(DiskAt(budgets, log, j).run.stage)
    decreases j
  {
    hide Exec, History, Inv, Next, SysAt;
    if i < j {
      NeverBackToPlanning(budgets, log, i, j - 1);
      var _, _ := ShapeAt(budgets, log, j - 1);
    }
  }

  predicate Settled(s: Stage) {
    Shipping(s) || s.Abandoned?
  }

  lemma {:induction false} SettledForever(budgets: Budgets, log: seq<Event>, i: nat, j: nat)
    requires History(budgets, log) && i <= j <= |log| && Settled(DiskAt(budgets, log, i).run.stage)
    ensures Settled(DiskAt(budgets, log, j).run.stage)
    decreases j
  {
    hide Exec, History, Inv, Next, SysAt;
    if i < j {
      SettledForever(budgets, log, i, j - 1);
      var _, _ := ShapeAt(budgets, log, j - 1);
    }
  }

  /** Event i carries out an approval or a rejection of gate g. */
  predicate DecidesGate(e: Event, g: Stage) {
    e.Moved? && e.from == g && (g.PlanApprovalGate? || (g.ChangeReviewGate? && !e.next.Implementation?))
  }

  /** An approval or rejection of a gate takes effect at most once in a run, however often it is retried. */
  lemma GateDecidedOnce(budgets: Budgets, log: seq<Event>, g: Stage, i: nat, j: nat)
    requires History(budgets, log) && i < |log| && j < |log|
    requires DecidesGate(log[i], g) && DecidesGate(log[j], g)
    ensures i == j
  {
    hide Exec, History, Inv, Next, SysAt;
    if i != j {
      var lo, hi := if i < j then i else j, if i < j then j else i;
      var _, _ := ShapeAt(budgets, log, lo);
      var _, _ := ShapeAt(budgets, log, hi);
      if g.PlanApprovalGate? {
        NeverBackToPlanning(budgets, log, lo + 1, hi);
      } else {
        SettledForever(budgets, log, lo + 1, hi);
      }
    }
  }

  // ---- Packaging -------------------------------------------------------------

  predicate PastPackaging(s: Stage) {
    s.Retrospective? || s.Completed? || s.Abandoned?
  }

  lemma {:induction false} PastPackagingForever(budgets: Budgets, log: seq<Event>, i: nat, j: nat)
    requires History(budgets, log) && i <= j <= |log| && PastPackaging(DiskAt(budgets, log, i).run.stage)
    ensures PastPackaging(DiskAt(budgets, log, j).run.stage)
    decreases j
  {
    hide Exec, History, Inv, Next, SysAt, DiskAt;
    if i < j {
      PastPackagingForever(budgets, log, i, j - 1);
      var _, _ := ShapeAt(budgets, log, j - 1);
    }
  }

  lemma PackagedStep(budgets: Budgets, s: Sys, e: Event)
    requires Inv(budgets, s) && Next(budgets, s, e).Some?
    ensures var s' := Next(budgets, s, e).value;
            && (e.Packaged? ==> s'.disk == s.disk && s'.disk.run.stage.Packaging?
                                && s'.place == if e.ok then Entering(Retrospective) else Refused)
            && (s'.place == Entering(Retrospective) ==> e == Packaged(true))
            && (e == Moved(Packaging, Retrospective) ==> s.place == Entering(Retrospective))
            && (s.disk.run.stage.Packaging? && !e.Called? && (s.place == Entering(Retrospective) || s.place.Refused?) ==>
                 e == Moved(Packaging, Retrospective) && s.place == Entering(Retrospective))
  {
    hide WellPlanned, LinearExtension, Triggers, PlanFor, PlanStoreOk, NextSubtask, AfterWork;
  }

  /** Every run that got past packaging was packaged without an error, right before. */
  lemma PackagedBeforeMovingOn(budgets: Budgets, log: seq<Event>, k: nat)
    requires History(budgets, log) && k < |log| && log[k] == Moved(Packaging, Retrospective)
    ensures k > 0 && log[k - 1] == Packaged(true)
  {
    hide Exec, History, Inv, Next, SysAt, DiskAt;
    var s, _ := Happened(budgets, log, k);
    PackagedStep(budgets, s, log[k]);
    FirstState(budgets, log);
    if k > 0 {
      var before, _ := Happened(budgets, log, k - 1);
      PackagedStep(budgets, before, log[k - 1]);
    }
  }

  /** After packaging: the move, or, if packaging raised or the process died, a new call. */
  lemma AfterPackaging(budgets: Budgets, log: seq<Event>, i: nat)
    requires History(budgets, log) && i + 1 < |log| && log[i].Packaged?
    ensures log[i + 1].Called? || (log[i].ok && log[i + 1] == Moved(Packaging, Retrospective))
    ensures DiskAt(budgets, log, i + 2).run.stage == if log[i + 1].Called? then Packaging else Retrospective
  {
    hide Exec, History, Inv, Next, SysAt, DiskAt;
    var s, s' := Happened(budgets, log, i);
    var _, _ := Happened(budgets, log, i + 1);
    PackagedStep(budgets, s, log[i]);
    PackagedStep(budgets, s', log[i + 1]);
    var _, _ := ShapeAt(budgets, log, i + 1);
    DisksOf(budgets, log, i + 1);
  }

  lemma DisksOf(budgets: Budgets, log: seq<Event>, n: nat)
    requires History(budgets, log) && n <= |log|
    ensures SysAt(budgets, log, n).disk == DiskAt(budgets, log, n)
  {
    hide Exec, History, Inv, Next, SysAt;
  }

  /** A run is packaged a second time exactly if packaging raised, or the process died between packaging and the move. */
  lemma PackagingRepeatsIff(budgets: Budgets, log: seq<Event>, i: nat)
    requires History(budgets, log) && i + 1 < |log| && log[i].Packaged?
    ensures log[i + 1].Called? <==>
              exists longer: seq<Event>, j: nat ::
                log[..i + 2] <= longer && i < j < |longer| && History(budgets, longer) && longer[j].Packaged?
  {
    hide Exec, History, Inv, Next, SysAt, DiskAt;
    AfterPackaging(budgets, log, i);
    if log[i + 1].Called? {
      var longer := PackagesAgain(budgets, log, i);
      assert longer[i + 3].Packaged?;
    }
    forall longer: seq<Event>, j: nat
      | log[..i + 2] <= longer && i < j < |longer| && History(budgets, longer) && longer[j].Packaged?
      ensures log[i + 1].Called?
    {
      assert longer[i] == log[i] && longer[i + 1] == log[i + 1];
      AfterPackaging(budgets, longer, i);
      if !log[i + 1].Called? {
        PastPackagingForever(budgets, longer, i + 2, j);
        var _, _ := ShapeAt(budgets, longer, j);
      }
    }
  }

  lemma PackagesAgain(budgets: Budgets, log: seq<Event>, i: nat) returns (longer: seq<Event>)
    requires History(budgets, log) && i + 2 <= |log| && DiskAt(budgets, log, i + 2).run.stage.Packaging?
    ensures |longer| == i + 4 && log[..i + 2] <= longer && History(budgets, longer) && longer[i + 3].Packaged?
  {
    hide Exec, Triggers, PlanFor;
    var s := StateAt(budgets, log, i + 2);
    ExecAppend(budgets, log[..i + 2], Called(Resume));
    ExecAppend(budgets, log[..i + 2] + [Called(Resume)], Packaged(true));
    longer := log[..i + 2] + [Called(Resume)] + [Packaged(true)];
  }

  // ---- Checkpoints ---------------------------------------------------------

  /** While a question is pending, the only durable step is the answer to that very question. */
  lemma PendingBlocks(budgets: Budgets, log: seq<Event>, i: nat)
    requires History(budgets, log) && i < |log| && PendingCheckpoint(DiskAt(budgets, log, i))
    ensures var d := DiskAt(budgets, log, i);
            && Working(d.run.stage) && d.run.pointer.value.stage == d.run.stage
            && (log[i].Called?
                || exists decision :: log[i] == PointerSaved(d.run.pointer.value.(status := Resolved(decision))))
  {
    hide Exec, History;
    var s := StateAt(budgets, log, i);
  }

  predicate Asks(e: Event) {
    e.PointerSaved? && e.pointer.status.Pending?
  }

  /** The process wrote an answer about t at r, and died before it acknowledged it. */
  predicate CutAt(log: seq<Event>, t: Trigger, r: nat) {
    && r + 1 < |log| && log[r].PointerSaved? && log[r].pointer.status.Resolved? && log[r].pointer.trigger == t
    && log[r + 1].Called?
  }

  ghost predicate CutOff(log: seq<Event>, t: Trigger, lo: nat, hi: nat) {
    exists r :: lo <= r && r + 1 < hi && CutAt(log, t, r)
  }

  /** Why nobody is going to ask about t. */
  predicate Accounted(s: Sys, t: Trigger) {
    || t in AckedOf(s.disk)
    || (PendingCheckpoint(s.disk) && s.disk.run.pointer.value.trigger == t)
    || (s.place.Answered? && s.place.question.trigger == t)
    || s.disk.run.stage.Abandoned?
  }

  lemma AccountedStep(budgets: Budgets, s: Sys, e: Event, t: Trigger)
    requires Inv(budgets, s) && Next(budgets, s, e).Some? && Accounted(s, t)
    requires !(e.Called? && s.place.Answered? && s.place.question.trigger == t)
    ensures Accounted(Next(budgets, s, e).value, t)
  {
    hide WellPlanned, LinearExtension, Triggers, PlanFor, PlanStoreOk, NextSubtask, AfterWork;
    if t in AckedOf(s.disk) {
      StepKeepsWork(budgets, s, e);
    }
  }

  lemma AskingAccounts(budgets: Budgets, s: Sys, e: Event)
    requires Inv(budgets, s) && Next(budgets, s, e).Some? && Asks(e)
    ensures !Accounted(s, e.pointer.trigger)
    ensures Accounted(Next(budgets, s, e).value, e.pointer.trigger)
  {
    hide WellPlanned, LinearExtension, Triggers, PlanFor, PlanStoreOk, NextSubtask;
  }

  lemma AnsweredStep(budgets: Budgets, s: Sys, e: Event)
    requires Next(budgets, s, e).Some? && Next(budgets, s, e).value.place.Answered?
    ensures e.PointerSaved? && e.pointer.status.Resolved?
    ensures e.pointer.trigger == Next(budgets, s, e).value.place.question.trigger
  {
    hide Triggers, PlanFor, NextSubtask, AfterWork;
  }

  lemma {:induction false} StaysAccounted(budgets: Budgets, log: seq<Event>, a: nat, j: nat)
    requires History(budgets, log) && a < j <= |log| && Asks(log[a])
    ensures Accounted(SysAt(budgets, log, j), log[a].pointer.trigger) || CutOff(log, log[a].pointer.trigger, a + 1, j)
    decreases j
  {
    hide Exec, History, Inv, Next, SysAt, Accounted;
    var t := log[a].pointer.trigger;
    var s, s' := Happened(budgets, log, j - 1);
    if j == a + 1 {
      AskingAccounts(budgets, s, log[a]);
    } else {
      StaysAccounted(budgets, log, a, j - 1);
      if CutOff(log, t, a + 1, j - 1) {
        var r :| a + 1 <= r && r + 1 < j - 1 && CutAt(log, t, r);
        assert CutOff(log, t, a + 1, j);
      } else if log[j - 1].Called? && s.place.Answered? && s.place.question.trigger == t {
        var before, _ := Happened(budgets, log, j - 2);
        AnsweredStep(budgets, before, log[j - 2]);
        assert CutAt(log, t, j - 2);
      } else {
        AccountedStep(budgets, s, log[j - 1], t);
      }
    }
  }

  /**
   * No question is asked twice, unless its first answer was written by a process that died before it
   * acknowledged it.
   */
  lemma NoQuestionTwice(budgets: Budgets, log: seq<Event>, a: nat, b: nat)
    requires History(budgets, log) && a < b < |log| && Asks(log[a]) && Asks(log[b])
    requires log[a].pointer.trigger == log[b].pointer.trigger
    ensures CutOff(log, log[a].pointer.trigger, a + 1, b)
  {
    hide Exec, History, Inv, Next, SysAt, Accounted;
    StaysAccounted(budgets, log, a, b);
    var s, _ := Happened(budgets, log, b);
    AskingAccounts(budgets, s, log[b]);
  }

  // ---- The plan store -------------------------------------------------------

  /** Version n is committed, with content a. */
  predicate Committed(d: Disk, n: nat, a: PlanArtifact) {
    1 <= n <= LatestVersion(d) && n in d.versions && d.versions[n] == a
  }

  lemma StepKeepsPlans(budgets: Budgets, s: Sys, e: Event, n: nat, a: PlanArtifact)
    requires Inv(budgets, s) && Next(budgets, s, e).Some? && Committed(s.disk, n, a)
    ensures Committed(Next(budgets, s, e).value.disk, n, a)
  {
  }

  /** A committed plan version never changes again, and the version number never goes back. */
  lemma {:induction false} PlansAreImmutable(budgets: Budgets, log: seq<Event>, i: nat, j: nat, n: nat, a: PlanArtifact)
    requires History(budgets, log) && i <= j <= |log| && Committed(DiskAt(budgets, log, i), n, a)
    ensures Committed(DiskAt(budgets, log, j), n, a)
    decreases j
  {
    hide Exec, History, Inv, Next, SysAt;
    if i < j {
      PlansAreImmutable(budgets, log, i, j - 1, n, a);
      var s := StateAt(budgets, log, j - 1);
      var s' := StateAt(budgets, log, j);
      StepKeepsPlans(budgets, s, log[j - 1], n, a);
    }
  }

  /** Every stored plan still resolves to a budget, so no checkpoint evaluation can fail on it. */
  lemma StoredPlansAreRunnable(budgets: Budgets, log: seq<Event>)
    requires History(budgets, log)
    ensures var d := Exec(budgets, log).value.disk;
            && (forall n: nat | n in d.versions :: WellPlanned(budgets, d.versions[n]))
            && (forall n: nat :: n in d.versions ==> 1 <= n <= LatestVersion(d) + 1)
            && (forall n: nat :: 1 <= n <= LatestVersion(d) ==> n in d.versions)
            && (d.latest.Some? ==> ResolveBudget(d.latest.value.storySize, d.latest.value.highRisk, budgets).Success?)
  {
    hide Exec, History;
    HistoryKeepsInv(budgets, log);
  }

  /** Extending the scope keeps the graph, only grows the scope, and leaves no risk in the current diff. */
  lemma ExtensionClearsRisk(budgets: Budgets, log: seq<Event>, i: nat)
    requires History(budgets, log) && i < |log| && log[i].PlanLatestSaved?
    requires Working(DiskAt(budgets, log, i).run.stage)
    ensures var d, d' := DiskAt(budgets, log, i), DiskAt(budgets, log, i + 1);
            && d.latest.Some? && d'.latest.Some? && d'.progress.Some?
            && d'.latest.value.tasks == d.latest.value.tasks
            && d.latest.value.inScope <= d'.latest.value.inScope
            && d'.latest.value.planVersion == d.latest.value.planVersion + 1
            && CheckRisk(d'.progress.value.files, d'.latest.value.inScope).None?
  {
    hide Exec, History;
    var s := StateAt(budgets, log, i);
    var s' := StateAt(budgets, log, i + 1);
    LatestKeepsInv(budgets, s, log[i].artifact);
  }
}
