/**
 * Runs from the very beginning that show what the limits of the guarantees look like: each claim
 * that does not hold, with the calls, answers and deaths that break it.
 */
module RunExamples {
  import opened Common
  import opened Stages
  import opened Checkpoints
  import opened Plans
  import opened Scheduling
  import opened RunMachine
  import opened RunClock
  import opened RunInvariants
  import opened RunLimits
  import opened RunReplies
  import opened RunRisk
  import opened RunTheorems

  // ---- Stretches of a run ----------------------------------------------------------

  /** One more event. */
  lemma Grow(budgets: Budgets, log: seq<Event>, s: Sys, e: Event) returns (longer: seq<Event>, s': Sys)
    requires Exec(budgets, log) == Some(s) && Next(budgets, s, e).Some?
    ensures longer == log + [e] && Exec(budgets, longer) == Some(s') == Next(budgets, s, e) && History(budgets, longer)
  {
    hide Exec, Inv, Next, SysAt;
    ExecAppend(budgets, log, e);
    longer, s' := log + [e], Next(budgets, s, e).value;
  }

  /** A state at the top of the drive loop, with nothing pending. */
  predicate At(s: Sys, stage: Stage, a: PlanArtifact, p: RunProgress) {
    && s.place.Driving? && s.disk.run.stage == stage && !PendingCheckpoint(s.disk)
    && s.disk.latest == Some(a) && s.disk.progress == Some(p)
  }

  /** The drive loop has stopped at a question. */
  predicate AtQuestion(s: Sys, stage: Stage, a: PlanArtifact, p: RunProgress, t: Trigger) {
    && s.place.Driving? && s.disk.run.stage == stage
    && s.disk.run.pointer == Some(Elicitation(t, stage, Pending))
    && s.disk.latest == Some(a) && s.disk.progress == Some(p)
  }

  /** From intake to the first gate: a plan is authored and stored. */
  lemma Authored(budgets: Budgets, out: PlanOutput) returns (log: seq<Event>, s: Sys)
    requires PlanFor(budgets, 1, out).Success?
    ensures Exec(budgets, log) == Some(s)
    ensures AtPlanGate(s, PlanFor(budgets, 1, out).value)
  {
    var a := PlanFor(budgets, 1, out).value;
    assert Exec(budgets, []) == Some(INITIAL);
    hide Exec, PlanFor;
    var l1, s1 := Grow(budgets, [], INITIAL, Called(Resume));
    var l2, s2 := Grow(budgets, l1, s1, Moved(Intake, Research));
    var l3, s3 := Grow(budgets, l2, s2, Moved(Research, PlanAuthoring));
    assert s3 == Sys(INITIAL_DISK.(run := Run(PlanAuthoring, 3, 1, None)), Driving);
    log, s := Stored(budgets, l3, s3, out, a);
  }

  lemma Stored(budgets: Budgets, log: seq<Event>, s: Sys, out: PlanOutput, a: PlanArtifact) returns (longer: seq<Event>, s': Sys)
    requires Exec(budgets, log) == Some(s) && PlanFor(budgets, 1, out) == Success(a)
    requires s == Sys(INITIAL_DISK.(run := Run(PlanAuthoring, 3, 1, None)), Driving)
    ensures Exec(budgets, longer) == Some(s') && AtPlanGate(s', a)
  {
    hide Exec, History, Inv, PlanFor;
    var l4, s4 := Grow(budgets, log, s, PlanReturned(out));
    var l5, s5 := Grow(budgets, l4, s4, PlanVersionSaved(a));
    var l6, s6 := Grow(budgets, l5, s5, PlanLatestSaved(a));
    longer, s' := Grow(budgets, l6, s6, Moved(PlanAuthoring, PlanApprovalGate));
  }

  /** A state at the plan gate, before anything was implemented. */
  predicate AtPlanGate(s: Sys, a: PlanArtifact) {
    && s.place.Driving? && s.disk.run.stage.PlanApprovalGate? && s.disk.run.pointer.None? && s.disk.run.attempt == 1
    && s.disk.latest == Some(a) && s.disk.progress.None?
  }

  /** The plan is approved, and implementation starts. */
  lemma Approves(budgets: Budgets, log: seq<Event>, s: Sys, a: PlanArtifact, startedAt: real) returns (longer: seq<Event>, s': Sys)
    requires Exec(budgets, log) == Some(s) && AtPlanGate(s, a)
    ensures longer == log + [Called(ApprovePlan("approve")), Moved(PlanApprovalGate, Implementation),
                             ProgressSaved(FreshProgress(1, startedAt))]
    ensures Exec(budgets, longer) == Some(s') && At(s', Implementation, a, FreshProgress(1, startedAt))
  {
    hide Exec, History, Inv, PlanFor;
    var l1, s1 := Grow(budgets, log, s, Called(ApprovePlan("approve")));
    var l2, s2 := Grow(budgets, l1, s1, Moved(PlanApprovalGate, Implementation));
    longer, s' := Grow(budgets, l2, s2, ProgressSaved(FreshProgress(1, startedAt)));
  }

  /** From intake to implementation: a plan is authored and approved. */
  lemma Approved(budgets: Budgets, out: PlanOutput, startedAt: real) returns (log: seq<Event>, s: Sys)
    requires PlanFor(budgets, 1, out).Success?
    ensures Exec(budgets, log) == Some(s)
    ensures At(s, Implementation, PlanFor(budgets, 1, out).value, FreshProgress(1, startedAt))
  {
    hide Exec, History, Inv, Next, SysAt, PlanFor, At;
    var l1, s1 := Authored(budgets, out);
    log, s := Approves(budgets, l1, s1, PlanFor(budgets, 1, out).value, startedAt);
  }

  /** A backend call and the record of what came back. */
  lemma Worked(budgets: Budgets, log: seq<Event>, s: Sys, a: PlanArtifact, p: RunProgress, work: Work, diffs: Diffs)
    returns (longer: seq<Event>, s': Sys)
    requires Exec(budgets, log) == Some(s) && At(s, Implementation, a, p)
    requires Due(a, p) == Some(work) && WellShaped(work, diffs) && diffs.Some?
    ensures longer == log + [Implement(work, diffs), ProgressSaved(AfterWork(p, work, diffs))]
    ensures Exec(budgets, longer) == Some(s') && DiffSaved(budgets, longer, |log| + 1)
    ensures FixUpSaved(budgets, longer, |log| + 1) <==> work.FixUp?
    ensures s' == s.(disk := s.disk.(progress := Some(AfterWork(p, work, diffs))),
                     place := if work.FixUp? then Entering(Verification) else Checking)
  {
    hide Exec, History, Inv, AfterWork, Due;
    var l1, s1 := Grow(budgets, log, s, Implement(work, diffs));
    longer, s' := Grow(budgets, l1, s1, ProgressSaved(AfterWork(p, work, diffs)));
    assert longer[..|log| + 1] == l1;
    PrefixHistory(budgets, longer, |log| + 1);
  }

  /** The first open question after a batch. */
  function Presented(budget: Budget, a: PlanArtifact, p: RunProgress, elapsed: real): Option<Trigger> {
    var size, risk := CheckSize(p.files, p.lines, budget), CheckRisk(p.files, a.inScope);
    var time, stuck := CheckTimeCost(elapsed, p.spend, budget), CheckStuck(p.failures);
    if Open(size, p.acked) then size else if Open(risk, p.acked) then risk
    else if Open(time, p.acked) then time else if Open(stuck, p.acked) then stuck else None
  }

  lemma PresentedIs(budgets: Budgets, budget: Budget, a: PlanArtifact, p: RunProgress, elapsed: real)
    requires ResolveBudget(a.storySize, a.highRisk, budgets) == Success(budget)
    ensures var ts := Triggers(budgets, a, p, elapsed);
            if ts == [] then Presented(budget, a, p, elapsed).None? else Presented(budget, a, p, elapsed) == Some(ts[0])
  {
    PresentedInOrder(Measure(a, p, elapsed), budget, p.acked);
    hide EvaluateCheckpoints, Unacknowledged, CheckSize, CheckRisk, CheckTimeCost, CheckStuck;
  }

  lemma ClockAsks(budgets: Budgets, s: Sys, budget: Budget, a: PlanArtifact, p: RunProgress, elapsed: real)
    requires At(s.(place := Driving), Implementation, a, p) && s.place.Checking?
    requires ResolveBudget(a.storySize, a.highRisk, budgets) == Success(budget) && Presented(budget, a, p, elapsed).Some?
    ensures Next(budgets, s, ClockRead(elapsed)) == Some(s.(place := Raising(Presented(budget, a, p, elapsed).value)))
  {
    hide Triggers, Presented, ResolveBudget, NextSubtask, Exec, Inv, AfterWork, Planning, SavingProgress, Entry, Moving;
    PresentedIs(budgets, budget, a, p, elapsed);
  }

  /** The checkpoints ask. */
  lemma AsksAbout(budgets: Budgets, log: seq<Event>, s: Sys, budget: Budget, a: PlanArtifact, p: RunProgress, elapsed: real)
    returns (longer: seq<Event>, s': Sys)
    requires Exec(budgets, log) == Some(s) && At(s.(place := Driving), Implementation, a, p) && s.place.Checking?
    requires ResolveBudget(a.storySize, a.highRisk, budgets) == Success(budget) && Presented(budget, a, p, elapsed).Some?
    ensures var t := Presented(budget, a, p, elapsed).value;
            && longer == log + [ClockRead(elapsed), PointerSaved(Elicitation(t, Implementation, Pending))]
            && Exec(budgets, longer) == Some(s') && AtQuestion(s', Implementation, a, p, t)
  {
    hide Exec, History, Inv, Triggers, Presented, ResolveBudget, ReadingClock;
    ClockAsks(budgets, s, budget, a, p, elapsed);
    var l1, s1 := Grow(budgets, log, s, ClockRead(elapsed));
    longer, s' := Grow(budgets, l1, s1, PointerSaved(Elicitation(Presented(budget, a, p, elapsed).value, Implementation, Pending)));
  }

  /** A human answers, and the answer is on disk but not yet acknowledged. */
  lemma Answers(budgets: Budgets, log: seq<Event>, s: Sys, stage: Stage, a: PlanArtifact, p: RunProgress, t: Trigger, word: string)
    returns (longer: seq<Event>, s': Sys)
    requires Exec(budgets, log) == Some(s) && AtQuestion(s, stage, a, p, t)
    ensures longer == log + [Called(ResolveCheckpoint(word)), PointerSaved(Elicitation(t, stage, Resolved(word)))]
    ensures Exec(budgets, longer) == Some(s') && s'.place == Answered(word, Elicitation(t, stage, Pending))
    ensures At(s'.(place := Driving), stage, a, p)
  {
    hide Exec, History, Inv;
    var l1, s1 := Grow(budgets, log, s, Called(ResolveCheckpoint(word)));
    longer, s' := Grow(budgets, l1, s1, PointerSaved(Elicitation(t, stage, Resolved(word))));
  }

  lemma Continues(budgets: Budgets, log: seq<Event>, s: Sys, stage: Stage, a: PlanArtifact, p: RunProgress, t: Trigger)
    returns (longer: seq<Event>, s': Sys)
    requires Exec(budgets, log) == Some(s) && AtQuestion(s, stage, a, p, t)
    ensures longer == log + [Called(ResolveCheckpoint("continue")), PointerSaved(Elicitation(t, stage, Resolved("continue"))),
                             ProgressSaved(p.(acked := p.acked + {t}))]
    ensures Exec(budgets, longer) == Some(s') && At(s', stage, a, p.(acked := p.acked + {t}))
  {
    hide Exec, History, Inv;
    var l1, s1 := Answers(budgets, log, s, stage, a, p, t, "continue");
    longer, s' := Grow(budgets, l1, s1, ProgressSaved(p.(acked := p.acked + {t})));
  }

  // ---- Small plans -------------------------------------------------------------------

  function Small(subtasks: seq<SubTask>): PlanOutput {
    PlanOutput("", [], ["a"], [], subtasks, "S", false, "low", "", "", "", [])
  }

  const BUDGET_S := Budget("S", 30.0, 5.0, 150, 5)

  function SmallArtifact(tasks: seq<PlannedTask>): PlanArtifact {
    PlanArtifact(1, {"a"}, [], [], tasks, "low", false, "S", BUDGET_S)
  }

  /** A small plan whose groups are governed is stored as it is. */
  lemma SmallPlans(subtasks: seq<SubTask>)
    requires forall t :: t in subtasks ==> t.taskId != "" && t.description != ""
    requires Governed(PlannedAll(subtasks))
    ensures PlanFor(DEFAULT_BUDGETS, 1, Small(subtasks)) == Success(SmallArtifact(PlannedAll(subtasks)))
    ensures ResolveBudget("S", false, DEFAULT_BUDGETS) == Success(BUDGET_S)
  {
    DefaultRunnable("S", false);
    assert DEFAULT_BUDGETS["S"] == BUDGET_S;
    DemotionIdempotent(PlannedAll(subtasks));
    assert (set f | f in ["a"]) == {"a"};
  }

  const T := PlannedTask("t", "d", Sequential, None, [], None)
  const U := PlannedTask("u", "d", Sequential, None, [], None)

  function Alone(id: string): SubTask {
    SubTask(id, "d", None, [], None)
  }

  lemma OneTask(startedAt: real) returns (log: seq<Event>, s: Sys)
    ensures Exec(DEFAULT_BUDGETS, log) == Some(s) && At(s, Implementation, SmallArtifact([T]), FreshProgress(1, startedAt))
  {
    hide Exec, History, Inv, Next, SysAt;
    var subtasks := [Alone("t")];
    assert PlannedAll(subtasks) == [T];
    SmallPlans(subtasks);
    hide PlanFor;
    log, s := Approved(DEFAULT_BUDGETS, Small(subtasks), startedAt);
  }

  lemma TwoTasks(startedAt: real) returns (log: seq<Event>, s: Sys)
    ensures Exec(DEFAULT_BUDGETS, log) == Some(s) && At(s, Implementation, SmallArtifact([T, U]), FreshProgress(1, startedAt))
  {
    hide Exec, History, Inv, Next, SysAt;
    var subtasks := [Alone("t"), Alone("u")];
    assert PlannedAll(subtasks) == [T, U];
    SmallPlans(subtasks);
    hide PlanFor;
    log, s := Approved(DEFAULT_BUDGETS, Small(subtasks), startedAt);
  }

  lemma OneTaskIsDue(tasks: seq<PlannedTask>, p: RunProgress, t: PlannedTask, files: seq<string>, lines: int)
    requires NextSubtask(tasks, p.completed) == Some(t) && t.parallelGroup.None?
    ensures Due(SmallArtifact(tasks), p) == Some(Batch([t]))
    ensures AfterWork(p, Batch([t]), Some([DiffOutput(files, lines, "", None)]))
         == p.(completed := p.completed + [t.taskId], files := p.files + ToSet(files), lines := p.lines + lines, failures := 0)
  {
    hide NextSubtask;
    var diffs := [DiffOutput(files, lines, "", None)];
    assert Absorbed(p, [t], diffs, 0) == p;
    assert Absorbed(p, [t], diffs, 1)
        == p.(completed := p.completed + [t.taskId], files := p.files + ToSet(files), lines := p.lines + lines);
  }

  // ---- A risk that goes on unanswered: one run for each way ------------------------------

  /** The record after the one subtask touched a file out of scope. */
  function Strayed(lines: int): RunProgress {
    FreshProgress(1, 0.0).(completed := ["t"], files := {"b"}, lines := lines)
  }

  lemma StrayedRisk(lines: int)
    ensures CheckRisk(Strayed(lines).files, {"a"}) == Some(Risk({"b"}))
    ensures NextSubtask([T], ["t"]).None?
    ensures lines <= 450 ==> Presented(BUDGET_S, SmallArtifact([T]), Strayed(lines), 0.0) == Some(Risk({"b"}))
    ensures lines > 450 ==> Presented(BUDGET_S, SmallArtifact([T]), Strayed(lines), 0.0) == Some(Size(lines, 1, 450, 5))
  {
    assert {"b"} - {"a"} == {"b"};
    assert [T][1..] == [];
  }

  lemma StrayWork(lines: int)
    ensures Due(SmallArtifact([T]), FreshProgress(1, 0.0)) == Some(Batch([T]))
    ensures AfterWork(FreshProgress(1, 0.0), Batch([T]), Some([DiffOutput(["b"], lines, "", None)])) == Strayed(lines)
  {
    OneTaskIsDue([T], FreshProgress(1, 0.0), T, ["b"], lines);
    hide Due, AfterWork, SmallArtifact;
    assert ToSet(["b"]) == {"b"};
  }

  lemma StrayIsOpen(d: Disk, lines: int)
    requires d.latest == Some(SmallArtifact([T])) && d.progress == Some(Strayed(lines))
    ensures OpenRisk(d)
  {
    assert Strayed(lines).(acked := Strayed(lines).acked) == Strayed(lines);
    StillOpen(d, lines, {});
  }

  /** One subtask done, its diff saved, its file out of scope. */
  lemma OneStray(lines: int) returns (log: seq<Event>, s: Sys)
    ensures Exec(DEFAULT_BUDGETS, log) == Some(s) && s.place.Checking?
    ensures At(s.(place := Driving), Implementation, SmallArtifact([T]), Strayed(lines))
    ensures |log| >= 1 && log[|log| - 1] == ProgressSaved(Strayed(lines))
    ensures DiffSaved(DEFAULT_BUDGETS, log, |log| - 1) && !FixUpSaved(DEFAULT_BUDGETS, log, |log| - 1)
    ensures OpenRisk(s.disk)
  {
    hide Exec, History, Inv, Next, SysAt, OpenRisk, AfterWork, Due, SmallArtifact, FreshProgress, Strayed;
    StrayWork(lines);
    var l0, s0 := OneTask(0.0);
    log, s := Worked(DEFAULT_BUDGETS, l0, s0, SmallArtifact([T]), FreshProgress(1, 0.0), Batch([T]),
                     Some([DiffOutput(["b"], lines, "", None)]));
    StrayIsOpen(s.disk, lines);
  }

  /** The drive loop has nothing to do and moves on. */
  lemma MovesOn(log: seq<Event>, s: Sys, p: RunProgress) returns (longer: seq<Event>, s': Sys)
    requires Exec(DEFAULT_BUDGETS, log) == Some(s) && At(s, Implementation, SmallArtifact([T]), p)
    requires p.completed == ["t"] && p.failureSummary == ""
    ensures longer == log + [Moved(Implementation, Verification)] && Exec(DEFAULT_BUDGETS, longer) == Some(s')
    ensures At(s', Verification, SmallArtifact([T]), p)
  {
    hide Exec, History, Inv;
    StrayedRisk(0);
    hide Exec;
    longer, s' := Grow(DEFAULT_BUDGETS, log, s, Moved(Implementation, Verification));
  }

  /** Nobody has answered for the stray file. */
  lemma StillOpen(d: Disk, lines: int, acked: set<Trigger>)
    requires d.latest == Some(SmallArtifact([T])) && d.progress == Some(Strayed(lines).(acked := acked)) && Risk({"b"}) !in acked
    ensures OpenRisk(d)
  {
    StrayedRisk(lines);
    hide Presented;
  }

  lemma SmallResolves(tasks: seq<PlannedTask>)
    ensures ResolveBudget(SmallArtifact(tasks).storySize, SmallArtifact(tasks).highRisk, DEFAULT_BUDGETS) == Success(BUDGET_S)
  {
    SmallPlans([]);
    hide ResolveBudget;
  }

  /** A move to verification that leaves an open risk behind. */
  ghost predicate RiskEscapes(log: seq<Event>) {
    && History(DEFAULT_BUDGETS, log) && |log| > 0 && log[|log| - 1] == Moved(Implementation, Verification)
    && OpenRisk(Exec(DEFAULT_BUDGETS, log).value.disk)
  }

  /** The process dies between saving the diff and asking. */
  lemma RiskLostToADeath() returns (log: seq<Event>)
    ensures RiskEscapes(log)
    ensures |log| >= 3 && log[|log| - 3] == ProgressSaved(Strayed(1)) && log[|log| - 2] == Called(Resume)
  {
    hide Exec;
    var l0, s0 := OneStray(1);
    var l1, s1 := Grow(DEFAULT_BUDGETS, l0, s0, Called(Resume));
    var l2, s2 := MovesOn(l1, s1, Strayed(1));
    log := l2;
  }

  /** The size is asked about instead, and answered. */
  lemma RiskBehindSize() returns (log: seq<Event>)
    ensures RiskEscapes(log)
    ensures |log| >= 5
    ensures log[|log| - 5] == PointerSaved(Elicitation(Size(1000, 1, 450, 5), Implementation, Pending))
    ensures log[|log| - 4] == Called(ResolveCheckpoint("continue"))
    ensures log[|log| - 2].ProgressSaved? && Size(1000, 1, 450, 5) in log[|log| - 2].progress.acked
  {
    hide Exec, Inv, Presented, ResolveBudget, SmallArtifact, OpenRisk;
    StrayedRisk(1000);
    SmallResolves([T]);
    var l0, s0 := OneStray(1000);
    var l1, s1 := AsksAbout(DEFAULT_BUDGETS, l0, s0, BUDGET_S, SmallArtifact([T]), Strayed(1000), 0.0);
    var t := Size(1000, 1, 450, 5);
    var l2, s2 := Continues(DEFAULT_BUDGETS, l1, s1, Implementation, SmallArtifact([T]), Strayed(1000), t);
    var l3, s3 := MovesOn(l2, s2, Strayed(1000).(acked := Strayed(1000).acked + {t}));
    StillOpen(s3.disk, 1000, Strayed(1000).acked + {t});
    log := l3;
  }

  /** The risk is asked about, even answered with "stop", and the process dies before the second write. */
  lemma StopLostToADeath() returns (log: seq<Event>)
    ensures RiskEscapes(log)
    ensures |log| >= 4 && log[|log| - 4] == Called(ResolveCheckpoint("stop")) && log[|log| - 2] == Called(Resume)
    ensures log[|log| - 3] == PointerSaved(Elicitation(Risk({"b"}), Implementation, Resolved("stop")))
  {
    hide Exec, Inv, Presented, ResolveBudget, SmallArtifact, OpenRisk;
    StrayedRisk(1);
    SmallResolves([T]);
    var l0, s0 := OneStray(1);
    var l1, s1 := AsksAbout(DEFAULT_BUDGETS, l0, s0, BUDGET_S, SmallArtifact([T]), Strayed(1), 0.0);
    var l2, s2 := Answers(DEFAULT_BUDGETS, l1, s1, Implementation, SmallArtifact([T]), Strayed(1), Risk({"b"}), "stop");
    var l3, s3 := Grow(DEFAULT_BUDGETS, l2, s2, Called(Resume));
    var l4, s4 := MovesOn(l3, s3, Strayed(1));
    StillOpen(s4.disk, 1, Strayed(1).acked);
    log := l4;
  }

  // ---- Verification failures ---------------------------------------------------------------

  /** The record after the one subtask stayed in scope, with some failures since. */
  function Clean(failures: nat, summary: string): RunProgress {
    FreshProgress(1, 0.0).(completed := ["t"], files := {"a"}, lines := 1, failures := failures, failureSummary := summary)
  }

  lemma CleanIsQuiet(failures: nat, summary: string)
    ensures NextSubtask([T], ["t"]).None?
    ensures failures < 3 ==> Triggers(DEFAULT_BUDGETS, SmallArtifact([T]), Clean(failures, summary), 0.0) == []
    ensures failures >= 3 ==> Triggers(DEFAULT_BUDGETS, SmallArtifact([T]), Clean(failures, summary), 0.0) == [Stuck(failures, 3)]
  {
    SmallPlans([]);
    assert [T][1..] == [];
    assert {"a"} - {"a"} == {};
    var p := Clean(failures, summary);
    var m := RunMachine.Measure(SmallArtifact([T]), p, 0.0);
    assert EvaluateCheckpoints(m, BUDGET_S) == OptionToSeq(CheckStuck(failures));
    PresentedInOrder(m, BUDGET_S, {});
  }

  lemma CleanWork()
    ensures Due(SmallArtifact([T]), FreshProgress(1, 0.0)) == Some(Batch([T]))
    ensures AfterWork(FreshProgress(1, 0.0), Batch([T]), Some([DiffOutput(["a"], 1, "", None)])) == Clean(0, "")
  {
    OneTaskIsDue([T], FreshProgress(1, 0.0), T, ["a"], 1);
    assert ToSet(["a"]) == {"a"};
  }

  /** The checkpoints find nothing, nothing is left to do, and verification begins. */
  lemma PassesCheckpoints(log: seq<Event>, s: Sys, a: PlanArtifact, p: RunProgress) returns (longer: seq<Event>, s': Sys)
    requires Exec(DEFAULT_BUDGETS, log) == Some(s) && s.place.Checking? && At(s.(place := Driving), Implementation, a, p)
    requires Triggers(DEFAULT_BUDGETS, a, p, 0.0) == [] && NextSubtask(a.tasks, p.completed).None?
    ensures longer == log + [ClockRead(0.0), Moved(Implementation, Verification)]
    ensures Exec(DEFAULT_BUDGETS, longer) == Some(s') && At(s', Verification, a, p)
  {
    hide Exec, History, Inv, Triggers, NextSubtask;
    var l1, s1 := Grow(DEFAULT_BUDGETS, log, s, ClockRead(0.0));
    longer, s' := Grow(DEFAULT_BUDGETS, l1, s1, Moved(Implementation, Verification));
  }

  /** The one subtask is done, in scope, and verification begins. */
  lemma ReachesVerification(log: seq<Event>, s: Sys) returns (longer: seq<Event>, s': Sys)
    requires Exec(DEFAULT_BUDGETS, log) == Some(s) && At(s, Implementation, SmallArtifact([T]), FreshProgress(1, 0.0))
    ensures longer == log + [Implement(Batch([T]), Some([DiffOutput(["a"], 1, "", None)])), ProgressSaved(Clean(0, "")),
                             ClockRead(0.0), Moved(Implementation, Verification)]
    ensures Exec(DEFAULT_BUDGETS, longer) == Some(s') && At(s', Verification, SmallArtifact([T]), Clean(0, ""))
  {
    hide Exec, History, Inv, Next, SysAt;
    CleanIsQuiet(0, "");
    CleanWork();
    var a, p, diffs := SmallArtifact([T]), FreshProgress(1, 0.0), Some([DiffOutput(["a"], 1, "", None)]);
    hide Exec, AfterWork, Due, Triggers, NextSubtask;
    var l1, s1 := Worked(DEFAULT_BUDGETS, log, s, a, p, Batch([T]), diffs);
    longer, s' := PassesCheckpoints(l1, s1, a, Clean(0, ""));
  }

  lemma FirstVerification() returns (log: seq<Event>, s: Sys)
    ensures Exec(DEFAULT_BUDGETS, log) == Some(s) && At(s, Verification, SmallArtifact([T]), Clean(0, ""))
  {
    hide *;
    var l0, s0 := OneTask(0.0);
    log, s := ReachesVerification(l0, s0);
  }

  /** A failed verification is on disk, and about to be counted. */
  lemma NotesFailure(log: seq<Event>, s: Sys, a: PlanArtifact, p: RunProgress, summary: string) returns (longer: seq<Event>, s': Sys)
    requires Exec(DEFAULT_BUDGETS, log) == Some(s) && At(s, Verification, a, p)
    ensures Exec(DEFAULT_BUDGETS, longer) == Some(s') && s'.place.CountingFailure?
    ensures At(s'.(place := Driving), Verification, a, AfterVerify(p, VerificationResult(false, summary)))
  {
    hide Exec, History, Inv, AfterVerify;
    var l1, s1 := Grow(DEFAULT_BUDGETS, log, s, Verify(VerificationResult(false, summary)));
    longer, s' := Grow(DEFAULT_BUDGETS, l1, s1, ProgressSaved(AfterVerify(p, VerificationResult(false, summary))));
  }

  lemma CleanFails(failures: nat, summary: string)
    ensures AfterVerify(Clean(failures, ""), VerificationResult(false, summary)) == Clean(failures + 1, summary)
  {
  }

  /** One failure short of being stuck: back to implementation. */
  lemma FailsVerification(log: seq<Event>, s: Sys, failures: nat, summary: string) returns (longer: seq<Event>, s': Sys)
    requires Exec(DEFAULT_BUDGETS, log) == Some(s) && At(s, Verification, SmallArtifact([T]), Clean(failures, ""))
    requires failures < 2
    ensures Exec(DEFAULT_BUDGETS, longer) == Some(s') && At(s', Implementation, SmallArtifact([T]), Clean(failures + 1, summary))
  {
    CleanIsQuiet(failures + 1, summary);
    CleanFails(failures, summary);
    hide *;
    var l1, s1 := NotesFailure(log, s, SmallArtifact([T]), Clean(failures, ""), summary);
    longer, s' := CountsOn(l1, s1, SmallArtifact([T]), Clean(failures + 1, summary));
  }

  /** A failure that is not asked about: back to implementation. */
  lemma CountsOn(log: seq<Event>, s: Sys, a: PlanArtifact, p: RunProgress) returns (longer: seq<Event>, s': Sys)
    requires Exec(DEFAULT_BUDGETS, log) == Some(s) && s.place.CountingFailure? && At(s.(place := Driving), Verification, a, p)
    requires Triggers(DEFAULT_BUDGETS, a, p, 0.0) == []
    ensures Exec(DEFAULT_BUDGETS, longer) == Some(s') && At(s', Implementation, a, p)
  {
    hide Exec, History, Inv, Triggers, NextSubtask;
    var l1, s1 := Grow(DEFAULT_BUDGETS, log, s, ClockRead(0.0));
    longer, s' := Grow(DEFAULT_BUDGETS, l1, s1, Moved(Verification, Implementation));
  }

  /** A failed verification, a fix-up that strays, and the risk goes on: nobody evaluates it. */
  lemma RiskFromFixUp() returns (log: seq<Event>)
    ensures RiskEscapes(log) && |log| >= 2 && FixUpSaved(DEFAULT_BUDGETS, log, |log| - 2)
  {
    hide Exec;
    var a, p, diffs := SmallArtifact([T]), Clean(1, "x"), Some([DiffOutput(["b"], 1, "", None)]);
    StrayingFixUp();
    hide Exec, Triggers, Clean, SmallArtifact, AfterWork, Due, OpenRisk;
    var l0, s0 := FirstVerification();
    var l1, s1 := FailsVerification(l0, s0, 0, "x");
    var l2, s2 := Worked(DEFAULT_BUDGETS, l1, s1, a, p, FixUp("x"), diffs);
    var l3, s3 := FixUpMoves(l2, s2);
    log := l3;
    FixUpStays(l2, log);
  }

  lemma StrayingFixUp()
    ensures Due(SmallArtifact([T]), Clean(1, "x")) == Some(FixUp("x"))
    ensures var p := AfterWork(Clean(1, "x"), FixUp("x"), Some([DiffOutput(["b"], 1, "", None)]));
            Open(CheckRisk(p.files, SmallArtifact([T]).inScope), p.acked)
  {
    CleanIsQuiet(1, "x");
    var p := AfterWork(Clean(1, "x"), FixUp("x"), Some([DiffOutput(["b"], 1, "", None)]));
    assert "b" in ToSet(["b"]);
    assert "b" in p.files - {"a"};
  }

  lemma FixUpMoves(log: seq<Event>, s: Sys) returns (longer: seq<Event>, s': Sys)
    requires Exec(DEFAULT_BUDGETS, log) == Some(s) && s.place == Entering(Verification) && s.disk.run.stage.Implementation?
    requires s.disk.latest.Some? && s.disk.progress.Some?
    ensures longer == log + [Moved(Implementation, Verification)] && Exec(DEFAULT_BUDGETS, longer) == Some(s')
    ensures s'.disk.latest == s.disk.latest && s'.disk.progress == s.disk.progress
  {
    hide Exec, History, Inv;
    longer, s' := Grow(DEFAULT_BUDGETS, log, s, Moved(Implementation, Verification));
  }

  lemma FixUpStays(log: seq<Event>, longer: seq<Event>)
    requires History(DEFAULT_BUDGETS, longer) && |log| >= 1 && |longer| == |log| + 1 && log <= longer
    requires History(DEFAULT_BUDGETS, log) && FixUpSaved(DEFAULT_BUDGETS, log, |log| - 1)
    ensures FixUpSaved(DEFAULT_BUDGETS, longer, |longer| - 2)
  {
    hide Exec, History, Inv, Next, SysAt;
    StatesStay(DEFAULT_BUDGETS, log, longer, |log| - 1);
  }

  /** A question asked at verification: three failures, the last with a summary nobody will act on before re-verifying. */
  lemma StuckAtVerification() returns (log: seq<Event>, s: Sys)
    ensures Exec(DEFAULT_BUDGETS, log) == Some(s) && AtQuestion(s, Verification, SmallArtifact([T]), Clean(3, "x"), Stuck(3, 3))
  {
    hide Exec, History, Inv, Next, SysAt, Triggers, Clean, SmallArtifact;
    var l0, s0 := FirstVerification();
    var l1, s1 := FailsVerification(l0, s0, 0, "");
    var l2, s2 := Reverifies(l1, s1, 1);
    var l3, s3 := FailsVerification(l2, s2, 1, "");
    var l4, s4 := Reverifies(l3, s3, 2);
    log, s := GetsStuck(l4, s4);
  }

  lemma FirstOfOne(t: Trigger)
    ensures t.Stuck? ==> FirstStuck([t]) == Some(t)
  {
  }

  lemma GetsStuck(log: seq<Event>, s: Sys) returns (longer: seq<Event>, s': Sys)
    requires Exec(DEFAULT_BUDGETS, log) == Some(s) && At(s, Verification, SmallArtifact([T]), Clean(2, ""))
    ensures Exec(DEFAULT_BUDGETS, longer) == Some(s')
    ensures AtQuestion(s', Verification, SmallArtifact([T]), Clean(3, "x"), Stuck(3, 3))
  {
    CleanFails(2, "x");
    hide *;
    var l1, s1 := NotesFailure(log, s, SmallArtifact([T]), Clean(2, ""), "x");
    longer, s' := RaisesStuck(l1, s1);
  }

  lemma RaisesStuck(log: seq<Event>, s: Sys) returns (longer: seq<Event>, s': Sys)
    requires Exec(DEFAULT_BUDGETS, log) == Some(s) && s.place.CountingFailure?
    requires At(s.(place := Driving), Verification, SmallArtifact([T]), Clean(3, "x"))
    ensures Exec(DEFAULT_BUDGETS, longer) == Some(s')
    ensures AtQuestion(s', Verification, SmallArtifact([T]), Clean(3, "x"), Stuck(3, 3))
  {
    hide Exec, History, Inv, Next, SysAt;
    ThreeAreStuck();
    hide Exec, Triggers, Clean, SmallArtifact, FirstStuck;
    longer, s' := CountsOut(log, s, SmallArtifact([T]), Clean(3, "x"), Stuck(3, 3));
  }

  lemma ThreeAreStuck()
    ensures FirstStuck(Triggers(DEFAULT_BUDGETS, SmallArtifact([T]), Clean(3, "x"), 0.0)) == Some(Stuck(3, 3))
  {
    CleanIsQuiet(3, "x");
    FirstOfOne(Stuck(3, 3));
  }

  lemma CountsOut(log: seq<Event>, s: Sys, a: PlanArtifact, p: RunProgress, t: Trigger) returns (longer: seq<Event>, s': Sys)
    requires Exec(DEFAULT_BUDGETS, log) == Some(s) && s.place.CountingFailure? && At(s.(place := Driving), Verification, a, p)
    requires FirstStuck(Triggers(DEFAULT_BUDGETS, a, p, 0.0)) == Some(t)
    ensures Exec(DEFAULT_BUDGETS, longer) == Some(s') && AtQuestion(s', Verification, a, p, t)
  {
    hide Exec, History, Inv, Triggers, FirstStuck, NextSubtask;
    var l1, s1 := Grow(DEFAULT_BUDGETS, log, s, ClockRead(0.0));
    longer, s' := Grow(DEFAULT_BUDGETS, l1, s1, PointerSaved(Elicitation(t, Verification, Pending)));
  }

  /** A failure without a summary leaves nothing to fix up. */
  lemma Reverifies(log: seq<Event>, s: Sys, failures: nat) returns (longer: seq<Event>, s': Sys)
    requires Exec(DEFAULT_BUDGETS, log) == Some(s) && At(s, Implementation, SmallArtifact([T]), Clean(failures, ""))
    ensures longer == log + [Moved(Implementation, Verification)]
    ensures Exec(DEFAULT_BUDGETS, longer) == Some(s') && At(s', Verification, SmallArtifact([T]), Clean(failures, ""))
  {
    hide Exec, History, Inv;
    CleanIsQuiet(0, "");
    hide Exec, Triggers;
    longer, s' := Grow(DEFAULT_BUDGETS, log, s, Moved(Implementation, Verification));
  }

  // ---- Empty answers -------------------------------------------------------------------------

  const PT := PlannedTask("t", "d", Parallel, Some("g"), [], Some("c"))
  const PU := PlannedTask("u", "d", Parallel, Some("g"), [], Some("c"))

  /** A run that is about to make a parallel call; EmptyAnswersLoopIff says what empty answers do to it. */
  lemma ParallelCallIsDue() returns (log: seq<Event>, s: Sys)
    ensures Exec(DEFAULT_BUDGETS, log) == Some(s) && ParallelDue(s, [PT, PU]) && Inv(DEFAULT_BUDGETS, s)
    ensures NothingToAsk(DEFAULT_BUDGETS, s.disk.latest.value, s.disk.progress.value, 0.0)
  {
    hide Exec, History, Inv, Next, SysAt;
    ParallelPlan();
    ParallelBatch();
    FreshIsQuiet([PT, PU]);
    hide PlanFor, Exec, Triggers, Inv, Due;
    log, s := Approved(DEFAULT_BUDGETS, Small(ParallelTasks()), 0.0);
    HistoryKeepsInv(DEFAULT_BUDGETS, log);
  }

  function ParallelTasks(): seq<SubTask> {
    [SubTask("t", "d", Some("g"), [], Some("c")), SubTask("u", "d", Some("g"), [], Some("c"))]
  }

  lemma ParallelPlan()
    ensures PlanFor(DEFAULT_BUDGETS, 1, Small(ParallelTasks())) == Success(SmallArtifact([PT, PU]))
  {
    assert PlannedAll(ParallelTasks()) == [PT, PU];
    SmallPlans(ParallelTasks());
  }

  lemma ParallelBatch()
    ensures Due(SmallArtifact([PT, PU]), FreshProgress(1, 0.0)) == Some(Batch([PT, PU]))
  {
    assert [PT, PU][1..] == [PU] && [PU][1..] == [];
    assert ReadyInGroup([PU], [], "g") == [PU];
    assert ReadyInGroup([PT, PU], [], "g") == [PT, PU];
  }

  lemma FreshIsQuiet(tasks: seq<PlannedTask>)
    ensures Triggers(DEFAULT_BUDGETS, SmallArtifact(tasks), FreshProgress(1, 0.0), 0.0) == []
  {
    SmallPlans([]);
    var m := RunMachine.Measure(SmallArtifact(tasks), FreshProgress(1, 0.0), 0.0);
    assert EvaluateCheckpoints(m, BUDGET_S) == [];
  }

  // ---- A reply to one question answers another --------------------------------------------------

  /** The record after both subtasks strayed, the first question answered. */
  function StrayedTwice(): RunProgress {
    FreshProgress(1, 0.0).(completed := ["t", "u"], files := {"b", "c"}, lines := 2, acked := {Risk({"b"})})
  }

  function StrayedOnce(): RunProgress {
    FreshProgress(1, 0.0).(completed := ["t"], files := {"b"}, lines := 1)
  }

  lemma NextOfTwo()
    ensures NextSubtask([T, U], []) == Some(T) && NextSubtask([T, U], ["t"]) == Some(U)
  {
    assert [T, U][1..] == [U];
  }

  lemma StrayingFacts()
    ensures Presented(BUDGET_S, SmallArtifact([T, U]), StrayedOnce(), 0.0) == Some(Risk({"b"}))
    ensures Presented(BUDGET_S, SmallArtifact([T, U]), StrayedTwice(), 0.0) == Some(Risk({"b", "c"}))
    ensures ResolveBudget(SmallArtifact([T, U]).storySize, SmallArtifact([T, U]).highRisk, DEFAULT_BUDGETS) == Success(BUDGET_S)
  {
    SmallPlans([]);
    hide ResolveBudget;
    assert {"b"} - {"a"} == {"b"} && {"b", "c"} - {"a"} == {"b", "c"};
    assert "c" !in {"b"};
  }

  lemma FirstWork()
    ensures Due(SmallArtifact([T, U]), FreshProgress(1, 0.0)) == Some(Batch([T]))
    ensures AfterWork(FreshProgress(1, 0.0), Batch([T]), Some([DiffOutput(["b"], 1, "", None)])) == StrayedOnce()
  {
    NextOfTwo();
    OneTaskIsDue([T, U], FreshProgress(1, 0.0), T, ["b"], 1);
    hide Due, AfterWork, NextSubtask, SmallArtifact;
    assert ToSet(["b"]) == {"b"};
  }

  /** The first of two subtasks strayed; the question is pending, and noted. */
  lemma FirstQuestion() returns (log: seq<Event>, s: Sys)
    ensures Exec(DEFAULT_BUDGETS, log) == Some(s)
    ensures AtQuestion(s, Implementation, SmallArtifact([T, U]), StrayedOnce(), Risk({"b"}))
    ensures log != [] && log[|log| - 1] == PointerSaved(Elicitation(Risk({"b"}), Implementation, Pending))
  {
    hide Exec, History, Inv, AfterWork, Due, Presented, NextSubtask, SmallArtifact, StrayedOnce, ResolveBudget, FreshProgress;
    StrayingFacts();
    FirstWork();
    var a, diffs := SmallArtifact([T, U]), Some([DiffOutput(["b"], 1, "", None)]);
    var l0, s0 := TwoTasks(0.0);
    var l1, s1 := Worked(DEFAULT_BUDGETS, l0, s0, a, FreshProgress(1, 0.0), Batch([T]), diffs);
    log, s := AsksAbout(DEFAULT_BUDGETS, l1, s1, BUDGET_S, a, StrayedOnce(), 0.0);
  }

  /** The events from the first question to the second. */
  function ToSecondQuestion(): (es: seq<Event>)
    ensures |es| == 7 && es[0] == Called(ResolveCheckpoint("continue")) && forall x | 0 < x < 7 :: !es[x].Called?
  {
    var p := StrayedOnce().(acked := StrayedOnce().acked + {Risk({"b"})});
    [Called(ResolveCheckpoint("continue")), PointerSaved(Elicitation(Risk({"b"}), Implementation, Resolved("continue"))),
     ProgressSaved(p), Implement(Batch([U]), Some([DiffOutput(["c"], 1, "", None)])), ProgressSaved(StrayedTwice()),
     ClockRead(0.0), PointerSaved(Elicitation(Risk({"b", "c"}), Implementation, Pending))]
  }

  /** Answering it drives the run on to the second question. */
  lemma SecondQuestion(log: seq<Event>, s: Sys) returns (longer: seq<Event>, s': Sys)
    requires Exec(DEFAULT_BUDGETS, log) == Some(s)
    requires AtQuestion(s, Implementation, SmallArtifact([T, U]), StrayedOnce(), Risk({"b"}))
    ensures longer == log + ToSecondQuestion()
    ensures Exec(DEFAULT_BUDGETS, longer) == Some(s')
    ensures AtQuestion(s', Implementation, SmallArtifact([T, U]), StrayedTwice(), Risk({"b", "c"}))
  {
    hide Exec, History, Inv, Next, SysAt;
    SecondWork();
    hide Exec, AfterWork, Due, Presented, NextSubtask, SmallArtifact, StrayedOnce, StrayedTwice;
    var a, p, diffs := SmallArtifact([T, U]), StrayedOnce(), Some([DiffOutput(["c"], 1, "", None)]);
    var l1, s1 := Continues(DEFAULT_BUDGETS, log, s, Implementation, a, p, Risk({"b"}));
    var l2, s2 := Worked(DEFAULT_BUDGETS, l1, s1, a, p.(acked := p.acked + {Risk({"b"})}), Batch([U]), diffs);
    longer, s' := AsksAgain(l2, s2);
  }

  lemma AsksAgain(log: seq<Event>, s: Sys) returns (longer: seq<Event>, s': Sys)
    requires Exec(DEFAULT_BUDGETS, log) == Some(s) && s.place.Checking?
    requires At(s.(place := Driving), Implementation, SmallArtifact([T, U]), StrayedTwice())
    ensures longer == log + [ClockRead(0.0), PointerSaved(Elicitation(Risk({"b", "c"}), Implementation, Pending))]
    ensures Exec(DEFAULT_BUDGETS, longer) == Some(s')
    ensures AtQuestion(s', Implementation, SmallArtifact([T, U]), StrayedTwice(), Risk({"b", "c"}))
  {
    hide Exec, History, Inv, Next, SysAt, Presented, SmallArtifact, StrayedTwice, ResolveBudget;
    StrayingFacts();
    longer, s' := AsksAbout(DEFAULT_BUDGETS, log, s, BUDGET_S, SmallArtifact([T, U]), StrayedTwice(), 0.0);
  }

  lemma SecondWork()
    ensures var p := StrayedOnce().(acked := StrayedOnce().acked + {Risk({"b"})});
            && Due(SmallArtifact([T, U]), p) == Some(Batch([U]))
            && AfterWork(p, Batch([U]), Some([DiffOutput(["c"], 1, "", None)])) == StrayedTwice()
  {
    var p := StrayedOnce().(acked := StrayedOnce().acked + {Risk({"b"})});
    NextOfTwo();
    OneTaskIsDue([T, U], p, U, ["c"], 1);
    hide Due, AfterWork, NextSubtask, SmallArtifact;
    assert ToSet(["c"]) == {"c"};
    assert {"b"} + {"c"} == {"b", "c"};
    assert p.acked == {Risk({"b"})};
  }

  lemma StatesOf(log: seq<Event>, before: seq<Event>, s: Sys)
    requires History(DEFAULT_BUDGETS, log) && before <= log && Exec(DEFAULT_BUDGETS, before) == Some(s)
    ensures SysAt(DEFAULT_BUDGETS, log, |before|) == s
  {
    hide Exec, History, Inv, Next;
    assert log[..|before|] == before;
  }

  // ---- A question asked twice -----------------------------------------------------------------------

  /** The answer to a question is cut off, and the next batch, all in scope, asks the very same thing. */
  lemma SameQuestionTwice() returns (log: seq<Event>, a: nat, b: nat)
    ensures History(DEFAULT_BUDGETS, log) && a < b < |log| && Asks(log[a]) && log[b] == log[a]
  {
    hide Exec;
    var art, p := SmallArtifact([T, U]), StrayedOnce();
    var diffs := Some([DiffOutput([], 1, "", None)]);
    AgainFacts();
    AsksTheSame();
    hide Exec, AfterWork, Due, Presented, NextSubtask, SmallArtifact, StrayedOnce;
    var l0, s0 := FirstQuestion();
    var l1, s1 := Answers(DEFAULT_BUDGETS, l0, s0, Implementation, art, p, Risk({"b"}), "continue");
    var l2, s2 := Grow(DEFAULT_BUDGETS, l1, s1, Called(Resume));
    var l3, s3 := Worked(DEFAULT_BUDGETS, l2, s2, art, p, Batch([U]), diffs);
    var l4, s4 := AsksAbout(DEFAULT_BUDGETS, l3, s3, BUDGET_S, art, SecondInScope(), 0.0);
    log, a, b := l4, |l0| - 1, |l4| - 1;
  }

  /** The record after the second subtask stayed in scope. */
  function SecondInScope(): RunProgress {
    StrayedOnce().(completed := ["t", "u"], lines := 2)
  }

  lemma AgainFacts()
    ensures Due(SmallArtifact([T, U]), StrayedOnce()) == Some(Batch([U]))
    ensures AfterWork(StrayedOnce(), Batch([U]), Some([DiffOutput([], 1, "", None)])) == SecondInScope()
  {
    NextOfTwo();
    OneTaskIsDue([T, U], StrayedOnce(), U, [], 1);
    hide Due, AfterWork, NextSubtask, SmallArtifact;
    assert ToSet([]) == {} && {"b"} + {} == {"b"};
  }

  lemma AsksTheSame()
    ensures Presented(BUDGET_S, SmallArtifact([T, U]), SecondInScope(), 0.0) == Some(Risk({"b"}))
    ensures ResolveBudget(SmallArtifact([T, U]).storySize, SmallArtifact([T, U]).highRisk, DEFAULT_BUDGETS) == Success(BUDGET_S)
  {
    SmallPlans([]);
    hide ResolveBudget, NextSubtask;
    assert {"b"} - {"a"} == {"b"};
  }

  // ---- A graph that cannot be scheduled --------------------------------------------------------------

  const SELF := PlannedTask("t", "d", Sequential, None, ["t"], None)

  /** A subtask that waits for itself: nothing is ever ready, and the run moves to verification all the same. */
  lemma NothingDoneAtVerification() returns (log: seq<Event>)
    ensures History(DEFAULT_BUDGETS, log) && |log| > 0 && log[|log| - 1] == Moved(Implementation, Verification)
    ensures var d := Exec(DEFAULT_BUDGETS, log).value.disk;
            && d.latest.Some? && d.progress.Some? && d.progress.value.completed == [] && d.latest.value.tasks == [SELF]
            && !Schedulable(d.latest.value.tasks) && !AllDone(d.latest.value.tasks, d.progress.value.completed)
  {
    hide Exec;
    var subtasks := [SubTask("t", "d", None, ["t"], None)];
    assert PlannedAll(subtasks) == [SELF];
    SmallPlans(subtasks);
    SelfIsBlocked();
    hide Exec, PlanFor, Schedulable, NextSubtask;
    var l0, s0 := Approved(DEFAULT_BUDGETS, Small(subtasks), 0.0);
    var l1, s1 := Grow(DEFAULT_BUDGETS, l0, s0, Moved(Implementation, Verification));
    log := l1;
  }

  lemma SelfIsBlocked()
    ensures NextSubtask([SELF], []).None? && !AllDone([SELF], []) && !Schedulable([SELF])
  {
    assert [SELF][1..] == [];
    assert SELF in [SELF];
    NoNextMeansDone([SELF], []);
  }

  // ---- The change review ---------------------------------------------------------------------------------

  predicate AtReview(s: Sys, a: PlanArtifact, p: RunProgress) {
    && s.place.Driving? && s.disk.run.stage.ChangeReviewGate? && !PendingCheckpoint(s.disk)
    && s.disk.latest == Some(a) && s.disk.progress == Some(p)
  }

  const PASS := VerificationResult(true, "")

  /** Verification passes, and the change review opens. */
  lemma Passes(log: seq<Event>, s: Sys, a: PlanArtifact, p: RunProgress) returns (longer: seq<Event>, s': Sys)
    requires Exec(DEFAULT_BUDGETS, log) == Some(s) && At(s, Verification, a, p)
    ensures longer == log + [Verify(PASS), ProgressSaved(AfterVerify(p, PASS)), Moved(Verification, ChangeReviewGate)]
    ensures Exec(DEFAULT_BUDGETS, longer) == Some(s') && AtReview(s', a, AfterVerify(p, PASS))
  {
    hide Exec, History, Inv, AfterVerify;
    var l1, s1 := Grow(DEFAULT_BUDGETS, log, s, Verify(PASS));
    var l2, s2 := Grow(DEFAULT_BUDGETS, l1, s1, ProgressSaved(AfterVerify(p, PASS)));
    longer, s' := Grow(DEFAULT_BUDGETS, l2, s2, Moved(Verification, ChangeReviewGate));
  }

  lemma FirstReview() returns (log: seq<Event>, s: Sys)
    ensures Exec(DEFAULT_BUDGETS, log) == Some(s) && AtReview(s, SmallArtifact([T]), Clean(0, ""))
  {
    assert AfterVerify(Clean(0, ""), PASS) == Clean(0, "");
    hide *;
    var l0, s0 := FirstVerification();
    log, s := Passes(l0, s0, SmallArtifact([T]), Clean(0, ""));
  }

  /** "request_changes" at the change review: straight back to verification, with nothing changed. */
  lemma ChangesRequestedInVain() returns (log: seq<Event>)
    ensures History(DEFAULT_BUDGETS, log) && |log| >= 4
    ensures log[|log| - 4] == Called(ApproveChangeReview("request_changes")) && log[|log| - 3] == Moved(ChangeReviewGate, Implementation)
    ensures log[|log| - 2] == Moved(Implementation, Verification) && log[|log| - 1] == Verify(PASS)
  {
    hide *;
    var l0, s0 := FirstReview();
    var l1, s1 := ChangesRequested(l0, s0);
    var l2, s2 := Reverifies(l1, s1, 0);
    log := VerifiesAgain(l2, s2);
  }

  lemma ChangesRequested(log: seq<Event>, s: Sys) returns (longer: seq<Event>, s': Sys)
    requires Exec(DEFAULT_BUDGETS, log) == Some(s) && AtReview(s, SmallArtifact([T]), Clean(0, ""))
    ensures longer == log + [Called(ApproveChangeReview("request_changes")), Moved(ChangeReviewGate, Implementation)]
    ensures Exec(DEFAULT_BUDGETS, longer) == Some(s') && At(s', Implementation, SmallArtifact([T]), Clean(0, ""))
  {
    hide Exec, History, Inv, Clean, SmallArtifact;
    var l1, s1 := Grow(DEFAULT_BUDGETS, log, s, Called(ApproveChangeReview("request_changes")));
    longer, s' := Grow(DEFAULT_BUDGETS, l1, s1, Moved(ChangeReviewGate, Implementation));
  }

  lemma VerifiesAgain(log: seq<Event>, s: Sys) returns (longer: seq<Event>)
    requires Exec(DEFAULT_BUDGETS, log) == Some(s) && At(s, Verification, SmallArtifact([T]), Clean(0, ""))
    ensures longer == log + [Verify(PASS)] && History(DEFAULT_BUDGETS, longer)
  {
    hide Exec, Clean, SmallArtifact;
    var l1, _ := Grow(DEFAULT_BUDGETS, log, s, Verify(PASS));
    longer := l1;
  }

  /** A run that ships, packaged twice: the process died between packaging and the move. */
  lemma PackagedTwice() returns (log: seq<Event>)
    ensures History(DEFAULT_BUDGETS, log) && Exec(DEFAULT_BUDGETS, log).value.disk.run.stage.Completed?
    ensures |log| >= 6 && log[|log| - 6] == Moved(ChangeReviewGate, Packaging)
    ensures log[|log| - 5] == Packaged(true) && log[|log| - 4] == Called(Resume) && log[|log| - 3] == Packaged(true)
  {
    hide Exec;
    var l0, s0 := FirstReview();
    var l1, s1 := ReviewApproved(l0, s0);
    var l2, s2 := Grow(DEFAULT_BUDGETS, l1, s1, Packaged(true));
    var l3, s3 := Grow(DEFAULT_BUDGETS, l2, s2, Called(Resume));
    var l4, s4 := Grow(DEFAULT_BUDGETS, l3, s3, Packaged(true));
    var l5, s5 := Grow(DEFAULT_BUDGETS, l4, s4, Moved(Packaging, Retrospective));
    var l6, s6 := Grow(DEFAULT_BUDGETS, l5, s5, Moved(Retrospective, Completed));
    log := l6;
  }

  lemma ReviewApproved(log: seq<Event>, s: Sys) returns (longer: seq<Event>, s': Sys)
    requires Exec(DEFAULT_BUDGETS, log) == Some(s) && AtReview(s, SmallArtifact([T]), Clean(0, ""))
    ensures longer == log + [Called(ApproveChangeReview("approve")), Moved(ChangeReviewGate, Packaging)]
    ensures Exec(DEFAULT_BUDGETS, longer) == Some(s') && s'.disk.run.stage.Packaging? && s'.place.Driving?
    ensures !PendingCheckpoint(s'.disk) && History(DEFAULT_BUDGETS, longer)
  {
    hide Exec, History, Inv;
    var l1, s1 := Grow(DEFAULT_BUDGETS, log, s, Called(ApproveChangeReview("approve")));
    longer, s' := Grow(DEFAULT_BUDGETS, l1, s1, Moved(ChangeReviewGate, Packaging));
  }

  // ---- From the plan gate to the change review ---------------------------------------------

  /** A plan of one subtask waits for approval. */
  lemma FirstGate() returns (log: seq<Event>, s: Sys)
    ensures Exec(DEFAULT_BUDGETS, log) == Some(s) && AtPlanGate(s, SmallArtifact([T]))
  {
    hide Exec, History, Inv, Next, SysAt;
    var subtasks := [Alone("t")];
    assert PlannedAll(subtasks) == [T];
    SmallPlans(subtasks);
    hide PlanFor, Exec, AtPlanGate;
    log, s := Authored(DEFAULT_BUDGETS, Small(subtasks));
  }

  /** The events from the plan gate to the change review, with the plan approved on the way. */
  function ToReview(): (es: seq<Event>)
    ensures |es| == 10 && es[0] == Called(ApprovePlan("approve")) && forall x | 0 < x < 10 :: !es[x].Called?
  {
    [Called(ApprovePlan("approve")), Moved(PlanApprovalGate, Implementation), ProgressSaved(FreshProgress(1, 0.0)),
     Implement(Batch([T]), Some([DiffOutput(["a"], 1, "", None)])), ProgressSaved(Clean(0, "")),
     ClockRead(0.0), Moved(Implementation, Verification),
     Verify(PASS), ProgressSaved(Clean(0, "")), Moved(Verification, ChangeReviewGate)]
  }

  lemma GateToReview(log: seq<Event>, s: Sys) returns (longer: seq<Event>, s': Sys)
    requires Exec(DEFAULT_BUDGETS, log) == Some(s) && AtPlanGate(s, SmallArtifact([T]))
    ensures longer == log + ToReview()
    ensures Exec(DEFAULT_BUDGETS, longer) == Some(s') && AtReview(s', SmallArtifact([T]), Clean(0, ""))
  {
    hide Exec, History, Inv, Next, SysAt;
    assert AfterVerify(Clean(0, ""), PASS) == Clean(0, "");
    hide Exec, At, AtPlanGate, AtReview, Clean, SmallArtifact, AfterVerify;
    var l1, s1 := Approves(DEFAULT_BUDGETS, log, s, SmallArtifact([T]), 0.0);
    var l2, s2 := ReachesVerification(l1, s1);
    longer, s' := Passes(l2, s2, SmallArtifact([T]), Clean(0, ""));
  }
}
