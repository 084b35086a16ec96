/**
 * When a risk that nobody answered goes on to verification: exactly when, over every history. The
 * claim that it never does is false in four ways, and these are all of them.
 */
module RunRisk {
  import opened Common
  import opened Stages
  import opened Checkpoints
  import opened Plans
  import opened Scheduling
  import opened RunMachine
  import opened RunInvariants
  import opened RunReplies
  import opened RunTheorems

  /** The accumulated diff touches files out of scope, and nobody has answered for exactly those. */
  predicate OpenRisk(d: Disk) {
    && d.latest.Some? && d.progress.Some?
    && Open(CheckRisk(d.progress.value.files, d.latest.value.inScope), d.progress.value.acked)
  }

  /** The progress record is saved with what the backend returned. */
  predicate SavesDiff(s: Sys, e: Event) {
    e.ProgressSaved? && s.place.Implemented? && s.place.diffs.Some?
  }

  predicate DiffSaved(budgets: Budgets, log: seq<Event>, k: nat)
    requires History(budgets, log)
  {
    k < |log| && SavesDiff(SysAt(budgets, log, k), log[k])
  }

  predicate FixUpSaved(budgets: Budgets, log: seq<Event>, k: nat)
    requires History(budgets, log)
  {
    DiffSaved(budgets, log, k) && SysAt(budgets, log, k).place.work.FixUp?
  }

  predicate NoDiffSaved(budgets: Budgets, log: seq<Event>, lo: nat, hi: nat)
    requires History(budgets, log)
  {
    forall k | lo <= k < hi && k < |log| :: !DiffSaved(budgets, log, k)
  }

  predicate NoMove(log: seq<Event>, lo: nat, hi: nat) {
    forall k | lo <= k < hi && k < |log| :: !log[k].Moved?
  }

  // ---- Without a diff, a risk neither opens nor, unasked, closes -------------------

  lemma RiskStaysClosed(budgets: Budgets, s: Sys, e: Event)
    requires Inv(budgets, s) && Next(budgets, s, e).Some? && !SavesDiff(s, e) && !OpenRisk(s.disk)
    ensures !OpenRisk(Next(budgets, s, e).value.disk)
  {
    hide WellPlanned, LinearExtension, Triggers, PlanFor, Due;
  }

  /** Nobody is about to ask about a risk, or to act on the answer to one. */
  predicate NoRiskTalk(s: Sys) {
    && (PendingCheckpoint(s.disk) ==> !s.disk.run.pointer.value.trigger.Risk?)
    && (match s.place
        case Checking => false
        case Raising(t) => !t.Risk?
        case Answering(_, q) => !q.trigger.Risk?
        case Answered(_, q) => !q.trigger.Risk?
        case HasArtifact(_) => BeforeApproval(s.disk.run.stage)
        case HalfSaved(_) => BeforeApproval(s.disk.run.stage)
        case _ => true)
  }

  lemma NoRiskTalkStays(budgets: Budgets, s: Sys, e: Event)
    requires Inv(budgets, s) && Next(budgets, s, e).Some? && !SavesDiff(s, e) && NoRiskTalk(s)
    ensures NoRiskTalk(Next(budgets, s, e).value)
    ensures OpenRisk(s.disk) ==> OpenRisk(Next(budgets, s, e).value.disk)
  {
    hide WellPlanned, LinearExtension, Triggers, PlanFor, Due, PlanStoreOk;
  }

  /** What is ready does not change without a diff. */
  lemma ReadyStays(budgets: Budgets, s: Sys, e: Event)
    requires Inv(budgets, s) && Next(budgets, s, e).Some? && !SavesDiff(s, e)
    requires s.disk.progress.Some? && s.disk.latest.Some?
    ensures NothingReady(Next(budgets, s, e).value.disk) <==> NothingReady(s.disk)
  {
    hide WellPlanned, LinearExtension, Triggers, PlanFor, NextSubtask, PlanStoreOk;
  }

  /** A failure to fix is only ever noted when nothing else is left to do. */
  predicate SummaryOk(d: Disk) {
    d.progress.Some? && d.progress.value.failureSummary != "" ==> NothingReady(d)
  }

  lemma SummaryStep(budgets: Budgets, s: Sys, e: Event)
    requires Inv(budgets, s) && Next(budgets, s, e).Some? && SummaryOk(s.disk)
    ensures SummaryOk(Next(budgets, s, e).value.disk)
  {
    hide WellPlanned, LinearExtension, Triggers, PlanFor, PlanStoreOk, Absorbed, ReadySubtaskBatch;
    if s.disk.progress.Some? && s.disk.latest.Some? {
      if SavesDiff(s, e) {
        SummaryAfterWork(s.disk.progress.value, s.place.work, s.place.diffs);
      } else {
        ReadyStays(budgets, s, e);
      }
    }
    hide WellPlanned, LinearExtension, Triggers, PlanFor, NextSubtask, PlanStoreOk, AfterWork;
  }

  lemma SummaryAfterWork(p: RunProgress, work: Work, diffs: Diffs)
    requires diffs.Some?
    ensures work.Batch? ==> AfterWork(p, work, diffs).failureSummary == p.failureSummary
    ensures work.FixUp? && diffs.value != [] ==> AfterWork(p, work, diffs).failureSummary == ""
    ensures work.FixUp? ==> AfterWork(p, work, diffs).completed == p.completed
  {
    if work.Batch? {
      AbsorbedCompletes(p, work.tasks, diffs.value, Min(|work.tasks|, |diffs.value|));
    }
  }

  lemma SummaryAtFirst(budgets: Budgets, log: seq<Event>)
    requires History(budgets, log)
    ensures SummaryOk(DiskAt(budgets, log, 0))
  {
    assert log[..0] == [];
  }

  lemma {:induction false} HistorySummaryOk(budgets: Budgets, log: seq<Event>, n: nat)
    requires History(budgets, log) && n <= |log|
    ensures SummaryOk(DiskAt(budgets, log, n))
  {
    hide Exec, History, Inv, Next, SysAt, SummaryOk;
    if n > 0 {
      HistorySummaryOk(budgets, log, n - 1);
      var s := StateAt(budgets, log, n - 1);
      var _ := StateAt(budgets, log, n);
      SummaryStep(budgets, s, log[n - 1]);
    } else {
      SummaryAtFirst(budgets, log);
    }
  }

  // ---- Over a stretch without a diff --------------------------------------------------

  lemma {:induction false} ClosedOverStretch(budgets: Budgets, log: seq<Event>, lo: nat, hi: nat)
    requires History(budgets, log) && lo <= hi <= |log| && NoDiffSaved(budgets, log, lo, hi)
    requires !OpenRisk(DiskAt(budgets, log, lo))
    ensures !OpenRisk(DiskAt(budgets, log, hi))
    decreases hi
  {
    hide Exec, History, Inv, Next, SysAt;
    if lo < hi {
      ClosedOverStretch(budgets, log, lo, hi - 1);
      var s := StateAt(budgets, log, hi - 1);
      var _ := StateAt(budgets, log, hi);
      assert !DiffSaved(budgets, log, hi - 1);
      RiskStaysClosed(budgets, s, log[hi - 1]);
    }
  }

  lemma {:induction false} OpenOverStretch(budgets: Budgets, log: seq<Event>, lo: nat, hi: nat)
    requires History(budgets, log) && lo <= hi <= |log| && NoDiffSaved(budgets, log, lo, hi)
    requires OpenRisk(DiskAt(budgets, log, lo)) && NoRiskTalk(SysAt(budgets, log, lo))
    ensures OpenRisk(DiskAt(budgets, log, hi)) && NoRiskTalk(SysAt(budgets, log, hi))
    decreases hi
  {
    hide Exec, History, Inv, Next, SysAt;
    if lo < hi {
      OpenOverStretch(budgets, log, lo, hi - 1);
      var s := StateAt(budgets, log, hi - 1);
      var _ := StateAt(budgets, log, hi);
      assert !DiffSaved(budgets, log, hi - 1);
      NoRiskTalkStays(budgets, s, log[hi - 1]);
    }
  }

  lemma {:induction false} ReadyOverStretch(budgets: Budgets, log: seq<Event>, lo: nat, hi: nat)
    requires History(budgets, log) && lo <= hi <= |log| && NoDiffSaved(budgets, log, lo, hi)
    requires DiskAt(budgets, log, lo).progress.Some? && DiskAt(budgets, log, lo).latest.Some?
    ensures NothingReady(DiskAt(budgets, log, hi)) <==> NothingReady(DiskAt(budgets, log, lo))
    ensures DiskAt(budgets, log, hi).progress.Some? && DiskAt(budgets, log, hi).latest.Some?
    decreases hi
  {
    hide Exec, History, Inv, Next, SysAt;
    if lo < hi {
      ReadyOverStretch(budgets, log, lo, hi - 1);
      var s := StateAt(budgets, log, hi - 1);
      var _ := StateAt(budgets, log, hi);
      assert !DiffSaved(budgets, log, hi - 1);
      ReadyStays(budgets, s, log[hi - 1]);
      StepKeepsWork(budgets, s, log[hi - 1]);
    }
  }

  // ---- After a batch that opened a risk --------------------------------------------------

  /** The size question goes first, and the risk is not presented. */
  predicate SizeFirst(budgets: Budgets, d: Disk)
    requires d.latest.Some? && d.progress.Some?
  {
    match ResolveBudget(d.latest.value.storySize, d.latest.value.highRisk, budgets)
    case Failure(_) => false
    case Success(budget) => Open(CheckSize(d.progress.value.files, d.progress.value.lines, budget), d.progress.value.acked)
  }

  function RiskOf(d: Disk): Trigger
    requires d.latest.Some? && d.progress.Some?
  {
    Risk(d.progress.value.files - d.latest.value.inScope)
  }

  /** The process died after saving the diff at k and before any question about it was on disk. */
  predicate DiedBeforeAsking(log: seq<Event>, k: nat) {
    || (k + 1 < |log| && log[k + 1].Called?)
    || (k + 2 < |log| && log[k + 2].Called?)
  }

  /** Whatever was answered between the diff at k and the move, no acknowledgement was saved. */
  predicate NoAcknowledgement(log: seq<Event>, k: nat, move: nat) {
    forall m | k + 2 < m < move && m < |log| :: !log[m].ProgressSaved?
  }

  /** The question about the diff at k, as the third event after it began. */
  predicate RiskAskedAt(log: seq<Event>, k: nat, risk: Trigger) {
    && k + 2 < |log| && log[k + 1].ClockRead?
    && log[k + 2] == PointerSaved(Elicitation(risk, Implementation, Pending))
  }

  /** Just saved; about to ask; not going to be asked; asked and not acknowledged; acknowledged. */
  datatype Phase = Saved | Asking | Unasked | Asked | Lost | Acknowledged

  /** Nothing has changed since the diff was saved, but the pointer. */
  predicate Same(d0: Disk, s: Sys) {
    s.disk.latest == d0.latest && s.disk.progress == d0.progress && s.disk.run.stage.Implementation?
  }

  /** The risk is the pending question, or its answer is on disk and not yet acknowledged. */
  predicate AskedState(d0: Disk, s: Sys)
    requires d0.latest.Some? && d0.progress.Some?
  {
    && Same(d0, s)
    && (if PendingCheckpoint(s.disk) then
          s.disk.run.pointer.value.trigger == RiskOf(d0) && (s.place.Driving? || s.place.Refused? || s.place.Answering?)
        else s.place.Answered? && s.place.question.trigger == RiskOf(d0))
  }

  predicate LostState(d0: Disk, s: Sys) {
    Same(d0, s) && !PendingCheckpoint(s.disk) && (s.place.Driving? || s.place.Refused?)
  }

  ghost predicate InPhase(budgets: Budgets, log: seq<Event>, k: nat, j: nat, phase: Phase)
    requires History(budgets, log) && k < j <= |log|
    requires DiskAt(budgets, log, k + 1).latest.Some? && DiskAt(budgets, log, k + 1).progress.Some?
  {
    var d0, s := DiskAt(budgets, log, k + 1), SysAt(budgets, log, j);
    match phase
    case Saved => j == k + 1 && Same(d0, s) && s.place.Checking?
    case Asking =>
      && j == k + 2 && Same(d0, s) && log[k + 1].ClockRead? && s.place.Raising?
      && (if SizeFirst(budgets, d0) then s.place.trigger.Size? else s.place.trigger == RiskOf(d0))
    case Unasked =>
      && NoRiskTalk(s) && OpenRisk(s.disk) && (SizeFirst(budgets, d0) || DiedBeforeAsking(log[..j], k))
    case Asked =>
      && j > k + 2 && AskedState(d0, s) && !SizeFirst(budgets, d0) && RiskAskedAt(log, k, RiskOf(d0))
      && NoAcknowledgement(log, k, j)
    case Lost =>
      j > k + 2 && LostState(d0, s) && RiskAskedAt(log, k, RiskOf(d0)) && NoAcknowledgement(log, k, j)
    case Acknowledged =>
      && j > k + 2 && !SizeFirst(budgets, d0) && RiskAskedAt(log, k, RiskOf(d0)) && !NoAcknowledgement(log, k, j)
      && !OpenRisk(s.disk)
  }

  ghost predicate SomePhase(budgets: Budgets, log: seq<Event>, k: nat, j: nat)
    requires History(budgets, log) && k < j <= |log|
    requires DiskAt(budgets, log, k + 1).latest.Some? && DiskAt(budgets, log, k + 1).progress.Some?
  {
    exists phase :: InPhase(budgets, log, k, j, phase)
  }

  /** What a batch that opened a risk leaves behind: nothing else to do. */
  ghost predicate OpensRisk(budgets: Budgets, log: seq<Event>, k: nat)
    requires History(budgets, log)
  {
    && DiffSaved(budgets, log, k) && !FixUpSaved(budgets, log, k)
    && OpenRisk(DiskAt(budgets, log, k + 1)) && NothingReady(DiskAt(budgets, log, k + 1))
  }

  lemma BatchSaves(budgets: Budgets, s: Sys, e: Event)
    requires Inv(budgets, s) && Next(budgets, s, e).Some? && SavesDiff(s, e) && !s.place.work.FixUp? && SummaryOk(s.disk)
    ensures var s' := Next(budgets, s, e).value;
            s'.place.Checking? && Same(s'.disk, s') && s'.disk.progress.Some? && s'.disk.progress.value.failureSummary == ""
  {
    hide AfterWork, ReadySubtaskBatch, WellPlanned, PlanStoreOk, LinearExtension, Triggers, PlanFor, Planning, ReadingClock;
    SummaryAfterWork(s.disk.progress.value, s.place.work, s.place.diffs);
    hide AfterWork, ReadySubtaskBatch, WellPlanned, PlanStoreOk;
  }

  lemma BatchSavedFacts(budgets: Budgets, log: seq<Event>, k: nat)
    requires History(budgets, log) && OpensRisk(budgets, log, k)
    ensures InPhase(budgets, log, k, k + 1, Saved)
    ensures DiskAt(budgets, log, k + 1).progress.value.failureSummary == ""
  {
    hide Exec, History, Inv, Next, SysAt, OpenRisk, NothingReady, SizeFirst, NoRiskTalk;
    var s := StateAt(budgets, log, k);
    var _ := StateAt(budgets, log, k + 1);
    HistorySummaryOk(budgets, log, k);
    BatchSaves(budgets, s, log[k]);
  }

  /** With an open risk, the evaluation after a batch presents either the size or that risk. */
  lemma ClockPresents(budgets: Budgets, s: Sys, elapsed: real)
    requires Inv(budgets, s) && s.place.Checking? && OpenRisk(s.disk)
    ensures ReadingClock(budgets, s, elapsed).Some?
    ensures var place := ReadingClock(budgets, s, elapsed).value.place;
            place.Raising? && (if SizeFirst(budgets, s.disk) then place.trigger.Size? else place.trigger == RiskOf(s.disk))
  {
    var a, p := s.disk.latest.value, s.disk.progress.value;
    PresentedInOrder(Measure(a, p, elapsed), ResolveBudget(a.storySize, a.highRisk, budgets).value, p.acked);
    hide EvaluateCheckpoints, Unacknowledged;
  }

  lemma SavedNext(budgets: Budgets, d0: Disk, s: Sys, e: Event)
    requires d0.latest.Some? && d0.progress.Some? && OpenRisk(d0)
    requires Inv(budgets, s) && Next(budgets, s, e).Some? && Same(d0, s) && s.place.Checking?
    ensures var s' := Next(budgets, s, e).value;
            if e.ClockRead? then
              && Same(d0, s') && s'.place.Raising?
              && (if SizeFirst(budgets, d0) then s'.place.trigger.Size? else s'.place.trigger == RiskOf(d0))
            else e.Called? && NoRiskTalk(s') && OpenRisk(s'.disk)
  {
    hide Triggers, WellPlanned, PlanFor, PlanStoreOk, CheckRisk, SizeFirst, LinearExtension, NextSubtask, AfterWork;
    if e.ClockRead? {
      ClockPresents(budgets, s, e.elapsed);
      assert SizeFirst(budgets, s.disk) == SizeFirst(budgets, d0) by {
        SameSize(budgets, s.disk, d0);
      }
    }
  }

  lemma SameSize(budgets: Budgets, d: Disk, d0: Disk)
    requires d0.latest.Some? && d0.progress.Some? && d.latest == d0.latest && d.progress == d0.progress
    ensures SizeFirst(budgets, d) == SizeFirst(budgets, d0)
  {
    hide ResolveBudget, CheckSize;
  }

  lemma SavedStep(budgets: Budgets, log: seq<Event>, k: nat)
    requires History(budgets, log) && OpensRisk(budgets, log, k) && k + 1 < |log|
    requires InPhase(budgets, log, k, k + 1, Saved)
    ensures SomePhase(budgets, log, k, k + 2)
  {
    hide Exec, History, Inv, Next, SysAt, OpenRisk, NoRiskTalk, SizeFirst, NothingReady, Same;
    AfterDiff(budgets, log, k);
    var s, s' := Happened(budgets, log, k + 1);
    var e := log[k + 1];
    SavedNext(budgets, DiskAt(budgets, log, k + 1), s, e);
    assert log[..k + 2][k + 1] == e;
    assert InPhase(budgets, log, k, k + 2, if e.ClockRead? then Asking else Unasked);
  }

  lemma AskingNext(budgets: Budgets, d0: Disk, s: Sys, e: Event)
    requires d0.latest.Some? && d0.progress.Some? && OpenRisk(d0)
    requires Inv(budgets, s) && Next(budgets, s, e).Some? && Same(d0, s) && s.place.Raising?
    requires s.place.trigger.Size? || s.place.trigger == RiskOf(d0)
    ensures var s' := Next(budgets, s, e).value;
            if e.Called? then NoRiskTalk(s') && OpenRisk(s'.disk)
            else
              && e == PointerSaved(Elicitation(s.place.trigger, Implementation, Pending))
              && (if s.place.trigger.Size? then NoRiskTalk(s') && OpenRisk(s'.disk) else AskedState(d0, s'))
  {
    hide Triggers, WellPlanned, PlanFor, PlanStoreOk, CheckRisk;
  }

  lemma AskingStep(budgets: Budgets, log: seq<Event>, k: nat)
    requires History(budgets, log) && OpensRisk(budgets, log, k) && k + 2 < |log|
    requires InPhase(budgets, log, k, k + 2, Asking)
    ensures SomePhase(budgets, log, k, k + 3)
  {
    hide Exec, History, Inv, Next, SysAt;
    var s := StateAt(budgets, log, k + 2);
    var s' := StateAt(budgets, log, k + 3);
    var e := log[k + 2];
    hide Next, Inv, Exec, OpenRisk, NoRiskTalk, Same, AskedState, SizeFirst, NothingReady;
    assert log[..k + 3][k + 2] == e;
    AskingNext(budgets, DiskAt(budgets, log, k + 1), s, e);
    if e.PointerSaved? && !SizeFirst(budgets, DiskAt(budgets, log, k + 1)) {
      assert InPhase(budgets, log, k, k + 3, Asked);
    } else {
      assert InPhase(budgets, log, k, k + 3, Unasked);
    }
  }

  lemma UnaskedStep(budgets: Budgets, log: seq<Event>, k: nat, j: nat)
    requires History(budgets, log) && OpensRisk(budgets, log, k) && k < j < |log| && !DiffSaved(budgets, log, j)
    requires InPhase(budgets, log, k, j, Unasked)
    ensures SomePhase(budgets, log, k, j + 1)
  {
    hide Exec, History, Inv, Next, SysAt;
    var s := StateAt(budgets, log, j);
    var s' := StateAt(budgets, log, j + 1);
    NoRiskTalkStays(budgets, s, log[j]);
    assert log[..j + 1][..j] == log[..j];
    hide SizeFirst, NoRiskTalk, OpenRisk;
    assert InPhase(budgets, log, k, j + 1, Unasked);
  }

  lemma AckSplits(log: seq<Event>, k: nat, j: nat)
    requires k + 2 < j < |log|
    ensures NoAcknowledgement(log, k, j + 1) <==> NoAcknowledgement(log, k, j) && !log[j].ProgressSaved?
  {
    hide Exec, History, Inv, Next, SysAt;
  }

  lemma AskedNext(budgets: Budgets, d0: Disk, s: Sys, e: Event)
    requires d0.latest.Some? && d0.progress.Some?
    requires Inv(budgets, s) && Next(budgets, s, e).Some? && !e.Moved? && AskedState(d0, s)
    ensures var s' := Next(budgets, s, e).value;
            if e.ProgressSaved? then !OpenRisk(s'.disk) else AskedState(d0, s') || LostState(d0, s')
  {
    hide Triggers, WellPlanned, PlanFor, PlanStoreOk;
  }

  lemma LostNext(budgets: Budgets, d0: Disk, s: Sys, e: Event)
    requires Inv(budgets, s) && Next(budgets, s, e).Some? && !e.Moved? && LostState(d0, s)
    requires NothingReady(d0) && d0.progress.value.failureSummary == ""
    ensures e.Called? && LostState(d0, Next(budgets, s, e).value)
  {
    hide Triggers, WellPlanned, PlanFor, PlanStoreOk, NextSubtask;
  }

  lemma AskedFacts(budgets: Budgets, log: seq<Event>, k: nat, j: nat)
    requires History(budgets, log) && OpensRisk(budgets, log, k) && k < j <= |log| && InPhase(budgets, log, k, j, Asked)
    ensures var d0 := DiskAt(budgets, log, k + 1);
            && d0.latest.Some? && d0.progress.Some? && j > k + 2 && AskedState(d0, SysAt(budgets, log, j))
            && !SizeFirst(budgets, d0) && RiskAskedAt(log, k, RiskOf(d0)) && NoAcknowledgement(log, k, j)
  {
    hide Exec, History, Inv, Next, SysAt, Same, SizeFirst, OpenRisk, RiskAskedAt, NoAcknowledgement, NoRiskTalk, NextSubtask;
  }

  lemma AfterAsked(budgets: Budgets, log: seq<Event>, k: nat, j: nat)
    requires History(budgets, log) && k + 2 < j <= |log|
    requires DiskAt(budgets, log, k + 1).latest.Some? && DiskAt(budgets, log, k + 1).progress.Some?
    requires var d0, s := DiskAt(budgets, log, k + 1), SysAt(budgets, log, j);
             && !SizeFirst(budgets, d0) && RiskAskedAt(log, k, RiskOf(d0))
             && if NoAcknowledgement(log, k, j) then AskedState(d0, s) || LostState(d0, s) else !OpenRisk(s.disk)
    ensures SomePhase(budgets, log, k, j)
  {
    hide Exec, History, Inv, Next, SysAt;
    var d0, s := DiskAt(budgets, log, k + 1), SysAt(budgets, log, j);
    hide Exec, Same, AskedState, LostState, SizeFirst, OpenRisk, RiskAskedAt, NoAcknowledgement, NoRiskTalk;
    var phase := if !NoAcknowledgement(log, k, j) then Acknowledged else if AskedState(d0, s) then Asked else Lost;
    assert InPhase(budgets, log, k, j, phase);
  }

  lemma AskedStep(budgets: Budgets, log: seq<Event>, k: nat, j: nat)
    requires History(budgets, log) && OpensRisk(budgets, log, k) && k < j < |log| && !log[j].Moved?
    requires InPhase(budgets, log, k, j, Asked)
    ensures SomePhase(budgets, log, k, j + 1)
  {
    hide Exec, History, Inv, Next, SysAt, InPhase, SomePhase, OpenRisk, AskedState, LostState, SizeFirst, NothingReady, NoAcknowledgement, RiskAskedAt;
    var s := StateAt(budgets, log, j);
    var _ := StateAt(budgets, log, j + 1);
    AskedFacts(budgets, log, k, j);
    AckSplits(log, k, j);
    AskedNext(budgets, DiskAt(budgets, log, k + 1), s, log[j]);
    AfterAsked(budgets, log, k, j + 1);
  }

  lemma LostStep(budgets: Budgets, log: seq<Event>, k: nat, j: nat)
    requires History(budgets, log) && OpensRisk(budgets, log, k) && k < j < |log| && !log[j].Moved?
    requires DiskAt(budgets, log, k + 1).progress.value.failureSummary == ""
    requires InPhase(budgets, log, k, j, Lost)
    ensures SomePhase(budgets, log, k, j + 1)
  {
    hide Exec, History, Inv, Next, SysAt;
    var s := StateAt(budgets, log, j);
    var s' := StateAt(budgets, log, j + 1);
    hide Next, Inv, Exec, OpenRisk, NoRiskTalk, Same, AskedState, LostState, SizeFirst, NothingReady;
    AckSplits(log, k, j);
    LostNext(budgets, DiskAt(budgets, log, k + 1), s, log[j]);
    assert InPhase(budgets, log, k, j + 1, Lost);
  }

  lemma AcknowledgedStep(budgets: Budgets, log: seq<Event>, k: nat, j: nat)
    requires History(budgets, log) && OpensRisk(budgets, log, k) && k < j < |log| && !DiffSaved(budgets, log, j)
    requires InPhase(budgets, log, k, j, Acknowledged)
    ensures SomePhase(budgets, log, k, j + 1)
  {
    hide Exec, History, Inv, Next, SysAt;
    var s := StateAt(budgets, log, j);
    var s' := StateAt(budgets, log, j + 1);
    AckSplits(log, k, j);
    RiskStaysClosed(budgets, s, log[j]);
    hide SizeFirst, OpenRisk, RiskAskedAt;
    assert InPhase(budgets, log, k, j + 1, Acknowledged);
  }

  lemma {:induction false} AlwaysSomePhase(budgets: Budgets, log: seq<Event>, k: nat, j: nat)
    requires History(budgets, log) && OpensRisk(budgets, log, k) && k < j <= |log|
    requires NoDiffSaved(budgets, log, k + 1, j) && NoMove(log, k + 1, j)
    ensures SomePhase(budgets, log, k, j)
    decreases j
  {
    hide Exec, History, Inv, Next, SysAt, InPhase, OpenRisk, NothingReady, SavesDiff;
    AfterDiff(budgets, log, k);
    BatchSavedFacts(budgets, log, k);
    if j > k + 1 {
      AlwaysSomePhase(budgets, log, k, j - 1);
      var phase :| InPhase(budgets, log, k, j - 1, phase);
      OnePhaseStep(budgets, log, k, j - 1, phase);
    }
  }

  lemma OnePhaseStep(budgets: Budgets, log: seq<Event>, k: nat, j: nat, phase: Phase)
    requires History(budgets, log) && OpensRisk(budgets, log, k) && k < j < |log|
    requires !DiffSaved(budgets, log, j) && !log[j].Moved?
    requires DiskAt(budgets, log, k + 1).progress.value.failureSummary == ""
    requires InPhase(budgets, log, k, j, phase)
    ensures SomePhase(budgets, log, k, j + 1)
  {
    hide Exec, History, Inv, Next, SysAt;
    match phase
    case Saved => SavedStep(budgets, log, k);
    case Asking => AskingStep(budgets, log, k);
    case Unasked => UnaskedStep(budgets, log, k, j);
    case Asked => AskedStep(budgets, log, k, j);
    case Lost => LostStep(budgets, log, k, j);
    case Acknowledged => AcknowledgedStep(budgets, log, k, j);
  }

  // ---- The exact condition ----------------------------------------------------------------

  /** The first move at or after a position. */
  function NextMove(log: seq<Event>, from: nat): (m: nat)
    requires from <= |log|
    ensures from <= m <= |log| && NoMove(log, from, m) && (m < |log| ==> log[m].Moved?)
    decreases |log| - from
  {
    if from == |log| || log[from].Moved? then from else NextMove(log, from + 1)
  }

  /** The four ways past the question, for the diff saved at k and the move that follows it. */
  predicate Escapes(budgets: Budgets, log: seq<Event>, k: nat, move: nat)
    requires History(budgets, log) && k < |log|
    requires DiskAt(budgets, log, k + 1).latest.Some? && DiskAt(budgets, log, k + 1).progress.Some?
  {
    || FixUpSaved(budgets, log, k)
    || SizeFirst(budgets, DiskAt(budgets, log, k + 1))
    || DiedBeforeAsking(log, k)
    || NoAcknowledgement(log, k, move)
  }

  lemma MoveIsQuiet(budgets: Budgets, log: seq<Event>, m: nat)
    requires History(budgets, log) && m < |log| && log[m] == Moved(Implementation, Verification)
    ensures NoRiskTalk(SysAt(budgets, log, m + 1))
    ensures OpenRisk(DiskAt(budgets, log, m + 1)) <==> OpenRisk(DiskAt(budgets, log, m))
    ensures NothingReady(DiskAt(budgets, log, m))
    ensures !DiffSaved(budgets, log, m)
  {
    hide Exec, History, WellPlanned, LinearExtension, Triggers, PlanFor, PlanStoreOk;
    var s := StateAt(budgets, log, m);
    var _ := StateAt(budgets, log, m + 1);
  }

  lemma PhaseAtMove(budgets: Budgets, log: seq<Event>, k: nat, m: nat, phase: Phase)
    requires History(budgets, log) && OpensRisk(budgets, log, k) && k < m < |log|
    requires log[m] == Moved(Implementation, Verification) && InPhase(budgets, log, k, m, phase)
    ensures OpenRisk(DiskAt(budgets, log, m)) <==> Escapes(budgets, log, k, m)
  {
    hide Exec, History, Inv, WellPlanned, LinearExtension, Triggers, PlanFor, PlanStoreOk, SizeFirst;
    var s := StateAt(budgets, log, m);
    assert phase.Unasked? || phase.Lost? || phase.Acknowledged?;
  }

  /** After a batch, at the first move: the risk it opened is still open exactly if it escaped the question. */
  lemma BatchRiskAtMove(budgets: Budgets, log: seq<Event>, k: nat, m: nat)
    requires History(budgets, log) && OpensRisk(budgets, log, k) && k < m < |log|
    requires NoDiffSaved(budgets, log, k + 1, m) && NoMove(log, k + 1, m) && log[m] == Moved(Implementation, Verification)
    ensures OpenRisk(DiskAt(budgets, log, m)) <==> Escapes(budgets, log, k, m)
  {
    hide Exec, History, Inv, Next, SysAt;
    AlwaysSomePhase(budgets, log, k, m);
    var phase :| InPhase(budgets, log, k, m, phase);
    PhaseAtMove(budgets, log, k, m, phase);
  }

  /** The first move after a diff, of a run that later moves to verification, is to verification itself. */
  lemma FirstMoveVerifies(budgets: Budgets, log: seq<Event>, k: nat, i: nat)
    requires History(budgets, log) && k < i < |log| && DiffSaved(budgets, log, k)
    requires log[i] == Moved(Implementation, Verification)
    ensures var m := NextMove(log, k + 1); m <= i && log[m] == Moved(Implementation, Verification)
  {
    hide Exec, History, Inv, Next, SysAt, DiskAt, DiffSaved;
    var m := NextMove(log, k + 1);
    assert m <= i;
    StageStays(budgets, log, k, m);
    MoveFromImplementation(budgets, log, m);
    MoveFromImplementation(budgets, log, i);
    if log[m].next.Abandoned? {
      SettledForever(budgets, log, m + 1, i);
    }
  }

  lemma MoveFromImplementation(budgets: Budgets, log: seq<Event>, m: nat)
    requires History(budgets, log) && m < |log| && log[m].Moved?
    ensures log[m].from == DiskAt(budgets, log, m).run.stage
    ensures DiskAt(budgets, log, m + 1).run.stage == log[m].next
    ensures log[m].from.Implementation? ==> log[m].next.Verification? || log[m].next.Abandoned?
  {
    hide Exec, History, Inv, Next, SysAt;
    EveryMoveIsLegal(budgets, log, m);
    hide History, DiskAt;
  }

  lemma {:induction false} StageStays(budgets: Budgets, log: seq<Event>, k: nat, m: nat)
    requires History(budgets, log) && k < m <= |log| && DiffSaved(budgets, log, k) && NoMove(log, k + 1, m)
    ensures DiskAt(budgets, log, m).run.stage.Implementation?
    decreases m
  {
    hide Exec, History, Inv, Next, SysAt, SavesDiff;
    var s, s' := ShapeAt(budgets, log, m - 1);
    if m > k + 1 {
      StageStays(budgets, log, k, m - 1);
      assert !log[m - 1].Moved?;
    } else {
      var t := StateAt(budgets, log, k);
      SavesAtImplementation(budgets, t, log[k]);
    }
  }

  lemma SavesAtImplementation(budgets: Budgets, s: Sys, e: Event)
    requires Inv(budgets, s) && SavesDiff(s, e)
    ensures s.disk.run.stage.Implementation? && !e.Moved?
  {
  }

  /** No diff, no risk. */
  lemma NoDiffNoRisk(budgets: Budgets, log: seq<Event>, i: nat)
    requires History(budgets, log) && i <= |log| && NoDiffSaved(budgets, log, 0, i)
    ensures !OpenRisk(DiskAt(budgets, log, i))
  {
    assert log[..0] == [];
    ClosedOverStretch(budgets, log, 0, i);
  }

  lemma AfterDiff(budgets: Budgets, log: seq<Event>, k: nat)
    requires History(budgets, log) && DiffSaved(budgets, log, k)
    ensures DiskAt(budgets, log, k + 1).latest.Some? && DiskAt(budgets, log, k + 1).progress.Some?
    ensures FixUpSaved(budgets, log, k) ==> NoRiskTalk(SysAt(budgets, log, k + 1))
  {
    hide Exec, History;
    var s := StateAt(budgets, log, k);
    var _ := StateAt(budgets, log, k + 1);
    hide AfterWork, WellPlanned;
  }

  /**
   * A run moves to verification with a risk nobody answered for exactly if the last diff before it
   * left one open and that escaped the question: the diff was a fix-up's; or the size question went
   * first; or the process died before a question was on disk; or no acknowledgement was ever saved.
   */
  lemma OpenRiskAtVerificationIff(budgets: Budgets, log: seq<Event>, k: nat, i: nat)
    requires History(budgets, log) && k < i < |log| && log[i] == Moved(Implementation, Verification)
    requires DiffSaved(budgets, log, k) && NoDiffSaved(budgets, log, k + 1, i)
    ensures DiskAt(budgets, log, k + 1).latest.Some? && DiskAt(budgets, log, k + 1).progress.Some?
    ensures OpenRisk(DiskAt(budgets, log, i)) <==>
            OpenRisk(DiskAt(budgets, log, k + 1)) && Escapes(budgets, log, k, NextMove(log, k + 1))
  {
    hide Exec, History, Inv, Next, SysAt, OpenRisk, Escapes, NextMove, DiskAt, NoRiskTalk, NothingReady;
    AfterDiff(budgets, log, k);
    if !OpenRisk(DiskAt(budgets, log, k + 1)) {
      ClosedOverStretch(budgets, log, k + 1, i);
    } else if FixUpSaved(budgets, log, k) {
      OpenOverStretch(budgets, log, k + 1, i);
      FixUpEscapes(budgets, log, k, NextMove(log, k + 1));
    } else {
      FirstMoveVerifies(budgets, log, k, i);
      var m := NextMove(log, k + 1);
      MoveIsQuiet(budgets, log, i);
      ReadyOverStretch(budgets, log, k + 1, i);
      BatchRiskAtMove(budgets, log, k, m);
      RestOfTheWay(budgets, log, m, i);
    }
  }

  lemma FixUpEscapes(budgets: Budgets, log: seq<Event>, k: nat, m: nat)
    requires History(budgets, log) && FixUpSaved(budgets, log, k)
    requires DiskAt(budgets, log, k + 1).latest.Some? && DiskAt(budgets, log, k + 1).progress.Some?
    ensures Escapes(budgets, log, k, m)
  {
    hide Exec, History, Inv, Next, SysAt;
  }

  /** From one move to verification to another, with no diff in between, nothing about risk changes. */
  lemma RestOfTheWay(budgets: Budgets, log: seq<Event>, m: nat, i: nat)
    requires History(budgets, log) && m <= i < |log| && log[m] == Moved(Implementation, Verification)
    requires NoDiffSaved(budgets, log, m, i)
    ensures OpenRisk(DiskAt(budgets, log, i)) <==> OpenRisk(DiskAt(budgets, log, m))
  {
    hide Exec, History, Inv, Next, SysAt;
    if m < i {
      MoveIsQuiet(budgets, log, m);
      if OpenRisk(DiskAt(budgets, log, m)) {
        OpenOverStretch(budgets, log, m + 1, i);
      } else {
        ClosedOverStretch(budgets, log, m + 1, i);
      }
    }
  }

  // ---- Fix-ups ------------------------------------------------------------------------------

  /** After a fix-up's diff, and until the next move, no checkpoint is evaluated and nothing is asked or saved. */
  lemma FixUpsAreNotChecked(budgets: Budgets, log: seq<Event>, k: nat, j: nat)
    requires History(budgets, log) && FixUpSaved(budgets, log, k) && k < j < |log| && NoMove(log, k + 1, j)
    ensures log[j].Called? || log[j] == Moved(Implementation, Verification)
  {
    hide Exec, History, Inv;
    BetweenFixUpAndMove(budgets, log, k, j);
    var s := StateAt(budgets, log, j);
    hide WellPlanned, LinearExtension, Triggers, PlanFor, PlanStoreOk;
  }

  predicate AfterFixUp(s: Sys) {
    && !PendingCheckpoint(s.disk) && NothingReady(s.disk) && s.disk.run.stage.Implementation?
    && s.disk.progress.value.failureSummary == ""
    && (s.place.Driving? || s.place.Refused? || s.place == Entering(Verification))
  }

  lemma {:induction false} BetweenFixUpAndMove(budgets: Budgets, log: seq<Event>, k: nat, j: nat)
    requires History(budgets, log) && FixUpSaved(budgets, log, k) && k < j <= |log| && NoMove(log, k + 1, j)
    ensures AfterFixUp(SysAt(budgets, log, j))
    decreases j
  {
    hide Exec, History, Inv, Next, SysAt, AfterFixUp;
    var s := StateAt(budgets, log, j - 1);
    var s' := StateAt(budgets, log, j);
    if j > k + 1 {
      BetweenFixUpAndMove(budgets, log, k, j - 1);
      assert !log[j - 1].Moved?;
      AfterFixUpStep(budgets, s, log[j - 1]);
    } else {
      FixUpSaves(budgets, s, log[k]);
    }
  }

  lemma AfterFixUpStep(budgets: Budgets, s: Sys, e: Event)
    requires Inv(budgets, s) && Next(budgets, s, e).Some? && AfterFixUp(s) && !e.Moved?
    ensures e.Called? && AfterFixUp(Next(budgets, s, e).value)
  {
    hide WellPlanned, LinearExtension, Triggers, PlanFor, PlanStoreOk, NextSubtask, AfterWork;
  }

  lemma FixUpSaves(budgets: Budgets, s: Sys, e: Event)
    requires Inv(budgets, s) && Next(budgets, s, e).Some? && SavesDiff(s, e) && s.place.work.FixUp?
    ensures AfterFixUp(Next(budgets, s, e).value)
  {
    hide WellPlanned, LinearExtension, Triggers, PlanFor, PlanStoreOk, NextSubtask, Absorbed, Entry, Planning, ReadingClock;
    SummaryAfterWork(s.disk.progress.value, s.place.work, s.place.diffs);
    hide WellPlanned, LinearExtension, Triggers, PlanFor, PlanStoreOk, NextSubtask, AfterWork;
  }
}
