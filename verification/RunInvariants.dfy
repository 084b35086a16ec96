/** What holds after every history of a run, crashes included. */
module RunInvariants {
  import opened Common
  import opened Stages
  import opened Checkpoints
  import opened Plans
  import opened Scheduling
  import opened RunMachine

  // ---- The plan store ----------------------------------------------------

  /**
   * Versions 1..k are stored and k is the latest; a crash between the two files of a save can
   * leave version k+1 behind, and no other version exists.
   */
  predicate PlanStoreOk(budgets: Budgets, d: Disk) {
    var k := LatestVersion(d);
    && (d.latest.Some? ==> k >= 1 && k in d.versions && d.versions[k] == d.latest.value)
    && (forall n: nat | n in d.versions :: 1 <= n <= k + 1)
    && (forall n | 1 <= n <= k :: n in d.versions)
    && (forall n: nat | n in d.versions :: d.versions[n].planVersion == n && WellPlanned(budgets, d.versions[n]))
  }

  /** a may become version k+1: a new plan before approval, or the same graph with scope for the whole diff. */
  predicate NextArtifact(budgets: Budgets, d: Disk, a: PlanArtifact) {
    && a.planVersion == LatestVersion(d) + 1
    && WellPlanned(budgets, a)
    && (d.run.stage.PlanAuthoring? || (Working(d.run.stage) && !PendingCheckpoint(d) && Extends(d, a)))
  }

  predicate Extends(d: Disk, a: PlanArtifact) {
    && d.latest.Some? && d.progress.Some?
    && a.tasks == d.latest.value.tasks
    && d.latest.value.inScope + d.progress.value.files <= a.inScope
    && a.storySize == d.latest.value.storySize && a.highRisk == d.latest.value.highRisk
  }

  // ---- Triggers ----------------------------------------------------------

  /** A trigger worth asking about: not answered yet, and, if it is a risk, about the current diff. */
  predicate Askable(d: Disk, t: Trigger) {
    && d.progress.Some? && d.latest.Some?
    && t !in d.progress.value.acked
    && (t.Risk? ==> t.outOfScope == d.progress.value.files - d.latest.value.inScope)
  }

  lemma TriggersAreAskable(budgets: Budgets, d: Disk, elapsed: real)
    requires d.progress.Some? && d.latest.Some?
    ensures forall t :: t in Triggers(budgets, d.latest.value, d.progress.value, elapsed) ==> Askable(d, t)
  {
  }

  predicate NothingReady(d: Disk) {
    && d.latest.Some? && d.progress.Some?
    && NextSubtask(d.latest.value.tasks, d.progress.value.completed).None?
  }

  // ---- The invariant -----------------------------------------------------

  predicate DiskOk(budgets: Budgets, d: Disk) {
    var stage := d.run.stage;
    && PlanStoreOk(budgets, d)
    && (d.progress.Some? ==> d.latest.Some?)
    && (BeforeApproval(stage) ==> d.progress.None?)
    && (stage.PlanApprovalGate? || Working(stage) || stage.ChangeReviewGate? || Shipping(stage) ==> d.latest.Some?)
    && (stage.Verification? || stage.ChangeReviewGate? || Shipping(stage) ==> d.progress.Some?)
    && (stage.Verification? || stage.ChangeReviewGate? ==> NothingReady(d))
    && (stage.ChangeReviewGate? ==> d.progress.value.failureSummary == "")
    && (PendingCheckpoint(d) ==>
         Working(stage) && d.run.pointer.value.stage == stage && Askable(d, d.run.pointer.value.trigger))
  }

  ghost predicate CompletedOk(d: Disk) {
    d.progress.Some? && d.latest.Some? ==> LinearExtension(d.latest.value.tasks, d.progress.value.completed)
  }

  predicate PlaceOk(budgets: Budgets, d: Disk, place: Place) {
    var stage := d.run.stage;
    match place
    case Driving => true
    case Refused => true
    case Entering(next) =>
      && !PendingCheckpoint(d)
      && LegalTransition(stage, next)
      && (match next
          case PlanApprovalGate => d.latest.Some?
          case Implementation => true
          case Verification => NothingReady(d)
          case ChangeReviewGate => stage.Verification? && d.progress.Some? && d.progress.value.failureSummary == ""
          case Packaging => stage.ChangeReviewGate?
          case Retrospective => stage.Packaging?
          case Abandoned => stage.PlanApprovalGate? || stage.ChangeReviewGate?
          case _ => false)
    case StartingProgress => stage.Implementation? && d.progress.None? && !PendingCheckpoint(d)
    case RePlanAsked => stage.PlanApprovalGate?
    case RePlanning => stage.PlanAuthoring?
    case HasArtifact(a) => NextArtifact(budgets, d, a)
    case HalfSaved(a) => NextArtifact(budgets, d, a) && a.planVersion in d.versions && d.versions[a.planVersion] == a
    case Implemented(work, diffs) =>
      && stage.Implementation? && !PendingCheckpoint(d) && d.latest.Some? && d.progress.Some?
      && Due(d.latest.value, d.progress.value) == Some(work) && WellShaped(work, diffs)
    case Checking => stage.Implementation? && !PendingCheckpoint(d) && d.progress.Some?
    case Verified(_) => stage.Verification? && !PendingCheckpoint(d)
    case CountingFailure => Working(stage) && !PendingCheckpoint(d) && d.progress.Some?
    case Raising(t) => Working(stage) && !PendingCheckpoint(d) && Askable(d, t)
    case Answering(_, q) => d.run.pointer == Some(q) && q.status.Pending?
    case Answered(_, q) => Working(stage) && !PendingCheckpoint(d) && Askable(d, q.trigger)
  }

  ghost predicate Inv(budgets: Budgets, s: Sys) {
    && DiskOk(budgets, s.disk)
    && CompletedOk(s.disk)
    && PlaceOk(budgets, s.disk, s.place)
  }

  // ---- Preservation, one kind of event at a time --------------------------

  lemma CalledKeepsInv(budgets: Budgets, s: Sys, call: Call)
    requires Inv(budgets, s)
    ensures Inv(budgets, Next(budgets, s, Called(call)).value)
  {
    hide WellPlanned, LinearExtension, Triggers, PlanFor, Exec;
  }

  /** The plan store does not depend on the rest of the disk. */
  lemma PlanStoreSame(budgets: Budgets, d: Disk, d': Disk)
    requires d.latest == d'.latest && d.versions == d'.versions
    ensures PlanStoreOk(budgets, d) == PlanStoreOk(budgets, d')
  {
    hide WellPlanned;
  }

  lemma MovedKeepsInv(budgets: Budgets, s: Sys, from: Stage, next: Stage)
    requires Inv(budgets, s) && Moving(s, from, next).Some?
    ensures Inv(budgets, Moving(s, from, next).value)
    ensures LegalTransition(from, next)
  {
    hide WellPlanned, LinearExtension, Triggers, PlanFor, Exec, NextSubtask, AfterWork, Next, PlanStoreOk;
    PlanStoreSame(budgets, s.disk, Moving(s, from, next).value.disk);
  }

  lemma PointerKeepsInv(budgets: Budgets, s: Sys, e: Elicitation)
    requires Inv(budgets, s) && SavingPointer(s, e).Some?
    ensures Inv(budgets, SavingPointer(s, e).value)
  {
    hide WellPlanned, LinearExtension, Triggers, PlanFor, Exec;
  }

  lemma AttemptKeepsInv(budgets: Budgets, s: Sys)
    requires Inv(budgets, s) && AppendingAttempt(s).Some?
    ensures Inv(budgets, AppendingAttempt(s).value)
  {
    hide WellPlanned, LinearExtension, Triggers, PlanFor, Exec;
  }

  lemma PlanningKeepsInv(budgets: Budgets, s: Sys, out: PlanOutput)
    requires Inv(budgets, s) && Planning(budgets, s, out).Some?
    ensures Inv(budgets, Planning(budgets, s, out).value)
  {
    PlanForIsWellPlanned(budgets, LatestVersion(s.disk) + 1, out);
    forall a | PlanFor(budgets, LatestVersion(s.disk) + 1, out) == Success(a)
      ensures WellPlanned(budgets, a)
    {
    }
  }

  lemma VersionKeepsInv(budgets: Budgets, s: Sys, a: PlanArtifact)
    requires Inv(budgets, s) && SavingVersion(s, a).Some?
    ensures Inv(budgets, SavingVersion(s, a).value)
  {
  }

  lemma LatestKeepsInv(budgets: Budgets, s: Sys, a: PlanArtifact)
    requires Inv(budgets, s) && SavingLatest(s, a).Some?
    ensures Inv(budgets, SavingLatest(s, a).value)
  {
  }

  lemma WorkKeepsInv(budgets: Budgets, s: Sys, work: Work, diffs: Diffs)
    requires Inv(budgets, s) && Implementing(s, work, diffs).Some?
    ensures Inv(budgets, Implementing(s, work, diffs).value)
  {
    hide WellPlanned, LinearExtension, Triggers, PlanFor, Exec;
  }

  lemma VerifyKeepsInv(budgets: Budgets, s: Sys, result: VerificationResult)
    requires Inv(budgets, s) && Verifying(s, result).Some?
    ensures Inv(budgets, Verifying(s, result).value)
  {
    hide WellPlanned, LinearExtension, Triggers, PlanFor, Exec;
  }

  lemma PackagedKeepsInv(budgets: Budgets, s: Sys, ok: bool)
    requires Inv(budgets, s) && RunningPackaging(s, ok).Some?
    ensures Inv(budgets, RunningPackaging(s, ok).value)
  {
    hide WellPlanned, LinearExtension, Triggers, PlanFor, Exec;
  }

  /** Absorbing n diffs completes exactly the first n subtasks of the batch. */
  lemma {:induction false} AbsorbedCompletes(p: RunProgress, batch: seq<PlannedTask>, diffs: seq<DiffOutput>, n: nat)
    requires n <= |batch| && n <= |diffs|
    ensures var q := Absorbed(p, batch, diffs, n);
            && q.completed == p.completed + IdsOf(batch[..n])
            && p.files <= q.files
            && q == p.(completed := q.completed, files := q.files, lines := q.lines)
  {
    if n > 0 {
      AbsorbedCompletes(p, batch, diffs, n - 1);
      assert IdsOf(batch[..n]) == IdsOf(batch[..n - 1]) + [batch[n - 1].taskId];
    }
  }

  /** A subtask completed by a batch was ready in it. */
  lemma WorkKeepsOrder(a: PlanArtifact, p: RunProgress, work: Work, diffs: Diffs)
    requires LinearExtension(a.tasks, p.completed) && Due(a, p) == Some(work)
    ensures LinearExtension(a.tasks, AfterWork(p, work, diffs).completed)
    ensures p.completed <= AfterWork(p, work, diffs).completed
    ensures p.acked == AfterWork(p, work, diffs).acked
  {
    if work.Batch? && diffs.Some? {
      var n := Min(|work.tasks|, |diffs.value|);
      AbsorbedCompletes(p, work.tasks, diffs.value, n);
      var first := NextSubtask(a.tasks, p.completed).value;
      BatchAdvances(a.tasks, p.completed, first, n);
      forall t | t in work.tasks[..n]
        ensures t in work.tasks
      {
      }
      CompletingKeepsOrder(a.tasks, p.completed, work.tasks[..n]);
    }
  }

  lemma WorkSavedKeepsInv(budgets: Budgets, s: Sys, p: RunProgress)
    requires Inv(budgets, s) && SavingProgress(s, p).Some? && s.place.Implemented?
    ensures Inv(budgets, SavingProgress(s, p).value)
  {
    WorkKeepsOrder(s.disk.latest.value, s.disk.progress.value, s.place.work, s.place.diffs);
    hide LinearExtension, WellPlanned, Absorbed;
  }

  lemma AnswerSavedKeepsInv(budgets: Budgets, s: Sys, p: RunProgress)
    requires Inv(budgets, s) && SavingProgress(s, p).Some? && s.place.Answered?
    ensures Inv(budgets, SavingProgress(s, p).value)
  {
    hide LinearExtension, AfterWork, AfterVerify, Governed, ResolveBudget;
  }

  lemma ProgressKeepsInv(budgets: Budgets, s: Sys, p: RunProgress)
    requires Inv(budgets, s) && SavingProgress(s, p).Some?
    ensures Inv(budgets, SavingProgress(s, p).value)
  {
    match s.place
    case Implemented(_, _) => WorkSavedKeepsInv(budgets, s, p);
    case Answered(_, _) => AnswerSavedKeepsInv(budgets, s, p);
    case _ => hide WellPlanned, AfterWork, AfterAnswer;
  }

  lemma ClockKeepsInv(budgets: Budgets, s: Sys, elapsed: real)
    requires Inv(budgets, s) && ReadingClock(budgets, s, elapsed).Some?
    ensures Inv(budgets, ReadingClock(budgets, s, elapsed).value)
  {
    TriggersAreAskable(budgets, s.disk, elapsed);
  }

  lemma StepKeepsInv(budgets: Budgets, s: Sys, e: Event)
    requires Inv(budgets, s) && Next(budgets, s, e).Some?
    ensures Inv(budgets, Next(budgets, s, e).value)
  {
    match e
    case Called(call) => CalledKeepsInv(budgets, s, call);
    case Moved(from, next) => MovedKeepsInv(budgets, s, from, next);
    case PointerSaved(pointer) => PointerKeepsInv(budgets, s, pointer);
    case AttemptAppended => AttemptKeepsInv(budgets, s);
    case PlanReturned(out) => PlanningKeepsInv(budgets, s, out);
    case PlanVersionSaved(a) => VersionKeepsInv(budgets, s, a);
    case PlanLatestSaved(a) => LatestKeepsInv(budgets, s, a);
    case Implement(work, diffs) => WorkKeepsInv(budgets, s, work, diffs);
    case Verify(result) => VerifyKeepsInv(budgets, s, result);
    case Packaged(ok) => PackagedKeepsInv(budgets, s, ok);
    case ProgressSaved(p) => ProgressKeepsInv(budgets, s, p);
    case ClockRead(elapsed) => ClockKeepsInv(budgets, s, elapsed);
  }

  lemma {:induction false} HistoryKeepsInv(budgets: Budgets, log: seq<Event>)
    requires History(budgets, log)
    ensures Inv(budgets, Exec(budgets, log).value)
  {
    if log != [] {
      HistoryKeepsInv(budgets, log[..|log| - 1]);
      StepKeepsInv(budgets, Exec(budgets, log[..|log| - 1]).value, log[|log| - 1]);
    }
  }
}
