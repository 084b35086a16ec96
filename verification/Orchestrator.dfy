/**
 * The orchestrator: the drive loop and the calls a human makes, over the three durable stores.
 * Every durable write and every call outside may be the last thing the process does: it then
 * returns Failure(Crashed), and Valid() still holds of what is on disk.
 */
module Orchestration {
  import opened Common
  import opened Stages
  import opened Checkpoints
  import opened Plans
  import opened Scheduling
  import opened RunClock
  import opened RunMachine
  import opened RunInvariants
  import opened RunTheorems
  import RunRecord
  import opened Stores

  datatype Fault =
    | Crashed
    | CallbackRaised
    | BackendRaised
    | VerifierRaised
    | PlanRejected(reason: PlanError)
    | WrongStage
    | NothingPending
    | UnknownDecision

  /** The process died, something outside raised, or a plan was refused: never the state machine itself. */
  predicate Outside(f: Fault) {
    f.Crashed? || f.CallbackRaised? || f.BackendRaised? || f.VerifierRaised? || f.PlanRejected?
  }

  datatype Pause = NotPaused | AtGate | AtCheckpoint(question: Elicitation)

  datatype RunStatus = RunStatus(stage: Stage, version: nat, pause: Pause)

  datatype StepOutcome = Paused | Continue | GoVerify

  datatype VerifyOutcome = Passed | Retry | Stuck'

  /** What a returned status says about the disk, for every stage a call can stop at. */
  predicate StatusOf(d: Disk, st: RunStatus) {
    && st.stage == d.run.stage && st.version == d.run.version
    && (match st.pause
        case NotPaused => Terminal(st.stage) && !PendingCheckpoint(d)
        case AtGate => (st.stage.PlanApprovalGate? || st.stage.ChangeReviewGate?) && !PendingCheckpoint(d)
        case AtCheckpoint(q) => Working(st.stage) && PendingCheckpoint(d) && d.run.pointer.value == q)
  }

  // ---- Why one drive call ends -----------------------------------------------

  function Phase(s: Stage): nat {
    match s
    case Intake => 6
    case Research => 5
    case PlanAuthoring => 4
    case PlanApprovalGate => 3
    case Implementation => 2
    case Verification => 2
    case ChangeReviewGate => 2
    case Packaging => 1
    case _ => 0
  }

  function M0(d: Disk): nat {
    if PendingCheckpoint(d) then 0 else 1
  }

  function M1(d: Disk): nat {
    Phase(d.run.stage)
  }

  /** What one drive call still has before it must stop: subtasks, quiet readings of the clock, failures. */
  datatype Left = Left(work: nat, readings: nat, failures: nat)

  ghost function LeftOf(budgets: Budgets, tick: Positive, now: real, latest: Option<PlanArtifact>,
                        progress: Option<RunProgress>): Left {
    if latest.None? then Left(0, 0, 0)
    else
      var a := latest.value;
      var p := progress.UnwrapOr(FreshProgress(0, now));
      Left(Undone(a.tasks, p.completed), ReadsLeft(budgets, tick, now, a, p), FailuresLeft(p.failures, p.acked))
  }

  ghost function ReadsLeft(budgets: Budgets, tick: Positive, now: real, a: PlanArtifact, p: RunProgress): nat {
    match ResolveBudget(a.storySize, a.highRisk, budgets)
    case Failure(_) => 0
    case Success(budget) => Reads(QuietUntil(budget, p.acked), now - p.startedAt, tick)
  }

  function M4(d: Disk): nat {
    if d.run.stage.Implementation? then 1 else 0
  }

  /** An implementation step that neither pauses nor asks for verification used something up. */
  predicate UsedUp(was: Left, now: Left) {
    || now.work < was.work
    || (now.work == was.work && now.readings < was.readings)
    || (now.work == was.work && now.readings == was.readings && now.failures < was.failures)
  }

  /** What the code relies on when it reads the stores. */
  predicate Readable(budgets: Budgets, d: Disk) {
    && (d.latest.Some? ==> ResolveBudget(d.latest.value.storySize, d.latest.value.highRisk, budgets).Success?)
    && (Working(d.run.stage) ==> d.latest.Some?)
    && (d.run.stage.Verification? ==> d.progress.Some?)
    && (d.progress.Some? ==> d.latest.Some?)
    && (PendingCheckpoint(d) ==> Working(d.run.stage) && d.progress.Some?)
  }

  /** The outcome of counting a failure: ask about it, or go on with one failure fewer left. */
  lemma FailureOutcome(budgets: Budgets, tick: Positive, before: real, now: real, a: PlanArtifact, p: RunProgress, q: RunProgress,
                       elapsed: real)
    requires ResolveBudget(a.storySize, a.highRisk, budgets).Success? && now >= before + tick
    requires q.failures == p.failures + 1 && q.acked == p.acked && q.completed == p.completed && q.startedAt == p.startedAt
    ensures FirstStuck(Triggers(budgets, a, q, elapsed)).None? ==>
              UsedUp(LeftOf(budgets, tick, before, Some(a), Some(p)), LeftOf(budgets, tick, now, Some(a), Some(q)))
  {
    var budget := ResolveBudget(a.storySize, a.highRisk, budgets).value;
    StuckPresented(RunMachine.Measure(a, q, elapsed), budget, q.acked);
    ReadsFall(QuietUntil(budget, p.acked), before - p.startedAt, now - p.startedAt, tick);
  }

  lemma FewerLeft(budgets: Budgets, tick: Positive, before: real, now: real, a: PlanArtifact, p: RunProgress, q: RunProgress)
    requires Undone(a.tasks, q.completed) < Undone(a.tasks, p.completed)
    ensures UsedUp(LeftOf(budgets, tick, before, Some(a), Some(p)), LeftOf(budgets, tick, now, Some(a), Some(q)))
  {
    hide ReadsLeft, Undone, FailuresLeft;
  }

  /** A quiet reading leaves fewer of them. */
  lemma FewerReadings(budgets: Budgets, tick: Positive, before: real, now: real, a: PlanArtifact, p: RunProgress, q: RunProgress)
    requires ResolveBudget(a.storySize, a.highRisk, budgets).Success? && now >= before + tick
    requires q == p.(failures := 0) && NothingToAsk(budgets, a, q, now - q.startedAt)
    ensures UsedUp(LeftOf(budgets, tick, before, Some(a), Some(p)), LeftOf(budgets, tick, now, Some(a), Some(q)))
  {
    hide Undone;
    var budget := ResolveBudget(a.storySize, a.highRisk, budgets).value;
    LateReadingsAsk(budgets, a, q, now - q.startedAt, budget);
    ReadsFall(QuietUntil(budget, p.acked), before - p.startedAt, now - p.startedAt, tick);
    hide ResolveBudget, NothingToAsk, QuietUntil, Undone, FailuresLeft;
  }

  /** A batch that came back with a diff leaves fewer subtasks to do; one that came back empty, fewer quiet readings. */
  lemma BatchOutcome(budgets: Budgets, tick: Positive, before: real, now: real, a: PlanArtifact, p: RunProgress,
                     first: PlannedTask, diffs: seq<DiffOutput>)
    requires ResolveBudget(a.storySize, a.highRisk, budgets).Success? && now >= before + tick
    requires NextSubtask(a.tasks, p.completed) == Some(first)
    ensures var q := AfterWork(p, Batch(ReadySubtaskBatch(a.tasks, p.completed, first)), Some(diffs));
            && (diffs != [] || NothingToAsk(budgets, a, q, now - q.startedAt) ==>
                 UsedUp(LeftOf(budgets, tick, before, Some(a), Some(p)), LeftOf(budgets, tick, now, Some(a), Some(q))))
            && (diffs == [] ==> NextSubtask(a.tasks, q.completed) == Some(first))
  {
    hide ResolveBudget, NothingToAsk, LeftOf, UsedUp, NextSubtask, ReadySubtaskBatch, Undone, AfterWork;
    var q := AfterWork(p, Batch(ReadySubtaskBatch(a.tasks, p.completed, first)), Some(diffs));
    WorkCompletes(a, p, first, diffs);
    if diffs == [] {
      if NothingToAsk(budgets, a, q, now - q.startedAt) {
        FewerReadings(budgets, tick, before, now, a, p, q);
      }
    } else {
      FewerLeft(budgets, tick, before, now, a, p, q);
    }
  }

  lemma WorkCompletes(a: PlanArtifact, p: RunProgress, first: PlannedTask, diffs: seq<DiffOutput>)
    requires NextSubtask(a.tasks, p.completed) == Some(first)
    ensures var q := AfterWork(p, Batch(ReadySubtaskBatch(a.tasks, p.completed, first)), Some(diffs));
            if diffs == [] then q == p.(failures := 0) else Undone(a.tasks, q.completed) < Undone(a.tasks, p.completed)
  {
    var batch := ReadySubtaskBatch(a.tasks, p.completed, first);
    var n := Min(|batch|, |diffs|);
    AbsorbedCompletes(p, batch, diffs, n);
    BatchAdvances(a.tasks, p.completed, first, n);
    hide NextSubtask, ReadySubtaskBatch, Undone, Absorbed;
    assert IdsOf(batch[..0]) == [];
  }

  /** Starting the record does not change what is left. */
  lemma FreshLeft(budgets: Budgets, tick: Positive, before: real, now: real, a: PlanArtifact, attempt: nat)
    ensures LeftOf(budgets, tick, before, Some(a), None) == LeftOf(budgets, tick, now, Some(a), Some(FreshProgress(attempt, now)))
  {
  }

  /** Neither does a fix-up, or anything else that keeps the counters. */
  lemma SameLeft(budgets: Budgets, tick: Positive, now: real, a: PlanArtifact, p: RunProgress, q: RunProgress)
    requires q.completed == p.completed && q.acked == p.acked && q.failures == p.failures && q.startedAt == p.startedAt
    ensures LeftOf(budgets, tick, now, Some(a), Some(p)) == LeftOf(budgets, tick, now, Some(a), Some(q))
  {
  }

  /** What an implementation step left behind, by its outcome. */
  predicate StepDone(was: Left, now: Left, s: Sys, outcome: StepOutcome) {
    && s.disk.run.stage.Implementation?
    && (match outcome
        case Paused => PendingCheckpoint(s.disk) && s.place.Driving?
        case Continue => !PendingCheckpoint(s.disk) && s.place.Driving? && UsedUp(was, now)
        case GoVerify =>
          && !PendingCheckpoint(s.disk) && (now == was || UsedUp(was, now))
          && Moving(s, Implementation, Verification).Some?)
  }

  /** The measure of the drive loop, in lexicographic order. */
  predicate Drops(d: Disk, was: Left, d': Disk, now: Left) {
    || M0(d') < M0(d)
    || (M0(d') == M0(d) && M1(d') < M1(d))
    || (M0(d') == M0(d) && M1(d') == M1(d) && UsedUp(was, now))
    || (M0(d') == M0(d) && M1(d') == M1(d) && was == now && M4(d') < M4(d))
  }

  class Orchestrator {
    const budgets: Budgets
    const registry: RunRegistry
    const plans: PlanArtifactStore
    const progressStore: RunProgressStore
    const backend: AgentBackend
    const verifier: VerificationRunner
    const clock: Clock

    /** Everything that ever happened to this run, and where the running process is. */
    ghost var log: seq<Event>
    ghost var place: Place
    /** The positions in the log of the calls made into this object. */
    ghost var entries: seq<nat>

    ghost function DiskNow(): Disk
      reads registry, plans, progressStore
    {
      Disk(registry.row, plans.versions, plans.latest, progressStore.saved)
    }

    ghost function State(): Sys
      reads this, registry, plans, progressStore
    {
      Sys(DiskNow(), place)
    }

    /** The disk is what some history of the run's state machine leads to. */
    ghost predicate Valid()
      reads this, registry, plans, progressStore
    {
      Exec(budgets, log) == Some(State()) && Inv(budgets, State()) && entries == CallsIn(log)
    }

    ghost function LeftNow(): Left
      reads plans, progressStore, clock
    {
      LeftOf(budgets, clock.tick, clock.now, plans.latest, progressStore.saved)
    }

    /** create_run, with fresh stores. */
    constructor (budgets: Budgets, clock: Clock)
      ensures Valid() && log == [] && this.budgets == budgets && this.clock == clock
      ensures fresh(registry) && fresh(plans) && fresh(progressStore)
      ensures registry.row.stage.Intake?
    {
      this.budgets, this.clock := budgets, clock;
      registry := new RunRegistry();
      plans := new PlanArtifactStore();
      progressStore := new RunProgressStore();
      backend := new AgentBackend();
      verifier := new VerificationRunner();
      log, place, entries := [], Refused, [];
    }

    lemma Stored()
      requires Valid()
      ensures Readable(budgets, DiskNow())
    {
    }

    /** What the stores hold is what this object's log counts up to. */
    lemma StoresAreTallies()
      requires Valid()
      ensures RunRecord.TallyOk(log, DiskNow())
      ensures registry.row == Run(RunRecord.LastStage(log), 1 + RunRecord.RowWrites(log), 1 + RunRecord.AttemptsIn(log),
                                  RunRecord.LastPointer(log))
      ensures plans.latest == RunRecord.LastPlan(log)
    {
      RunRecord.RecordIsTally(budgets, log);
      RunRecord.RowIsTally(budgets, log);
      hide Exec, Inv;
    }

    /** A question is only pending while the run is at work. */
    lemma PendingWorks()
      requires Valid()
      ensures PendingCheckpoint(DiskNow()) ==> Working(registry.row.stage)
    {
      hide Exec, PlanStoreOk, CompletedOk, PlaceOk;
    }

    /** What was true at an earlier point of this run's history, carried to now. */
    lemma StaysApproved(earlier: seq<Event>)
      requires Valid() && earlier <= log && History(budgets, earlier)
      ensures !BeforeApproval(Exec(budgets, earlier).value.disk.run.stage) ==> !BeforeApproval(registry.row.stage)
    {
      assert log[..|earlier|] == earlier && log[..|log|] == log;
      if !BeforeApproval(Exec(budgets, earlier).value.disk.run.stage) {
        NeverBackToPlanning(budgets, log, |earlier|, |log|);
      }
    }

    lemma StaysShipped(earlier: seq<Event>)
      requires Valid() && earlier <= log && History(budgets, earlier)
      ensures Shipping(Exec(budgets, earlier).value.disk.run.stage) ==> Settled(registry.row.stage)
    {
      assert log[..|earlier|] == earlier && log[..|log|] == log;
      if Shipping(Exec(budgets, earlier).value.disk.run.stage) {
        SettledForever(budgets, log, |earlier|, |log|);
      }
    }

    ghost method Note(e: Event, before: Sys)
      requires Exec(budgets, log) == Some(before) && Inv(budgets, before)
      requires Next(budgets, before, e).Some? && Next(budgets, before, e).value.disk == DiskNow()
      requires !e.Called? && entries == CallsIn(log)
      modifies this`log, this`place
      ensures Valid() && log == old(log) + [e] && Some(State()) == Next(budgets, before, e)
    {
      ExecAppend(budgets, log, e);
      CallsAppend(log, e);
      StepKeepsInv(budgets, before, e);
      var after := Next(budgets, before, e).value;
      log, place := log + [e], after.place;
    }

    // ---- One durable write or outside call each --------------------------------

    method Transition(run: Run, next: Stage) returns (r: Result<Run, Fault>)
      requires Valid() && run == registry.row && Moving(State(), run.stage, next).Some?
      modifies registry, this`log, this`place
      ensures Valid() && old(log) <= log
      ensures r.Success? ==> Some(State()) == Moving(old(State()), run.stage, next) && r.value == registry.row
      ensures r.Success? ==> log == old(log) + [Moved(run.stage, next)]
      ensures r.Failure? ==> r.error.Crashed? && State() == old(State())
    {
      hide Due;
      var crashed: bool := *;
      if crashed {
        return Failure(Crashed);
      }
      ghost var before := State();
      MovedKeepsInv(budgets, before, run.stage, next);
      var res := registry.TransitionStage(run.version, next);
      assert res.Success?;  // with one driver the write is never stale and never illegal
      Note(Moved(run.stage, next), before);
      r := Success(res.value);
    }

    method WriteCheckpointPointer(run: Run, e: Elicitation) returns (r: Result<Run, Fault>)
      requires Valid() && run == registry.row && SavingPointer(State(), e).Some?
      modifies registry, this`log, this`place
      ensures Valid() && old(log) <= log
      ensures r.Success? ==> Some(State()) == SavingPointer(old(State()), e) && r.value == registry.row
      ensures r.Failure? ==> r.error.Crashed? && State() == old(State())
    {
      var crashed: bool := *;
      if crashed {
        return Failure(Crashed);
      }
      ghost var before := State();
      var res := registry.WriteCheckpoint(run.version, e);
      assert res.Success?;
      Note(PointerSaved(e), before);
      r := Success(res.value);
    }

    method SaveProgress(p: RunProgress) returns (r: Result<(), Fault>)
      requires Valid() && SavingProgress(State(), p).Some?
      modifies progressStore, this`log, this`place
      ensures Valid() && old(log) <= log
      ensures r.Success? ==> Some(State()) == SavingProgress(old(State()), p)
      ensures r.Failure? ==> r.error.Crashed? && State() == old(State())
    {
      var crashed: bool := *;
      if crashed {
        return Failure(Crashed);
      }
      ghost var before := State();
      progressStore.Save(p);
      Note(ProgressSaved(p), before);
      r := Success(());
    }

    /** Both files of a save; a crash may leave only the first. */
    method SavePlan(a: PlanArtifact) returns (r: Result<(), Fault>)
      requires Valid() && place == HasArtifact(a)
      modifies plans, this`log, this`place
      ensures Valid() && old(log) <= log
      ensures r.Success? ==>
                && Some(State()) == SavingLatest(SavingVersion(old(State()), a).value, a)
      ensures r.Failure? ==> r.error.Crashed?
    {
      hide Inv;
      var crashed: bool := *;
      if crashed {
        return Failure(Crashed);
      }
      ghost var before := State();
      plans.WriteVersion(a);
      Note(PlanVersionSaved(a), before);
      crashed := *;
      if crashed {
        return Failure(Crashed);
      }
      ghost var half := State();
      plans.WriteLatest(a);
      Note(PlanLatestSaved(a), half);
      r := Success(());
    }

    method CallBackend(work: Work) returns (r: Result<Diffs, Fault>)
      requires Valid() && place.Driving? && !PendingCheckpoint(DiskNow()) && registry.row.stage.Implementation?
      requires plans.latest.Some? && progressStore.saved.Some?
      requires Due(plans.latest.value, progressStore.saved.value) == Some(work)
      modifies this`log, this`place
      ensures Valid() && old(log) <= log
      ensures r.Success? ==> Some(State()) == Implementing(old(State()), work, r.value)
      ensures r.Failure? ==> r.error.Crashed?
    {
      hide Exec, Inv;
      var crashed: bool := *;
      if crashed {
        return Failure(Crashed);
      }
      var diffs: Diffs;
      if work.Batch? && |work.tasks| > 1 {
        diffs := backend.ImplementSubtasksParallel(work.tasks);
      } else {
        var diff := backend.ImplementSubtask();
        diffs := if diff.Some? then Some([diff.value]) else None;
      }
      Note(Implement(work, diffs), State());
      r := Success(diffs);
    }

    method CallVerifier() returns (r: Result<VerificationResult, Fault>)
      requires Valid() && place.Driving? && registry.row.stage.Verification? && !PendingCheckpoint(DiskNow())
      modifies this`log, this`place
      ensures Valid() && old(log) <= log
      ensures r.Success? ==> State() == old(State()).(place := Verified(r.value))
      ensures r.Failure? ==> Outside(r.error)
    {
      hide Inv;
      var crashed: bool := *;
      if crashed {
        return Failure(Crashed);
      }
      var result := verifier.Run();
      if result.None? {
        return Failure(VerifierRaised);
      }
      Note(Verify(result.value), State());
      r := Success(result.value);
    }

    method ReadClock() returns (r: Result<real, Fault>)
      requires Valid() && (place.Checking? || place.CountingFailure?) && progressStore.saved.Some?
      modifies clock, this`log, this`place
      ensures Valid() && old(log) <= log && clock.now >= old(clock.now) + clock.tick
      ensures r.Success? ==> Some(State()) == ReadingClock(budgets, old(State()), r.value)
      ensures r.Success? ==> r.value == clock.now - progressStore.saved.value.startedAt
      ensures r.Failure? ==> r.error.Crashed?
    {
      var now := clock.Read();
      var crashed: bool := *;
      if crashed {
        return Failure(Crashed);
      }
      var elapsed := now - progressStore.saved.value.startedAt;
      Note(ClockRead(elapsed), State());
      r := Success(elapsed);
    }

    method GenerateAndStorePlan(out: PlanOutput) returns (r: Result<(), Fault>)
      requires Valid() && Planning(budgets, State(), out).Some?
      modifies plans, this`log, this`place
      ensures Valid() && old(log) <= log
      ensures r.Success? ==> place == Entering(PlanApprovalGate) && plans.latest.Some?
                             && PlanFor(budgets, old(LatestVersion(DiskNow())) + 1, out) == Success(plans.latest.value)
      ensures r.Failure? ==> r.error.Crashed? || (r.error.PlanRejected? && DiskNow() == old(DiskNow()))
    {
      hide Exec, DiskOk, Triggers, Records;
      ghost var before := State();
      Note(PlanReturned(out), before);
      var budget := ResolveBudget(out.storySize, out.crossCuttingOrHighRisk, budgets);
      if budget.Failure? {
        return Failure(PlanRejected(NoBudget(budget.error)));
      }
      var next := (if plans.latest.Some? then plans.latest.value.planVersion else 0) + 1;
      var artifact, demoted := GeneratePlanArtifact(next, out, budget.value);
      if artifact.Failure? {
        return Failure(PlanRejected(artifact.error));
      }
      var _ :- SavePlan(artifact.value);
      r := Success(());
    }

    // ---- The implementation stage ---------------------------------------------------

    method ImplementationStep(run: Run) returns (r: Result<StepOutcome, Fault>)
      requires Valid() && run == registry.row
      requires place.Driving? && run.stage.Implementation? && !PendingCheckpoint(DiskNow())
      modifies registry, progressStore, clock, this`log, this`place
      ensures Valid() && old(log) <= log
      ensures r.Failure? ==> r.error.Crashed?
      ensures r.Success? ==> StepDone(old(LeftNow()), LeftNow(), State(), r.value)
    {
      hide Exec, Inv, LeftOf, NextSubtask, CallsIn;
      Stored();
      var artifact := plans.latest.value;
      if progressStore.saved.None? {
        var now := clock.Read();
        FreshLeft(budgets, clock.tick, old(clock.now), now, artifact, run.attempt);
        var _ :- SaveProgress(FreshProgress(run.attempt, now));
      }
      var progress := progressStore.saved.value;
      var subtask := NextSubtask(artifact.tasks, progress.completed);
      if subtask.None? {
        if progress.failureSummary == "" {
          return Success(GoVerify);
        }
        r := FixUpStep(run, artifact, progress);
      } else {
        r := BatchStep(run, artifact, progress, subtask.value);
      }
    }

    /** Every subtask is done but verification failed: one extra call, straight back to verification. */
    method FixUpStep(run: Run, artifact: PlanArtifact, before: RunProgress) returns (r: Result<StepOutcome, Fault>)
      requires Valid() && run == registry.row
      requires place.Driving? && run.stage.Implementation? && !PendingCheckpoint(DiskNow())
      requires progressStore.saved == Some(before) && plans.latest == Some(artifact)
      requires NextSubtask(artifact.tasks, before.completed).None? && before.failureSummary != ""
      modifies registry, progressStore, clock, this`log, this`place
      ensures Valid() && old(log) <= log
      ensures r.Failure? ==> r.error.Crashed?
      ensures r.Success? ==> StepDone(old(LeftNow()), LeftNow(), State(), r.value)
    {
      hide Exec, Inv, LeftOf, NextSubtask, CallsIn;
      Stored();
      var fixed :- CallBackend(FixUp(before.failureSummary));
      if fixed.None? {
        r := HandleImplementationFailure(run, before, artifact, FixUp(before.failureSummary));
        return;
      }
      var progress := before.(files := before.files + ToSet(fixed.value[0].filesTouched),
                              lines := before.lines + fixed.value[0].linesChanged,
                              failureSummary := "");
      SameLeft(budgets, clock.tick, clock.now, artifact, before, progress);
      var _ :- SaveProgress(progress);
      return Success(GoVerify);
    }

    /** zip(batch, diffs), folded into the progress record. */
    method AbsorbDiffs(before: RunProgress, batch: seq<PlannedTask>, diffs: seq<DiffOutput>)
      returns (progress: RunProgress)
      ensures progress == AfterWork(before, Batch(batch), Some(diffs))
      ensures WorkAdds(before, Batch(batch), Some(diffs), progress)
    {
      progress := before;
      for i := 0 to Min(|batch|, |diffs|)
        invariant progress == Absorbed(before, batch, diffs, i)
      {
        progress := progress.(completed := progress.completed + [batch[i].taskId],
                              files := progress.files + ToSet(diffs[i].filesTouched),
                              lines := progress.lines + diffs[i].linesChanged);
      }
      progress := progress.(failures := 0);
      AnswersAreAdded(before, Batch(batch), Some(diffs));
      hide WorkAdds;
    }

    /** After a batch: ask about the first open violation, or go on. */
    method AskAfterBatch(run: Run, artifact: PlanArtifact, progress: RunProgress) returns (r: Result<StepOutcome, Fault>)
      requires Valid() && run == registry.row && run.stage.Implementation? && place.Checking? && !PendingCheckpoint(DiskNow())
      requires progressStore.saved == Some(progress) && plans.latest == Some(artifact)
      modifies registry, clock, this`log, this`place
      ensures Valid() && old(log) <= log && clock.now >= old(clock.now) + clock.tick
      ensures r.Failure? ==> r.error.Crashed?
      ensures r.Success? ==> registry.row.stage.Implementation?
      ensures r == Success(Paused) ==> PendingCheckpoint(DiskNow()) && place.Driving?
      ensures r.Success? && !r.value.Paused? ==>
                !PendingCheckpoint(DiskNow()) && NothingToAsk(budgets, artifact, progress, clock.now - progress.startedAt)
      ensures r == Success(Continue) ==> place.Driving? && NextSubtask(artifact.tasks, progress.completed).Some?
      ensures r == Success(GoVerify) ==>
                Moving(State(), Implementation, Verification).Some? && NextSubtask(artifact.tasks, progress.completed).None?
    {
      hide Exec, Inv, LeftOf, NextSubtask, Triggers, Absorbed, CallsIn;
      var elapsed :- ReadClock();
      var triggers := Triggers(budgets, artifact, progress, elapsed);
      if triggers != [] {
        var _ :- WriteCheckpointPointer(run, Elicitation(triggers[0], run.stage, Pending));
        return Success(Paused);
      }
      if NextSubtask(artifact.tasks, progress.completed).Some? {
        return Success(Continue);
      }
      return Success(GoVerify);
    }

    /** One batch: the call, the durable record, then the checkpoints. */
    method BatchStep(run: Run, artifact: PlanArtifact, before: RunProgress, first: PlannedTask)
      returns (r: Result<StepOutcome, Fault>)
      requires Valid() && run == registry.row
      requires place.Driving? && run.stage.Implementation? && !PendingCheckpoint(DiskNow())
      requires progressStore.saved == Some(before) && plans.latest == Some(artifact)
      requires NextSubtask(artifact.tasks, before.completed) == Some(first)
      modifies registry, progressStore, clock, this`log, this`place
      ensures Valid() && old(log) <= log
      ensures r.Failure? ==> r.error.Crashed?
      ensures r.Success? ==> StepDone(old(LeftNow()), LeftNow(), State(), r.value)
    {
      hide Exec, Inv, LeftOf, NextSubtask, Triggers, Absorbed, CallsIn, Next, AfterWork, ResolveBudget, UsedUp, WorkAdds;
      Stored();
      var batch := ReadySubtaskBatch(artifact.tasks, before.completed, first);
      var answer :- CallBackend(Batch(batch));
      if answer.None? {
        r := HandleImplementationFailure(run, before, artifact, Batch(batch));
        return;
      }
      var progress := AbsorbDiffs(before, batch, answer.value);
      var _ :- SaveProgress(progress);
      r := AskAfterBatch(run, artifact, progress);
      BatchOutcome(budgets, clock.tick, old(clock.now), clock.now, artifact, before, first, answer.value);
    }

    /** A raised implementation call is counted like a failed verification. */
    method HandleImplementationFailure(run: Run, before: RunProgress, artifact: PlanArtifact, ghost work: Work)
      returns (r: Result<StepOutcome, Fault>)
      requires Valid() && run == registry.row && run.stage.Implementation? && place == Implemented(work, None)
      requires !PendingCheckpoint(DiskNow())
      requires progressStore.saved == Some(before) && plans.latest == Some(artifact)
      modifies registry, progressStore, clock, this`log, this`place
      ensures Valid() && old(log) <= log
      ensures r.Failure? ==> r.error.Crashed?
      ensures r.Success? ==> StepDone(old(LeftNow()), LeftNow(), State(), r.value)
    {
      hide Exec, Inv, Triggers, LeftOf, NextSubtask, CallsIn;
      Stored();
      var progress := before.(failures := before.failures + 1);
      var _ :- SaveProgress(progress);
      var elapsed :- ReadClock();
      var triggers := Triggers(budgets, artifact, progress, elapsed);
      FailureOutcome(budgets, clock.tick, old(clock.now), clock.now, artifact, before, progress, elapsed);
      var stuck := FirstStuck(triggers);
      if stuck.Some? {
        var _ :- WriteCheckpointPointer(run, Elicitation(stuck.value, run.stage, Pending));
        return Success(Paused);
      }
      return Success(Continue);
    }

    // ---- The verification stage -----------------------------------------------------

    method VerificationStep(run: Run) returns (r: Result<VerifyOutcome, Fault>)
      requires Valid() && run == registry.row
      requires place.Driving? && run.stage.Verification? && !PendingCheckpoint(DiskNow())
      modifies registry, progressStore, clock, this`log, this`place
      ensures Valid() && old(log) <= log
      ensures r.Failure? ==> Outside(r.error)
      ensures r.Success? ==> registry.row.stage.Verification?
      ensures r == Success(Passed) ==> place == Entering(ChangeReviewGate) && !PendingCheckpoint(DiskNow())
      ensures r == Success(Retry) ==>
                && place == Entering(Implementation) && !PendingCheckpoint(DiskNow())
                && UsedUp(old(LeftNow()), LeftNow())
      ensures r == Success(Stuck') ==> place.Driving? && PendingCheckpoint(DiskNow())
    {
      hide Exec, Inv, Triggers, LeftOf, NextSubtask, CallsIn, ResolveBudget, Absorbed, UsedUp;
      Stored();
      var result :- CallVerifier();
      var artifact := plans.latest.value;
      var before := progressStore.saved.value;  // at this stage there always is one
      var progress := before;
      if result.passed {
        progress := progress.(failures := 0, failureSummary := "");
        var _ :- SaveProgress(progress);
        return Success(Passed);
      }
      progress := progress.(failures := progress.failures + 1, failureSummary := result.summary);
      var _ :- SaveProgress(progress);
      var elapsed :- ReadClock();
      var triggers := Triggers(budgets, artifact, progress, elapsed);
      FailureOutcome(budgets, clock.tick, old(clock.now), clock.now, artifact, before, progress, elapsed);
      var stuck := FirstStuck(triggers);
      if stuck.Some? {
        var _ :- WriteCheckpointPointer(run, Elicitation(stuck.value, run.stage, Pending));
        return Success(Stuck');
      }
      return Success(Retry);
    }

    // ---- The drive loop --------------------------------------------------------------

    method DriveImplementation(run: Run) returns (r: Result<Run, Fault>)
      requires Valid() && run == registry.row
      requires place.Driving? && run.stage.Implementation? && !PendingCheckpoint(DiskNow())
      modifies registry, progressStore, clock, this`log, this`place
      ensures Valid() && old(log) <= log
      ensures r.Success? ==> place.Driving? && r.value == registry.row && Drops(old(DiskNow()), old(LeftNow()), DiskNow(), LeftNow())
      ensures r.Success? ==> Working(registry.row.stage)
      ensures r.Failure? ==> Outside(r.error)
    {
      hide Exec, Inv, LeftOf, NextSubtask, CallsIn;
      var outcome :- ImplementationStep(run);
      if outcome.GoVerify? {
        r := Transition(registry.row, Verification);
      } else {
        r := Success(registry.row);
      }
    }

    method DriveVerification(run: Run) returns (r: Result<Run, Fault>)
      requires Valid() && run == registry.row
      requires place.Driving? && run.stage.Verification? && !PendingCheckpoint(DiskNow())
      modifies registry, progressStore, clock, this`log, this`place
      ensures Valid() && old(log) <= log
      ensures r.Success? ==> place.Driving? && r.value == registry.row
      ensures r.Success? ==> registry.row.stage.ChangeReviewGate? || Drops(old(DiskNow()), old(LeftNow()), DiskNow(), LeftNow())
      ensures r.Success? ==> registry.row.stage.ChangeReviewGate? || Working(registry.row.stage)
      ensures r.Failure? ==> Outside(r.error)
    {
      hide Exec, Inv, LeftOf, NextSubtask, CallsIn;
      var outcome :- VerificationStep(run);
      match outcome {
        case Passed => r := Transition(registry.row, ChangeReviewGate);
        case Retry => r := Transition(registry.row, Implementation);
        case Stuck' => r := Success(registry.row);
      }
    }

    method DrivePlanning(run: Run) returns (r: Result<Run, Fault>)
      requires Valid() && run == registry.row
      requires place.Driving? && run.stage.PlanAuthoring? && !PendingCheckpoint(DiskNow())
      modifies registry, plans, this`log, this`place
      ensures Valid() && old(log) <= log
      ensures r.Success? ==> r.value == registry.row && registry.row.stage.PlanApprovalGate?
      ensures r.Failure? ==> Outside(r.error)
    {
      hide Exec, Inv, PlanFor, CallsIn, LeftOf;
      var out := backend.AuthorPlan();
      if out.None? {
        return Failure(BackendRaised);
      }
      var _ :- GenerateAndStorePlan(out.value);
      r := Transition(run, PlanApprovalGate);
    }

    /** A stage with nothing to do in it. */
    method MoveOn(run: Run, next: Stage) returns (r: Result<Run, Fault>)
      requires Valid() && run == registry.row && place.Driving? && !PendingCheckpoint(DiskNow())
      requires (run.stage.Intake? && next.Research?) || (run.stage.Retrospective? && next.Completed?)
      modifies registry, this`log, this`place
      ensures Valid() && old(log) <= log
      ensures r.Success? ==> place.Driving? && r.value == registry.row
                             && DiskNow() == old(DiskNow()).(run := run.(stage := next, version := run.version + 1))
      ensures r.Failure? ==> Outside(r.error)
    {
      hide Exec, Inv, CallsIn, LeftOf;
      r := Transition(run, next);
    }

    /** Research only runs a callback, which may raise, and moves on. */
    method DriveResearch(run: Run) returns (r: Result<Run, Fault>)
      requires Valid() && run == registry.row && place.Driving? && run.stage.Research? && !PendingCheckpoint(DiskNow())
      modifies registry, this`log, this`place
      ensures Valid() && old(log) <= log
      ensures r.Success? ==> place.Driving? && r.value == registry.row
                             && DiskNow() == old(DiskNow()).(run := run.(stage := PlanAuthoring, version := run.version + 1))
      ensures r.Failure? ==> Outside(r.error)
    {
      hide Exec, Inv, CallsIn, LeftOf;
      var raised: bool := *;
      if raised {
        return Failure(CallbackRaised);
      }
      r := Transition(run, PlanAuthoring);
    }

    /** Packaging runs a callback with effects outside, and moves on unless it raised. */
    method DrivePackaging(run: Run) returns (r: Result<Run, Fault>)
      requires Valid() && run == registry.row && place.Driving? && run.stage.Packaging? && !PendingCheckpoint(DiskNow())
      modifies registry, this`log, this`place
      ensures Valid() && old(log) <= log
      ensures r.Success? ==> place.Driving? && r.value == registry.row
                             && DiskNow() == old(DiskNow()).(run := run.(stage := Retrospective, version := run.version + 1))
      ensures r.Failure? ==> Outside(r.error)
    {
      hide Exec, Inv, CallsIn, LeftOf;
      var crashed: bool := *;
      if crashed {
        return Failure(Crashed);
      }
      var raised: bool := *;
      Note(Packaged(!raised), State());
      if raised {
        return Failure(CallbackRaised);
      }
      r := Transition(run, Retrospective);
    }

    /** Drives until something needs a human, or the run is over. It always ends. */
    method Drive() returns (r: Result<RunStatus, Fault>)
      requires Valid() && place.Driving?
      modifies registry, plans, progressStore, clock, this`log, this`place
      ensures Valid() && old(log) <= log
      ensures r.Success? ==> StatusOf(DiskNow(), r.value)
      ensures r.Failure? ==> Outside(r.error)
      ensures r.Success? ==> (registry.row.stage.Abandoned? <==> old(registry.row.stage).Abandoned?)
    {
      hide Exec, Inv, LeftOf, NextSubtask, Due, CallsIn, ResolveBudget, Next, Moving, DriveMove;
      var run := registry.row;
      while true
        invariant Valid() && old(log) <= log && place.Driving? && run == registry.row
        invariant run.stage.Abandoned? <==> old(registry.row.stage).Abandoned?
        decreases M0(DiskNow()), M1(DiskNow()), LeftNow().work, LeftNow().readings, LeftNow().failures, M4(DiskNow())
      {
        PendingWorks();
        if run.pointer.Some? && run.pointer.value.status.Pending? {
          return Success(RunStatus(run.stage, run.version, AtCheckpoint(run.pointer.value)));
        }
        match run.stage {
          case Intake =>
            run :- MoveOn(run, Research);
          case Research =>
            run :- DriveResearch(run);
          case PlanAuthoring =>
            run :- DrivePlanning(run);
            PendingWorks();
            return Success(RunStatus(run.stage, run.version, AtGate));
          case Implementation =>
            run :- DriveImplementation(run);
          case Verification =>
            run :- DriveVerification(run);
            PendingWorks();
            if run.stage.ChangeReviewGate? {
              return Success(RunStatus(run.stage, run.version, AtGate));
            }
          case PlanApprovalGate =>
            return Success(RunStatus(run.stage, run.version, AtGate));
          case ChangeReviewGate =>
            return Success(RunStatus(run.stage, run.version, AtGate));
          case Packaging =>
            run :- DrivePackaging(run);
          case Retrospective =>
            run :- MoveOn(run, Completed);
            return Success(RunStatus(run.stage, run.version, NotPaused));
          case _ =>
            return Success(RunStatus(run.stage, run.version, NotPaused));
        }
      }
    }

    // ---- Public entry points ------------------------------------------------------------

    ghost method Enter(call: Call)
      requires Valid()
      modifies this`log, this`place, this`entries
      ensures Valid() && log == old(log) + [Called(call)] && place == Entry(DiskNow(), call)
      ensures entries == old(entries) + [|old(log)|]
    {
      var e, before := Called(call), State();
      ExecAppend(budgets, log, e);
      CallsAppend(log, e);
      StepKeepsInv(budgets, before, e);
      var after := Next(budgets, before, e).value;
      entries := entries + [|log|];
      log, place := log + [e], after.place;
    }

    method ResumeRun() returns (r: Result<RunStatus, Fault>)
      requires Valid()
      modifies registry, plans, progressStore, clock, this`log, this`place, this`entries
      ensures Valid() && old(log) <= log
      ensures entries == old(entries) + [|old(log)|] && |log| > |old(log)| && log[|old(log)|] == Called(Resume)
      ensures r.Success? ==> StatusOf(DiskNow(), r.value)
      ensures r.Success? ==> (registry.row.stage.Abandoned? <==> old(registry.row.stage).Abandoned?)
      ensures r.Failure? ==> Outside(r.error)
    {
      Enter(Resume);
      r := Drive();
    }

    /** A new attempt, a new plan, and back to the gate. */
    method RePlan(run: Run, feedback: string) returns (r: Result<Run, Fault>)
      requires Valid() && run == registry.row && place.RePlanAsked? && run.stage.PlanApprovalGate?
      modifies registry, plans, this`log, this`place
      ensures Valid() && old(log) <= log
      ensures r.Success? ==> r.value == registry.row && registry.row.stage.PlanApprovalGate?
                             && registry.row.attempt == run.attempt + 1
      ensures r.Failure? ==> Outside(r.error)
    {
      hide Exec, Inv, PlanFor, CallsIn, LeftOf, Entry, Due, DriveMove;
      var crashed: bool := *;
      if crashed {
        return Failure(Crashed);
      }
      ghost var before := State();
      var attempt := registry.AppendAttempt(run.version, PlanAuthoring);
      assert attempt.Success?;
      Note(AttemptAppended, before);
      var out := backend.RePlan(feedback);
      if out.None? {
        return Failure(BackendRaised);
      }
      var _ :- GenerateAndStorePlan(out.value);
      r := Transition(registry.row, PlanApprovalGate);
    }

    /** The plan is approved: implementation starts on a fresh record. */
    method StartImplementation(run: Run) returns (r: Result<RunStatus, Fault>)
      requires Valid() && run == registry.row && run.stage.PlanApprovalGate? && place == Entering(Implementation)
      modifies registry, plans, progressStore, clock, this`log, this`place
      ensures Valid() && old(log) <= log
      ensures r.Failure? ==> Outside(r.error)
      ensures r.Success? ==> StatusOf(DiskNow(), r.value) && !BeforeApproval(r.value.stage) && !r.value.stage.Abandoned?
    {
      hide Exec, Inv, PlanFor, CallsIn, LeftOf;
      var started :- Transition(run, Implementation);
      var now := clock.Read();
      var _ :- SaveProgress(FreshProgress(started.attempt, now));
      ghost var approved := log;
      r := Drive();
      StaysApproved(approved);
    }

    /** The change is approved: packaging and what follows it. */
    method StartPackaging(run: Run) returns (r: Result<RunStatus, Fault>)
      requires Valid() && run == registry.row && run.stage.ChangeReviewGate? && place == Entering(Packaging)
      modifies registry, plans, progressStore, clock, this`log, this`place
      ensures Valid() && old(log) <= log
      ensures r.Failure? ==> Outside(r.error)
      ensures r.Success? ==> StatusOf(DiskNow(), r.value) && r.value.stage.Completed?
    {
      hide Exec, Inv, PlanFor, CallsIn, LeftOf;
      var _ :- Transition(run, Packaging);
      ghost var approved := log;
      r := Drive();
      StaysShipped(approved);
    }

    /** A rejection, or "stop": the run ends here. */
    method Abandon(run: Run) returns (r: Result<RunStatus, Fault>)
      requires Valid() && run == registry.row && !PendingCheckpoint(DiskNow())
      requires place == Entering(Abandoned) || (place.Answered? && place.decision == "stop")
      modifies registry, this`log, this`place
      ensures Valid() && old(log) <= log
      ensures r.Success? ==> StatusOf(DiskNow(), r.value) && r.value.stage.Abandoned?
      ensures r.Failure? ==> r.error.Crashed?
    {
      hide Exec, Inv, PlanFor, CallsIn, LeftOf;
      var ended :- Transition(run, Abandoned);
      return Success(RunStatus(ended.stage, ended.version, NotPaused));
    }

    method DoApprovePlan(decision: string, feedback: string) returns (r: Result<RunStatus, Fault>)
      requires Valid()
      modifies registry, plans, progressStore, clock, this`log, this`place, this`entries
      ensures Valid() && old(log) <= log
      ensures entries == old(entries) + [|old(log)|] && |log| > |old(log)| && log[|old(log)|] == Called(ApprovePlan(decision))
      ensures r.Success? ==> StatusOf(DiskNow(), r.value)
      ensures r.Failure? ==> Outside(r.error) || r.error.WrongStage? || r.error.UnknownDecision?
      ensures r == Failure(WrongStage) <==> !old(registry.row.stage).PlanApprovalGate?
      ensures r == Failure(WrongStage) || r == Failure(UnknownDecision) ==> DiskNow() == old(DiskNow())
      ensures r == Failure(UnknownDecision) <==>
                old(registry.row.stage).PlanApprovalGate? && decision !in ["approve", "request_changes", "reject"]
      ensures r.Success? && decision == "reject" ==> r.value.stage.Abandoned?
      ensures r.Success? && decision == "approve" ==> !BeforeApproval(r.value.stage) && !r.value.stage.Abandoned?
      ensures r.Success? && decision == "request_changes" ==>
                r.value.stage.PlanApprovalGate? && registry.row.attempt == old(registry.row.attempt) + 1
    {
      hide Exec, Inv, PlanFor, CallsIn, LeftOf, Moving, DriveMove, Due, AppendingAttempt;
      Stored();
      Enter(ApprovePlan(decision));
      var run := registry.row;
      if !run.stage.PlanApprovalGate? {
        return Failure(WrongStage);
      }
      if decision == "approve" {
        r := StartImplementation(run);
        return;
      }
      if decision == "request_changes" {
        run :- RePlan(run, feedback);
        Stored();
        return Success(RunStatus(run.stage, run.version, AtGate));
      }
      if decision == "reject" {
        r := Abandon(run);
        return;
      }
      return Failure(UnknownDecision);
    }

    /** Changes are requested: back to implementation. */
    method ReturnToWork(run: Run) returns (r: Result<RunStatus, Fault>)
      requires Valid() && run == registry.row && run.stage.ChangeReviewGate? && place == Entering(Implementation)
      modifies registry, plans, progressStore, clock, this`log, this`place
      ensures Valid() && old(log) <= log
      ensures r.Success? ==> StatusOf(DiskNow(), r.value)
      ensures r.Success? ==> |log| > |old(log)| && log[|old(log)|] == Moved(ChangeReviewGate, Implementation)
      ensures r.Failure? ==> Outside(r.error)
    {
      hide Exec, Inv, CallsIn, LeftOf;
      var _ :- Transition(run, Implementation);
      r := Drive();
    }

    method DoApproveChangeReview(decision: string) returns (r: Result<RunStatus, Fault>)
      requires Valid()
      modifies registry, plans, progressStore, clock, this`log, this`place, this`entries
      ensures Valid() && old(log) <= log
      ensures entries == old(entries) + [|old(log)|] && |log| > |old(log)| && log[|old(log)|] == Called(ApproveChangeReview(decision))
      ensures r.Success? ==> StatusOf(DiskNow(), r.value)
      ensures r.Failure? ==> Outside(r.error) || r.error.WrongStage? || r.error.UnknownDecision?
      ensures r == Failure(WrongStage) <==> !old(registry.row.stage).ChangeReviewGate?
      ensures r == Failure(WrongStage) || r == Failure(UnknownDecision) ==> DiskNow() == old(DiskNow())
      ensures r.Success? && decision == "reject" ==> r.value.stage.Abandoned?
      ensures r.Success? && decision == "approve" ==> r.value.stage.Completed?
      ensures r.Success? && decision == "request_changes" ==>
                |log| > |old(log)| + 1 && log[|old(log)| + 1] == Moved(ChangeReviewGate, Implementation)
      ensures r == Failure(UnknownDecision) <==>
                old(registry.row.stage).ChangeReviewGate? && decision !in ["approve", "request_changes", "reject"]
    {
      hide Exec, Inv, CallsIn, LeftOf, Moving, DriveMove;
      Stored();
      Enter(ApproveChangeReview(decision));
      var run := registry.row;
      if !run.stage.ChangeReviewGate? {
        return Failure(WrongStage);
      }
      if decision == "approve" {
        r := StartPackaging(run);
        return;
      }
      if decision == "request_changes" {
        r := ReturnToWork(run);
        return;
      }
      if decision == "reject" {
        r := Abandon(run);
        return;
      }
      return Failure(UnknownDecision);
    }

    /** Any decision other than "stop" proceeds; "extend_scope" widens the scope of a risk first. */
    method DoResolveCheckpoint(decision: string) returns (r: Result<RunStatus, Fault>)
      requires Valid()
      modifies registry, plans, progressStore, clock, this`log, this`place, this`entries
      ensures Valid() && old(log) <= log
      ensures entries == old(entries) + [|old(log)|] && |log| > |old(log)| && log[|old(log)|] == Called(ResolveCheckpoint(decision))
      ensures r.Success? ==> StatusOf(DiskNow(), r.value)
      ensures r.Failure? ==> Outside(r.error) || r.error.NothingPending?
      ensures r == Failure(NothingPending) <==> !PendingCheckpoint(old(DiskNow()))
      ensures r == Failure(NothingPending) ==> DiskNow() == old(DiskNow())
      ensures r.Success? ==> (r.value.stage.Abandoned? <==> decision == "stop")
    {
      hide Exec, Inv, CallsIn, LeftOf, Moving, DriveMove;
      Enter(ResolveCheckpoint(decision));
      Stored();
      var run := registry.row;
      if run.pointer.None? || run.pointer.value.status.Resolved? {
        return Failure(NothingPending);
      }
      var pending := run.pointer.value;
      run :- WriteCheckpointPointer(run, pending.(status := Resolved(decision)));
      if decision == "stop" {
        r := Abandon(run);
        return;
      }
      r := ProceedPast(pending, decision);
    }

    /** Acknowledge the question, widen the scope if that was the answer, and drive on. */
    method ProceedPast(question: Elicitation, decision: string) returns (r: Result<RunStatus, Fault>)
      requires Valid() && place == Answered(decision, question) && decision != "stop" && progressStore.saved.Some?
      requires Working(registry.row.stage)
      modifies registry, plans, progressStore, clock, this`log, this`place
      ensures Valid() && old(log) <= log
      ensures r.Success? ==> StatusOf(DiskNow(), r.value)
      ensures r.Failure? ==> Outside(r.error)
      ensures r.Success? ==> !registry.row.stage.Abandoned?
    {
      hide Exec, Inv, CallsIn, LeftOf;
      Stored();
      var progress := progressStore.saved.value;
      progress := progress.(acked := progress.acked + {question.trigger});
      var _ :- SaveProgress(progress);
      if decision == "extend_scope" && question.trigger.Risk? {
        var _ :- SavePlan(Extended(plans.latest.value, question.trigger.outOfScope));
      }
      r := Drive();
    }
  }
}
