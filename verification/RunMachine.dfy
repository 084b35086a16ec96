/**
 * One run as a state machine over what is on disk. Each event is one durable write, one call into
 * the outside world, or one human or operator call into the orchestrator. A crash is not an event:
 * a process may stop after any event, and then nothing happens until the next Called event, which
 * is possible in every state and forgets whatever the stopped process knew.
 */
module RunMachine {
  import opened Common
  import opened Stages
  import opened Checkpoints
  import opened Plans
  import opened Scheduling

  // ---- What is on disk ---------------------------------------------------

  datatype Answer = Pending | Resolved(decision: string)

  /** The structured question stored in the registry's checkpoint pointer. */
  datatype Elicitation = Elicitation(trigger: Trigger, stage: Stage, status: Answer)

  /** The registry row of one run; version is the optimistic-concurrency token. */
  datatype Run = Run(stage: Stage, version: nat, attempt: nat, pointer: Option<Elicitation>)

  datatype RunProgress = RunProgress(
    attempt: nat,
    startedAt: real,
    completed: seq<string>,
    files: set<string>,
    lines: int,
    spend: real,
    failures: nat,
    acked: set<Trigger>,
    failureSummary: string
  )

  datatype Disk = Disk(
    run: Run,
    versions: map<nat, PlanArtifact>,
    latest: Option<PlanArtifact>,
    progress: Option<RunProgress>
  )

  predicate PendingCheckpoint(d: Disk) {
    d.run.pointer.Some? && d.run.pointer.value.status.Pending?
  }

  function FreshProgress(attempt: nat, startedAt: real): RunProgress {
    RunProgress(attempt, startedAt, [], {}, 0, 0.0, 0, {}, "")
  }

  function LatestVersion(d: Disk): nat {
    if d.latest.Some? then d.latest.value.planVersion else 0
  }

  // ---- Calls and outcomes ------------------------------------------------

  datatype Call =
    | Resume
    | ApprovePlan(decision: string)
    | ApproveChangeReview(decision: string)
    | ResolveCheckpoint(decision: string)

  datatype VerificationResult = VerificationResult(passed: bool, summary: string)

  /** The work an implementation step hands to the backend. */
  datatype Work = Batch(tasks: seq<PlannedTask>) | FixUp(summary: string)

  /** The backend raised, or returned diffs. */
  type Diffs = Option<seq<DiffOutput>>

  datatype Event =
    | Called(call: Call)
    | Moved(from: Stage, next: Stage)
    | PointerSaved(pointer: Elicitation)
    | AttemptAppended
    | PlanReturned(out: PlanOutput)
    | PlanVersionSaved(artifact: PlanArtifact)
    | PlanLatestSaved(artifact: PlanArtifact)
    | Implement(work: Work, diffs: Diffs)
    | Verify(result: VerificationResult)
    | Packaged(ok: bool)
    | ProgressSaved(progress: RunProgress)
    | ClockRead(elapsed: real)

  /** What the running process knows beyond the disk; the place it is at in the code. */
  datatype Place =
    | Driving
    | Refused
    | Entering(next: Stage)
    | StartingProgress
    | RePlanAsked
    | RePlanning
    | HasArtifact(artifact: PlanArtifact)
    | HalfSaved(artifact: PlanArtifact)
    | Implemented(work: Work, diffs: Diffs)
    | Checking
    | Verified(result: VerificationResult)
    | CountingFailure
    | Raising(trigger: Trigger)
    | Answering(decision: string, question: Elicitation)
    | Answered(decision: string, question: Elicitation)

  datatype Sys = Sys(disk: Disk, place: Place)

  // ---- Progress records --------------------------------------------------

  function ToSet(s: seq<string>): set<string> {
    set x | x in s
  }

  function Min(a: nat, b: nat): nat {
    if a < b then a else b
  }

  /** The first n pairs of zip(batch, diffs), folded into the progress record. */
  function Absorbed(p: RunProgress, batch: seq<PlannedTask>, diffs: seq<DiffOutput>, n: nat): RunProgress
    requires n <= |batch| && n <= |diffs|
  {
    if n == 0 then p
    else
      var q := Absorbed(p, batch, diffs, n - 1);
      q.(completed := q.completed + [batch[n - 1].taskId],
         files := q.files + ToSet(diffs[n - 1].filesTouched),
         lines := q.lines + diffs[n - 1].linesChanged)
  }

  function AfterFailure(p: RunProgress): RunProgress {
    p.(failures := p.failures + 1)
  }

  function AfterWork(p: RunProgress, work: Work, diffs: Diffs): RunProgress {
    match diffs
    case None => AfterFailure(p)
    case Some(ds) =>
      match work
      case Batch(tasks) => Absorbed(p, tasks, ds, Min(|tasks|, |ds|)).(failures := 0)
      case FixUp(_) =>
        if ds == [] then p
        else p.(files := p.files + ToSet(ds[0].filesTouched),
                lines := p.lines + ds[0].linesChanged,
                failureSummary := "")
  }

  function AfterVerify(p: RunProgress, result: VerificationResult): RunProgress {
    if result.passed then p.(failures := 0, failureSummary := "")
    else p.(failures := p.failures + 1, failureSummary := result.summary)
  }

  function AfterAnswer(p: RunProgress, question: Elicitation): RunProgress {
    p.(acked := p.acked + {question.trigger})
  }

  // ---- What one record adds to the one before ------------------------------

  /** The diffs that are recorded: one for each subtask of a batch while both last, the first one of a fix-up. */
  function KeptBy(work: Work, ds: seq<DiffOutput>): (kept: seq<DiffOutput>)
    ensures kept <= ds
    ensures work.Batch? ==> |kept| <= |work.tasks| && (|kept| == |work.tasks| || kept == ds)
    ensures work.FixUp? ==> |kept| <= 1 && (|kept| == 1 || kept == ds)
  {
    match work
    case Batch(tasks) => if |ds| <= |tasks| then ds else ds[..|tasks|]
    case FixUp(_) => if ds == [] then [] else [ds[0]]
  }

  function LinesIn(ds: seq<DiffOutput>): int {
    if ds == [] then 0 else LinesIn(ds[..|ds| - 1]) + ds[|ds| - 1].linesChanged
  }

  ghost predicate TouchedBy(ds: seq<DiffOutput>, f: string) {
    exists i :: 0 <= i < |ds| && f in ds[i].filesTouched
  }

  /** The subtasks an answer completes. */
  function CompletedBy(work: Work, ds: seq<DiffOutput>): seq<string> {
    match work
    case Batch(tasks) => IdsOf(tasks[..|KeptBy(work, ds)|])
    case FixUp(_) => []
  }

  /** Every diff that is kept counts, files and lines; nothing else about the diff so far changes. */
  ghost predicate AddsDiffs(p: RunProgress, kept: seq<DiffOutput>, q: RunProgress) {
    && (forall f :: f in q.files <==> f in p.files || TouchedBy(kept, f))
    && q.lines == p.lines + LinesIn(kept)
  }

  /** A raised call counts as a failure and nothing else. A batch ends the streak; only a fix-up clears the summary. */
  ghost predicate WorkAdds(p: RunProgress, work: Work, diffs: Diffs, q: RunProgress) {
    && q.attempt == p.attempt && q.startedAt == p.startedAt && q.spend == p.spend && q.acked == p.acked
    && (match diffs
        case None => q == p.(failures := q.failures) && q.failures == p.failures + 1
        case Some(ds) =>
          && AddsDiffs(p, KeptBy(work, ds), q) && q.completed == p.completed + CompletedBy(work, ds)
          && (match work
              case Batch(_) => q.failures == 0 && q.failureSummary == p.failureSummary
              case FixUp(_) =>
                q.failures == p.failures && q.failureSummary == if ds == [] then p.failureSummary else ""))
  }

  lemma {:induction false} AbsorbedAdds(p: RunProgress, batch: seq<PlannedTask>, diffs: seq<DiffOutput>, n: nat)
    requires n <= |batch| && n <= |diffs|
    ensures var q := Absorbed(p, batch, diffs, n);
            && AddsDiffs(p, diffs[..n], q) && q.completed == p.completed + IdsOf(batch[..n])
            && q == p.(completed := q.completed, files := q.files, lines := q.lines)
  {
    if n > 0 {
      AbsorbedAdds(p, batch, diffs, n - 1);
      assert IdsOf(batch[..n]) == IdsOf(batch[..n - 1]) + [batch[n - 1].taskId];
      OneMoreDiff(p, Absorbed(p, batch, diffs, n - 1), diffs[..n - 1], diffs[n - 1]);
      assert diffs[..n] == diffs[..n - 1] + [diffs[n - 1]];
    }
  }

  lemma OneMoreDiff(p: RunProgress, q: RunProgress, kept: seq<DiffOutput>, d: DiffOutput)
    requires AddsDiffs(p, kept, q)
    ensures AddsDiffs(p, kept + [d], q.(files := q.files + ToSet(d.filesTouched), lines := q.lines + d.linesChanged))
  {
    var more := kept + [d];
    assert more[..|kept|] == kept;
    forall f ensures TouchedBy(more, f) <==> TouchedBy(kept, f) || f in d.filesTouched {
      if TouchedBy(kept, f) {
        var i :| 0 <= i < |kept| && f in kept[i].filesTouched;
        assert f in more[i].filesTouched;
      }
      assert f in d.filesTouched ==> f in more[|kept|].filesTouched;
    }
  }

  lemma FixUpIsAdded(p: RunProgress, ds: seq<DiffOutput>)
    requires ds != []
    ensures AddsDiffs(p, [ds[0]], p.(files := p.files + ToSet(ds[0].filesTouched), lines := p.lines + ds[0].linesChanged))
  {
    NothingAdded(p);
    hide AddsDiffs;
    OneMoreDiff(p, p, [], ds[0]);
    assert [] + [ds[0]] == [ds[0]];
  }

  lemma NothingAdded(p: RunProgress)
    ensures AddsDiffs(p, [], p)
  {
  }

  /** The record after an answer holds what it held and all that the answer brought. */
  lemma AnswersAreAdded(p: RunProgress, work: Work, diffs: Diffs)
    ensures WorkAdds(p, work, diffs, AfterWork(p, work, diffs))
  {
    hide TouchedBy, LinesIn, ToSet, Absorbed;
    if diffs.Some? {
      var ds := diffs.value;
      if work.Batch? {
        AbsorbedAdds(p, work.tasks, ds, Min(|work.tasks|, |ds|));
        assert KeptBy(work, ds) == ds[..Min(|work.tasks|, |ds|)];
      } else if ds != [] {
        FixUpIsAdded(p, ds);
      } else {
        NothingAdded(p);
      }
    }
  }

  // ---- Decisions taken from the disk -------------------------------------

  /** What an implementation step has to do: the next batch, a fix-up, or nothing. */
  function Due(a: PlanArtifact, p: RunProgress): Option<Work> {
    match NextSubtask(a.tasks, p.completed)
    case Some(first) => Some(Batch(ReadySubtaskBatch(a.tasks, p.completed, first)))
    case None => if p.failureSummary == "" then None else Some(FixUp(p.failureSummary))
  }

  /** The backend interface: one subtask gets one diff; a parallel batch gets a list. */
  predicate WellShaped(work: Work, diffs: Diffs) {
    diffs.Some? && (work.FixUp? || |work.tasks| == 1) ==> |diffs.value| == 1
  }

  function Measure(a: PlanArtifact, p: RunProgress, elapsed: real): Measured {
    Measured(p.files, p.lines, a.inScope, elapsed, p.spend, p.failures)
  }

  /** The violations a human has not answered yet, in presentation order. */
  function Triggers(budgets: Budgets, a: PlanArtifact, p: RunProgress, elapsed: real): seq<Trigger> {
    match ResolveBudget(a.storySize, a.highRisk, budgets)
    case Failure(_) => []
    case Success(budget) => Unacknowledged(EvaluateCheckpoints(Measure(a, p, elapsed), budget), p.acked)
  }

  /** Where a public call starts. Wrong-stage calls are refused and change nothing. */
  function Entry(d: Disk, call: Call): Place {
    match call
    case Resume => Driving
    case ApprovePlan(decision) =>
      if !d.run.stage.PlanApprovalGate? then Refused
      else if decision == "approve" then Entering(Implementation)
      else if decision == "request_changes" then RePlanAsked
      else if decision == "reject" then Entering(Abandoned)
      else Refused
    case ApproveChangeReview(decision) =>
      if !d.run.stage.ChangeReviewGate? then Refused
      else if decision == "approve" then Entering(Packaging)
      else if decision == "request_changes" then Entering(Implementation)
      else if decision == "reject" then Entering(Abandoned)
      else Refused
    case ResolveCheckpoint(decision) =>
      if PendingCheckpoint(d) then Answering(decision, d.run.pointer.value) else Refused
  }

  /** Moves the drive loop makes on its own, from what is on disk. */
  predicate DriveMove(d: Disk, next: Stage) {
    match d.run.stage
    case Intake => next.Research?
    case Research => next.PlanAuthoring?
    case Retrospective => next.Completed?
    case Implementation =>
      next.Verification? && d.latest.Some? && d.progress.Some? && Due(d.latest.value, d.progress.value).None?
    case _ => false
  }

  // ---- One step ----------------------------------------------------------

  function Moving(s: Sys, from: Stage, next: Stage): Option<Sys> {
    var d := s.disk;
    if from == d.run.stage &&
       (s.place == Entering(next)
        || (s.place == Driving && !PendingCheckpoint(d) && DriveMove(d, next))
        || (s.place.Answered? && s.place.decision == "stop" && next.Abandoned?)) then
      Some(Sys(d.(run := d.run.(stage := next, version := d.run.version + 1)),
               if from.PlanApprovalGate? && next.Implementation? then StartingProgress else Driving))
    else
      None
  }

  function SavingPointer(s: Sys, e: Elicitation): Option<Sys> {
    var d := s.disk;
    var d' := d.(run := d.run.(pointer := Some(e), version := d.run.version + 1));
    match s.place
    case Raising(t) => if e == Elicitation(t, d.run.stage, Pending) then Some(s.(disk := d', place := Driving)) else None
    case Answering(decision, q) =>
      if e == q.(status := Resolved(decision)) then Some(s.(disk := d', place := Answered(decision, q))) else None
    case _ => None
  }

  function AppendingAttempt(s: Sys): Option<Sys> {
    var run := s.disk.run;
    if s.place.RePlanAsked? then
      Some(s.(disk := s.disk.(run := run.(stage := PlanAuthoring, attempt := run.attempt + 1, version := run.version + 1)),
              place := RePlanning))
    else
      None
  }

  function Planning(budgets: Budgets, s: Sys, out: PlanOutput): Option<Sys> {
    if s.place.RePlanning? || (s.place.Driving? && s.disk.run.stage.PlanAuthoring? && !PendingCheckpoint(s.disk)) then
      match PlanFor(budgets, LatestVersion(s.disk) + 1, out)
      case Success(a) => Some(s.(place := HasArtifact(a)))
      case Failure(_) => Some(s.(place := Refused))
    else
      None
  }

  function SavingVersion(s: Sys, a: PlanArtifact): Option<Sys> {
    if s.place == HasArtifact(a) then
      Some(s.(disk := s.disk.(versions := s.disk.versions[a.planVersion := a]), place := HalfSaved(a)))
    else
      None
  }

  function SavingLatest(s: Sys, a: PlanArtifact): Option<Sys> {
    if s.place == HalfSaved(a) then
      Some(s.(disk := s.disk.(latest := Some(a)),
              place := if s.disk.run.stage.PlanAuthoring? then Entering(PlanApprovalGate) else Driving))
    else
      None
  }

  function Implementing(s: Sys, work: Work, diffs: Diffs): Option<Sys> {
    var d := s.disk;
    if && s.place.Driving? && !PendingCheckpoint(d) && d.run.stage.Implementation?
       && d.latest.Some? && d.progress.Some?
       && Due(d.latest.value, d.progress.value) == Some(work)
       && WellShaped(work, diffs) then
      Some(s.(place := Implemented(work, diffs)))
    else
      None
  }

  function Verifying(s: Sys, result: VerificationResult): Option<Sys> {
    if s.place.Driving? && s.disk.run.stage.Verification? && !PendingCheckpoint(s.disk) then
      Some(s.(place := Verified(result)))
    else
      None
  }

  /** The packaging callback ran; if it raised, the process is done. */
  function RunningPackaging(s: Sys, ok: bool): Option<Sys> {
    if s.place.Driving? && s.disk.run.stage.Packaging? && !PendingCheckpoint(s.disk) then
      Some(s.(place := if ok then Entering(Retrospective) else Refused))
    else
      None
  }

  function SavingProgress(s: Sys, p: RunProgress): Option<Sys> {
    var d := s.disk;
    var d' := d.(progress := Some(p));
    match s.place
    case StartingProgress =>
      if p == FreshProgress(d.run.attempt, p.startedAt) then Some(s.(disk := d', place := Driving)) else None
    case Driving =>
      if && p == FreshProgress(d.run.attempt, p.startedAt) && d.run.stage.Implementation?
         && !PendingCheckpoint(d) && d.progress.None? && d.latest.Some? then Some(s.(disk := d')) else None
    case Implemented(work, diffs) =>
      if d.progress.Some? && p == AfterWork(d.progress.value, work, diffs) then
        Some(s.(disk := d', place :=
          if diffs.None? then CountingFailure else if work.FixUp? then Entering(Verification) else Checking))
      else None
    case Verified(result) =>
      if d.progress.Some? && p == AfterVerify(d.progress.value, result) then
        Some(s.(disk := d', place := if result.passed then Entering(ChangeReviewGate) else CountingFailure))
      else None
    case Answered(decision, q) =>
      if d.progress.Some? && decision != "stop" && p == AfterAnswer(d.progress.value, q) then
        Some(s.(disk := d', place :=
          if decision == "extend_scope" && q.trigger.Risk? && d.latest.Some?
          then HasArtifact(Extended(d.latest.value, q.trigger.outOfScope)) else Driving))
      else None
    case _ => None
  }

  function ReadingClock(budgets: Budgets, s: Sys, elapsed: real): Option<Sys> {
    var d := s.disk;
    if d.latest.None? || d.progress.None? then None
    else
      var a, p := d.latest.value, d.progress.value;
      var triggers := Triggers(budgets, a, p, elapsed);
      match s.place
      case Checking =>
        Some(s.(place :=
          if triggers != [] then Raising(triggers[0])
          else if NextSubtask(a.tasks, p.completed).Some? then Driving
          else Entering(Verification)))
      case CountingFailure =>
        var stuck := FirstStuck(triggers);
        Some(s.(place :=
          if stuck.Some? then Raising(stuck.value)
          else if d.run.stage.Verification? then Entering(Implementation)
          else Driving))
      case _ => None
  }

  function Next(budgets: Budgets, s: Sys, e: Event): Option<Sys> {
    match e
    case Called(call) => Some(s.(place := Entry(s.disk, call)))
    case Moved(from, next) => Moving(s, from, next)
    case PointerSaved(pointer) => SavingPointer(s, pointer)
    case AttemptAppended => AppendingAttempt(s)
    case PlanReturned(out) => Planning(budgets, s, out)
    case PlanVersionSaved(a) => SavingVersion(s, a)
    case PlanLatestSaved(a) => SavingLatest(s, a)
    case Implement(work, diffs) => Implementing(s, work, diffs)
    case Verify(result) => Verifying(s, result)
    case Packaged(ok) => RunningPackaging(s, ok)
    case ProgressSaved(p) => SavingProgress(s, p)
    case ClockRead(elapsed) => ReadingClock(budgets, s, elapsed)
  }

  // ---- Whole histories ---------------------------------------------------

  const INITIAL_DISK := Disk(Run(Intake, 1, 1, None), map[], None, None)
  const INITIAL := Sys(INITIAL_DISK, Refused)

  /** The state after a history, if it is a possible one. */
  function Exec(budgets: Budgets, log: seq<Event>): Option<Sys> {
    if log == [] then Some(INITIAL)
    else
      match Exec(budgets, log[..|log| - 1])
      case None => None
      case Some(s) => Next(budgets, s, log[|log| - 1])
  }

  predicate History(budgets: Budgets, log: seq<Event>) {
    Exec(budgets, log).Some?
  }

  lemma ExecAppend(budgets: Budgets, log: seq<Event>, e: Event)
    requires History(budgets, log)
    ensures Exec(budgets, log + [e]) == Next(budgets, Exec(budgets, log).value, e)
  {
    assert (log + [e])[..|log|] == log;
  }

  /** The positions of the calls into the orchestrator. */
  function CallsIn(log: seq<Event>): seq<nat> {
    if log == [] then []
    else CallsIn(log[..|log| - 1]) + if log[|log| - 1].Called? then [|log| - 1] else []
  }

  lemma CallsAppend(log: seq<Event>, e: Event)
    ensures CallsIn(log + [e]) == CallsIn(log) + if e.Called? then [|log|] else []
  {
    assert (log + [e])[..|log|] == log;
  }

  /** Every prefix of a history is a history: a crash can cut it anywhere. */
  lemma {:induction false} PrefixHistory(budgets: Budgets, log: seq<Event>, n: nat)
    requires History(budgets, log) && n <= |log|
    ensures History(budgets, log[..n])
    ensures n < |log| ==>
              Next(budgets, Exec(budgets, log[..n]).value, log[n]) == Exec(budgets, log[..n + 1])
              && Exec(budgets, log[..n + 1]).Some?
    decreases |log| - n
  {
    if n < |log| {
      PrefixHistory(budgets, log, n + 1);
      var longer := log[..n + 1];
      assert longer[..|longer| - 1] == log[..n];
    } else {
      assert log[..n] == log;
    }
  }
}
