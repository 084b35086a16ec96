/**
 * What the disk says about the history that led to it: every field of the progress record and of the
 * registry row, counted up from the events alone.
 */
module RunRecord {
  import opened Common
  import opened Stages
  import opened Checkpoints
  import opened Plans
  import opened Scheduling
  import opened RunMachine
  import opened RunInvariants
  import opened RunTheorems

  // ---- Which event a place in the code follows --------------------------------------

  /** What the process remembers of an outside call or an answer is the last event. */
  lemma PlaceFollowsEvent(budgets: Budgets, s: Sys, e: Event)
    requires Next(budgets, s, e).Some?
    ensures var place := Next(budgets, s, e).value.place;
            && (forall work, diffs :: place == Implemented(work, diffs) <==> e == Implement(work, diffs))
            && (forall result :: place == Verified(result) <==> e == Verify(result))
            && (place.Answered? <==> e.PointerSaved? && e.pointer.status.Resolved?)
            && (place.Answered? ==> e.pointer == place.question.(status := Resolved(place.decision)))
  {
    hide Triggers, PlanFor, NextSubtask, AfterWork, Due;
  }

  // ---- The progress record, from the log ----------------------------------------------

  /** What an outside call brought was saved: event k is the record that follows the call. */
  predicate SavedAfterWork(log: seq<Event>, k: nat) {
    1 <= k < |log| && log[k].ProgressSaved? && log[k - 1].Implement?
  }

  predicate SavedAfterVerdict(log: seq<Event>, k: nat) {
    1 <= k < |log| && log[k].ProgressSaved? && log[k - 1].Verify?
  }

  predicate SavedAfterAnswer(log: seq<Event>, k: nat) {
    1 <= k < |log| && log[k].ProgressSaved? && log[k - 1].PointerSaved?
  }

  /** All diffs of all answers that were saved. */
  function KeptIn(log: seq<Event>): seq<DiffOutput> {
    if log == [] then []
    else
      var k := |log| - 1;
      KeptIn(log[..k])
      + if SavedAfterWork(log, k) && log[k - 1].diffs.Some? then KeptBy(log[k - 1].work, log[k - 1].diffs.value) else []
  }

  function CompletedIn(log: seq<Event>): seq<string> {
    if log == [] then []
    else
      var k := |log| - 1;
      CompletedIn(log[..k])
      + if SavedAfterWork(log, k) && log[k - 1].diffs.Some? then CompletedBy(log[k - 1].work, log[k - 1].diffs.value) else []
  }

  function AnsweredIn(log: seq<Event>): set<Trigger> {
    if log == [] then {}
    else
      var k := |log| - 1;
      AnsweredIn(log[..k]) + if SavedAfterAnswer(log, k) then {log[k - 1].pointer.trigger} else {}
  }

  predicate FailureCounted(log: seq<Event>, k: nat) {
    || (SavedAfterWork(log, k) && log[k - 1].diffs.None?)
    || (SavedAfterVerdict(log, k) && !log[k - 1].result.passed)
  }

  predicate StreakEnded(log: seq<Event>, k: nat) {
    || (SavedAfterWork(log, k) && log[k - 1].work.Batch? && log[k - 1].diffs.Some?)
    || (SavedAfterVerdict(log, k) && log[k - 1].result.passed)
  }

  /** Failures counted since the last batch answer or pass. */
  function StreakIn(log: seq<Event>): nat {
    if log == [] then 0
    else if FailureCounted(log, |log| - 1) then StreakIn(log[..|log| - 1]) + 1
    else if StreakEnded(log, |log| - 1) then 0
    else StreakIn(log[..|log| - 1])
  }

  /** What the last failed verification said, unless a fix-up or a pass was saved since. */
  function SummaryIn(log: seq<Event>): string {
    if log == [] then ""
    else
      var k := |log| - 1;
      if SavedAfterVerdict(log, k) then if log[k - 1].result.passed then "" else log[k - 1].result.summary
      else if SavedAfterWork(log, k) && log[k - 1].work.FixUp? && log[k - 1].diffs.Some? then ""
      else SummaryIn(log[..k])
  }

  /** The record that was saved first. */
  function FirstRecord(log: seq<Event>): Option<RunProgress> {
    if log == [] then None
    else if FirstRecord(log[..|log| - 1]).Some? then FirstRecord(log[..|log| - 1])
    else if log[|log| - 1].ProgressSaved? then Some(log[|log| - 1].progress)
    else None
  }

  /** The record is what the log counts up to; its start and attempt are those of the first one. Money is never counted. */
  ghost predicate Tallies(log: seq<Event>, p: RunProgress) {
    && FirstRecord(log).Some? && p.startedAt == FirstRecord(log).value.startedAt && p.attempt == FirstRecord(log).value.attempt
    && (forall f :: f in p.files <==> TouchedBy(KeptIn(log), f))
    && p.lines == LinesIn(KeptIn(log))
    && p.completed == CompletedIn(log)
    && p.acked == AnsweredIn(log)
    && p.failures == StreakIn(log)
    && p.failureSummary == SummaryIn(log)
    && p.spend == 0.0
  }

  /** Before there is a record there is nothing to count. */
  predicate Untouched(log: seq<Event>) {
    && FirstRecord(log).None? && KeptIn(log) == [] && CompletedIn(log) == [] && AnsweredIn(log) == {}
    && StreakIn(log) == 0 && SummaryIn(log) == ""
  }

  ghost predicate TallyOk(log: seq<Event>, d: Disk) {
    if d.progress.Some? then Tallies(log, d.progress.value) else Untouched(log)
  }

  lemma {:induction false} LinesAdd(a: seq<DiffOutput>, b: seq<DiffOutput>)
    ensures LinesIn(a + b) == LinesIn(a) + LinesIn(b)
  {
    if b == [] {
      assert a + b == a;
    } else {
      LinesAdd(a, b[..|b| - 1]);
      assert (a + b)[..|a + b| - 1] == a + b[..|b| - 1];
    }
  }

  lemma TouchedAdd(a: seq<DiffOutput>, b: seq<DiffOutput>, f: string)
    ensures TouchedBy(a + b, f) <==> TouchedBy(a, f) || TouchedBy(b, f)
  {
    var all := a + b;
    if TouchedBy(a, f) {
      var i :| 0 <= i < |a| && f in a[i].filesTouched;
      assert f in all[i].filesTouched;
    }
    if TouchedBy(b, f) {
      var i :| 0 <= i < |b| && f in b[i].filesTouched;
      assert f in all[|a| + i].filesTouched;
    }
  }

  lemma DiffsAdd(log: seq<Event>, p: RunProgress, kept: seq<DiffOutput>, q: RunProgress)
    requires (forall f :: f in p.files <==> TouchedBy(KeptIn(log), f)) && p.lines == LinesIn(KeptIn(log))
    requires AddsDiffs(p, kept, q)
    ensures forall f :: f in q.files <==> TouchedBy(KeptIn(log) + kept, f)
    ensures q.lines == LinesIn(KeptIn(log) + kept)
  {
    hide TouchedBy;
    LinesAdd(KeptIn(log), kept);
    forall f ensures TouchedBy(KeptIn(log) + kept, f) <==> TouchedBy(KeptIn(log), f) || TouchedBy(kept, f) {
      TouchedAdd(KeptIn(log), kept, f);
    }
  }

  /** One more event, said of the counts: a saved record counts what the event before it brought, anything else nothing. */
  lemma CountsGrow(log: seq<Event>, e: Event)
    ensures var longer, n := log + [e], |log|;
            var answered := n > 0 && e.ProgressSaved? && log[n - 1].Implement? && log[n - 1].diffs.Some?;
            && KeptIn(longer) == KeptIn(log) + (if answered then KeptBy(log[n - 1].work, log[n - 1].diffs.value) else [])
            && CompletedIn(longer) == CompletedIn(log)
                 + (if answered then CompletedBy(log[n - 1].work, log[n - 1].diffs.value) else [])
  {
    hide KeptBy, CompletedBy;
    var longer, n := log + [e], |log|;
    assert longer[..n] == log;
  }

  lemma AnswersGrow(log: seq<Event>, e: Event)
    ensures var longer, n := log + [e], |log|;
            && AnsweredIn(longer) == AnsweredIn(log)
                 + (if n > 0 && e.ProgressSaved? && log[n - 1].PointerSaved? then {log[n - 1].pointer.trigger} else {})
            && FirstRecord(longer) == if FirstRecord(log).None? && e.ProgressSaved? then Some(e.progress) else FirstRecord(log)
  {
    var longer, n := log + [e], |log|;
    assert longer[..n] == log;
  }

  lemma StreakGrows(log: seq<Event>, e: Event)
    ensures var longer, n := log + [e], |log|;
            var work, verdict := n > 0 && e.ProgressSaved? && log[n - 1].Implement?, n > 0 && e.ProgressSaved? && log[n - 1].Verify?;
            && StreakIn(longer) == (if (work && log[n - 1].diffs.None?) || (verdict && !log[n - 1].result.passed) then StreakIn(log) + 1
                                    else if (work && log[n - 1].work.Batch?) || verdict then 0 else StreakIn(log))
            && SummaryIn(longer) == (if verdict then if log[n - 1].result.passed then "" else log[n - 1].result.summary
                                     else if work && log[n - 1].work.FixUp? && log[n - 1].diffs.Some? then "" else SummaryIn(log))
  {
    hide KeptBy, CompletedBy;
    var longer, n := log + [e], |log|;
    assert longer[..n] == log;
  }

  lemma WorkTallied(log: seq<Event>, p: RunProgress, work: Work, diffs: Diffs)
    requires log != [] && log[|log| - 1] == Implement(work, diffs) && Tallies(log, p) && WellShaped(work, diffs)
    ensures var q := AfterWork(p, work, diffs); Tallies(log + [ProgressSaved(q)], q)
  {
    hide AfterWork, KeptBy, CompletedBy, TouchedBy, LinesIn, KeptIn, CompletedIn, AnsweredIn, StreakIn, SummaryIn, FirstRecord;
    var q := AfterWork(p, work, diffs);
    AnswersAreAdded(p, work, diffs);
    CountsGrow(log, ProgressSaved(q));
    AnswersGrow(log, ProgressSaved(q));
    StreakGrows(log, ProgressSaved(q));
    if diffs.Some? {
      DiffsAdd(log, p, KeptBy(work, diffs.value), q);
      hide AddsDiffs;
    } else {
      assert KeptIn(log) + [] == KeptIn(log) && CompletedIn(log) + [] == CompletedIn(log);
    }
  }

  /** A record that no call came before keeps the counts, but for an acknowledgement. */
  lemma OtherTallied(log: seq<Event>, p: RunProgress, q: RunProgress)
    requires log != [] ==> !log[|log| - 1].Implement? && !log[|log| - 1].Verify?
    requires q == p.(acked := p.acked + if log != [] && log[|log| - 1].PointerSaved? then {log[|log| - 1].pointer.trigger} else {})
    requires Tallies(log, p)
    ensures Tallies(log + [ProgressSaved(q)], q)
  {
    hide KeptBy, CompletedBy, TouchedBy, LinesIn, KeptIn, CompletedIn, AnsweredIn, StreakIn, SummaryIn, FirstRecord;
    CountsGrow(log, ProgressSaved(q));
    AnswersGrow(log, ProgressSaved(q));
    StreakGrows(log, ProgressSaved(q));
    assert KeptIn(log) + [] == KeptIn(log) && CompletedIn(log) + [] == CompletedIn(log);
  }

  lemma VerdictTallied(log: seq<Event>, p: RunProgress, result: VerificationResult)
    requires log != [] && log[|log| - 1] == Verify(result) && Tallies(log, p)
    ensures var q := AfterVerify(p, result); Tallies(log + [ProgressSaved(q)], q)
  {
    hide KeptBy, CompletedBy, TouchedBy, LinesIn, KeptIn, CompletedIn, AnsweredIn, StreakIn, SummaryIn, FirstRecord;
    CountsGrow(log, ProgressSaved(AfterVerify(p, result)));
    AnswersGrow(log, ProgressSaved(AfterVerify(p, result)));
    StreakGrows(log, ProgressSaved(AfterVerify(p, result)));
    assert KeptIn(log) + [] == KeptIn(log) && CompletedIn(log) + [] == CompletedIn(log);
  }

  lemma FreshTallied(log: seq<Event>, attempt: nat, startedAt: real)
    requires Untouched(log) && (log != [] ==> !log[|log| - 1].Implement? && !log[|log| - 1].Verify? && !log[|log| - 1].PointerSaved?)
    ensures var q := FreshProgress(attempt, startedAt); Tallies(log + [ProgressSaved(q)], q)
  {
    hide KeptBy, CompletedBy, KeptIn, CompletedIn, AnsweredIn, StreakIn, SummaryIn, FirstRecord;
    CountsGrow(log, ProgressSaved(FreshProgress(attempt, startedAt)));
    AnswersGrow(log, ProgressSaved(FreshProgress(attempt, startedAt)));
    StreakGrows(log, ProgressSaved(FreshProgress(attempt, startedAt)));
  }

  /** Anything but a saved record leaves record and counts alone. */
  lemma NothingTallied(log: seq<Event>, e: Event, d: Disk, d': Disk)
    requires TallyOk(log, d) && d'.progress == d.progress && !e.ProgressSaved?
    ensures TallyOk(log + [e], d')
  {
    hide KeptBy, CompletedBy, TouchedBy, LinesIn, KeptIn, CompletedIn, AnsweredIn, StreakIn, SummaryIn, FirstRecord;
    CountsGrow(log, e);
    AnswersGrow(log, e);
    StreakGrows(log, e);
    assert KeptIn(log) + [] == KeptIn(log) && CompletedIn(log) + [] == CompletedIn(log);
  }

  /** The last event of a history agrees with the place the process is at. */
  predicate Remembers(log: seq<Event>, s: Sys) {
    var n := |log|;
    && (s.place.Implemented? <==> n > 0 && log[n - 1].Implement?)
    && (s.place.Implemented? ==> log[n - 1] == Implement(s.place.work, s.place.diffs))
    && (s.place.Verified? <==> n > 0 && log[n - 1].Verify?)
    && (s.place.Verified? ==> log[n - 1] == Verify(s.place.result))
    && (s.place.Answered? <==> n > 0 && log[n - 1].PointerSaved? && log[n - 1].pointer.status.Resolved?)
    && (s.place.Answered? ==> log[n - 1].pointer == s.place.question.(status := Resolved(s.place.decision)))
    && (n > 0 && log[n - 1].PointerSaved? && !s.place.Answered? ==> PendingCheckpoint(s.disk))
  }

  lemma HistoryRemembers(budgets: Budgets, log: seq<Event>, k: nat) returns (s: Sys)
    requires History(budgets, log) && k <= |log|
    ensures s == SysAt(budgets, log, k) && Inv(budgets, s) && Remembers(log[..k], s)
    ensures k < |log| ==> Next(budgets, s, log[k]) == Some(SysAt(budgets, log, k + 1))
  {
    hide Exec, History, Inv, Next, SysAt;
    s := StateAt(budgets, log, k);
    if k < |log| {
      var _, _ := Happened(budgets, log, k);
    }
    if k == 0 {
      FirstState(budgets, log);
    } else {
      var before, _ := Happened(budgets, log, k - 1);
      assert log[..k][k - 1] == log[k - 1];
      PlaceFollowsEvent(budgets, before, log[k - 1]);
      PointerMeans(budgets, before, log[k - 1]);
    }
  }

  lemma PointerMeans(budgets: Budgets, s: Sys, e: Event)
    requires Next(budgets, s, e).Some?
    ensures e.PointerSaved? ==> Next(budgets, s, e).value.disk.run.pointer == Some(e.pointer)
  {
  }

  lemma SavedIsTallied(budgets: Budgets, log: seq<Event>, s: Sys, p: RunProgress)
    requires Inv(budgets, s) && Remembers(log, s) && SavingProgress(s, p).Some? && TallyOk(log, s.disk)
    ensures TallyOk(log + [ProgressSaved(p)], SavingProgress(s, p).value.disk)
  {
    hide Tallies, Untouched, AfterWork, NextSubtask, PlanStoreOk, CompletedOk, Due;
    match s.place
    case Implemented(work, diffs) => WorkTallied(log, s.disk.progress.value, work, diffs);
    case Verified(result) => VerdictTallied(log, s.disk.progress.value, result);
    case Answered(_, q) => OtherTallied(log, s.disk.progress.value, p);
    case _ => FreshTallied(log, p.attempt, p.startedAt);
  }

  lemma OnlySavesChangeProgress(budgets: Budgets, s: Sys, e: Event)
    requires Next(budgets, s, e).Some? && !e.ProgressSaved?
    ensures Next(budgets, s, e).value.disk.progress == s.disk.progress
  {
    hide Triggers, PlanFor, NextSubtask, AfterWork, Due;
  }

  /**
   * After every history: the files and lines of the record are those of all diffs of all answers that were
   * saved, its completed ids are the answered subtasks one after the other, its failures are those
   * counted since the last success, its acknowledged violations are those answered, and it has spent nothing.
   */
  lemma {:induction false} RecordIsTally(budgets: Budgets, log: seq<Event>)
    requires History(budgets, log)
    ensures TallyOk(log, Exec(budgets, log).value.disk)
  {
    if log != [] {
      var k := |log| - 1;
      RecordIsTally(budgets, log[..k]);
      TallyStep(budgets, log);
    }
  }

  lemma TallyStep(budgets: Budgets, log: seq<Event>)
    requires log != [] && History(budgets, log) && History(budgets, log[..|log| - 1])
    requires TallyOk(log[..|log| - 1], Exec(budgets, log[..|log| - 1]).value.disk)
    ensures TallyOk(log, Exec(budgets, log).value.disk)
  {
    hide Exec, History, Inv, Next, TallyOk, Remembers;
    var k := |log| - 1;
    var e := log[k];
    var s := HistoryRemembers(budgets, log, k);
    assert log[..k] + [e] == log && log[..k + 1] == log;
    var t := StateAt(budgets, log, k);
    if e.ProgressSaved? {
      SaveIsNext(budgets, s, e);
      SavedIsTallied(budgets, log[..k], s, e.progress);
    } else {
      OnlySavesChangeProgress(budgets, s, e);
      NothingTallied(log[..k], e, s.disk, Next(budgets, s, e).value.disk);
    }
  }

  lemma SaveIsNext(budgets: Budgets, s: Sys, e: Event)
    requires e.ProgressSaved?
    ensures Next(budgets, s, e) == SavingProgress(s, e.progress)
  {
  }

  // ---- The registry row and the plan store, from the log -------------------------------

  predicate WritesRow(e: Event) {
    e.Moved? || e.PointerSaved? || e.AttemptAppended?
  }

  function RowWrites(log: seq<Event>): nat {
    if log == [] then 0 else RowWrites(log[..|log| - 1]) + if WritesRow(log[|log| - 1]) then 1 else 0
  }

  function AttemptsIn(log: seq<Event>): nat {
    if log == [] then 0 else AttemptsIn(log[..|log| - 1]) + if log[|log| - 1].AttemptAppended? then 1 else 0
  }

  /** The last question or answer that was written. */
  function LastPointer(log: seq<Event>): Option<Elicitation> {
    if log == [] then None
    else if log[|log| - 1].PointerSaved? then Some(log[|log| - 1].pointer)
    else LastPointer(log[..|log| - 1])
  }

  /** Where the last move, or a new attempt, led. */
  function LastStage(log: seq<Event>): Stage {
    if log == [] then Intake
    else if log[|log| - 1].Moved? then log[|log| - 1].next
    else if log[|log| - 1].AttemptAppended? then PlanAuthoring
    else LastStage(log[..|log| - 1])
  }

  function LastPlan(log: seq<Event>): Option<PlanArtifact> {
    if log == [] then None
    else if log[|log| - 1].PlanLatestSaved? then Some(log[|log| - 1].artifact)
    else LastPlan(log[..|log| - 1])
  }

  lemma RowStep(budgets: Budgets, s: Sys, e: Event)
    requires Next(budgets, s, e).Some?
    ensures var r, r' := s.disk.run, Next(budgets, s, e).value.disk.run;
            && r'.version == r.version + (if WritesRow(e) then 1 else 0)
            && r'.attempt == r.attempt + (if e.AttemptAppended? then 1 else 0)
            && r'.pointer == (if e.PointerSaved? then Some(e.pointer) else r.pointer)
            && r'.stage == (if e.Moved? then e.next else if e.AttemptAppended? then PlanAuthoring else r.stage)
    ensures Next(budgets, s, e).value.disk.latest == if e.PlanLatestSaved? then Some(e.artifact) else s.disk.latest
  {
    hide Triggers, PlanFor, NextSubtask, AfterWork, Due;
  }

  /** No attempt is added once there is a record. */
  lemma AttemptStays(budgets: Budgets, s: Sys, e: Event)
    requires Inv(budgets, s) && Next(budgets, s, e).Some?
    requires s.disk.progress.Some? ==> s.disk.progress.value.attempt == s.disk.run.attempt
    ensures var d := Next(budgets, s, e).value.disk; d.progress.Some? ==> d.progress.value.attempt == d.run.attempt
  {
    hide WellPlanned, LinearExtension, Triggers, PlanFor, PlanStoreOk, NextSubtask, Due, AfterWork;
    if s.place.Implemented? && s.disk.progress.Some? {
      AnswersAreAdded(s.disk.progress.value, s.place.work, s.place.diffs);
      hide AddsDiffs, CompletedBy, KeptBy;
    }
  }

  /**
   * After every history the row is at the stage last moved to, with the pointer last written, one version
   * per write and one attempt per new plan asked for, which is also that of the record; and the latest plan
   * is the one last saved as such.
   */
  lemma {:induction false} RowIsTally(budgets: Budgets, log: seq<Event>)
    requires History(budgets, log)
    ensures var d := Exec(budgets, log).value.disk;
            && d.run == Run(LastStage(log), 1 + RowWrites(log), 1 + AttemptsIn(log), LastPointer(log))
            && d.latest == LastPlan(log)
            && (d.progress.Some? ==> d.progress.value.attempt == d.run.attempt)
  {
    if log != [] {
      var before := log[..|log| - 1];
      RowIsTally(budgets, before);
      HistoryKeepsInv(budgets, before);
      RowStep(budgets, Exec(budgets, before).value, log[|log| - 1]);
      AttemptStays(budgets, Exec(budgets, before).value, log[|log| - 1]);
      hide Next, Inv;
    }
  }
}
