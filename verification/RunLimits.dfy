/**
 * Where the run's guarantees end, stated exactly: claims that sound true of the drive loop and are
 * not, each with the condition under which they are.
 */
module RunLimits {
  import opened Common
  import opened Stages
  import opened Checkpoints
  import opened Plans
  import opened Scheduling
  import opened RunMachine
  import opened RunClock
  import opened RunInvariants
  import opened RunTheorems

  /** A run of events from a given state. */
  function Steps(budgets: Budgets, s: Sys, es: seq<Event>): Option<Sys>
    decreases |es|
  {
    if es == [] then Some(s)
    else
      match Next(budgets, s, es[0])
      case None => None
      case Some(s') => Steps(budgets, s', es[1..])
  }

  function Steps3(budgets: Budgets, s: Sys, a: Event, b: Event, c: Event): (r: Option<Sys>)
    ensures r == Steps(budgets, s, [a, b, c])
  {
    assert [a, b, c][1..] == [b, c] && [b, c][1..] == [c] && [c][1..] == [];
    assert Steps(budgets, s, [a, b, c]) ==
           match Next(budgets, s, a) case None => None case Some(t) => Steps(budgets, t, [b, c]);
    match Next(budgets, s, a)
    case None => None
    case Some(t) =>
      assert Steps(budgets, t, [b, c]) == match Next(budgets, t, b) case None => None case Some(u) => Steps(budgets, u, [c]);
      match Next(budgets, t, b)
      case None => None
      case Some(u) =>
        assert Steps(budgets, u, [c]) == match Next(budgets, u, c) case None => None case Some(v) => Steps(budgets, v, []);
        Next(budgets, u, c)
  }

  // ---- "Stop" ----------------------------------------------------------------

  /**
   * "stop" is two durable writes. The run is abandoned exactly if the second one follows the first: any
   * call that comes in between finds the question answered, and the run at work.
   */
  lemma StopIsTwoWrites(budgets: Budgets, log: seq<Event>, k: nat)
    requires History(budgets, log) && k + 1 < |log|
    requires log[k].PointerSaved? && log[k].pointer.status == Resolved("stop")
    ensures DiskAt(budgets, log, k + 2).run.stage.Abandoned? <==> !log[k + 1].Called?
    ensures !log[k + 1].Called? ==> log[k + 1] == Moved(log[k].pointer.stage, Abandoned)
    ensures log[k + 1].Called? ==> Working(DiskAt(budgets, log, k + 2).run.stage) && !PendingCheckpoint(DiskAt(budgets, log, k + 2))
  {
    hide Exec, History, Inv, Next, SysAt;
    var s, s' := Happened(budgets, log, k);
    var _, s'' := Happened(budgets, log, k + 1);
    StopSteps(budgets, s, log[k], s', log[k + 1], s'');
  }

  lemma StopSteps(budgets: Budgets, s: Sys, e: Event, s': Sys, e': Event, s'': Sys)
    requires Inv(budgets, s) && Inv(budgets, s') && Next(budgets, s, e) == Some(s') && Next(budgets, s', e') == Some(s'')
    requires e.PointerSaved? && e.pointer.status == Resolved("stop")
    ensures s''.disk.run.stage.Abandoned? <==> !e'.Called?
    ensures !e'.Called? ==> e' == Moved(e.pointer.stage, Abandoned)
    ensures e'.Called? ==> Working(s''.disk.run.stage) && !PendingCheckpoint(s''.disk)
  {
    hide WellPlanned, LinearExtension, Triggers, PlanFor, PlanStoreOk, NextSubtask, AfterWork;
  }

  // ---- "Request changes" at the change review ---------------------------------

  /** Nothing for the backend to do until the verifier has spoken again. */
  predicate Idle(d: Disk) {
    && !PendingCheckpoint(d)
    && NothingReady(d)
    && ((d.run.stage.Implementation? && d.progress.value.failureSummary == "") || d.run.stage.Verification?)
  }

  lemma IdleStep(budgets: Budgets, s: Sys, e: Event)
    requires Inv(budgets, s) && Next(budgets, s, e).Some?
    requires Idle(s.disk) && (s.place.Driving? || s.place.Refused?) && !e.Verify?
    ensures var s' := Next(budgets, s, e).value;
            !e.Implement? && Idle(s'.disk) && (s'.place.Driving? || s'.place.Refused?)
  {
  }

  lemma IdleRefusesWork(budgets: Budgets, s: Sys, e: Event)
    requires Next(budgets, s, e).Some? && Idle(s.disk)
    ensures s.place.Driving? || s.place.Refused? ==> !e.Implement?
  {
  }

  lemma ReviewLeavesIdle(budgets: Budgets, s: Sys)
    requires Inv(budgets, s) && Next(budgets, s, Moved(ChangeReviewGate, Implementation)).Some?
    ensures var s' := Next(budgets, s, Moved(ChangeReviewGate, Implementation)).value;
            Idle(s'.disk) && s'.place.Driving?
  {
  }

  /**
   * After "request_changes" at the change review, every subtask is already complete and there is no
   * failure to fix, so the same code is verified again: the backend is never called before the next
   * verification, whatever feedback came with it.
   */
  lemma {:induction false} RequestedChangesAreNotImplemented(budgets: Budgets, log: seq<Event>, i: nat, k: nat)
    requires History(budgets, log) && i < k < |log| && log[i] == Moved(ChangeReviewGate, Implementation)
    requires forall m | i < m < k :: !log[m].Verify?
    ensures !log[k].Implement?
    ensures var s := SysAt(budgets, log, k);
            Idle(s.disk) && (s.place.Driving? || s.place.Refused?)
    decreases k
  {
    hide Exec, History, Inv, Next, SysAt;
    if k == i + 1 {
      var before := StateAt(budgets, log, i);
      ReviewLeavesIdle(budgets, before);
    } else {
      RequestedChangesAreNotImplemented(budgets, log, i, k - 1);
      var before := StateAt(budgets, log, k - 1);
      IdleStep(budgets, before, log[k - 1]);
    }
    var s := StateAt(budgets, log, k);
    IdleRefusesWork(budgets, s, log[k]);
  }

  // ---- "Continue" at verification -------------------------------------------------

  /** "continue" on a question raised at verification verifies again before any fix-up can run. */
  lemma ContinueAtVerificationReverifies(budgets: Budgets, s: Sys, result: VerificationResult, work: Work, diffs: Diffs)
    requires Inv(budgets, s) && PendingCheckpoint(s.disk) && s.disk.run.stage.Verification?
    ensures s.disk.progress.Some?
    ensures var q := s.disk.run.pointer.value;
            var t := Steps(budgets, s, [Called(ResolveCheckpoint("continue")),
                                        PointerSaved(q.(status := Resolved("continue"))),
                                        ProgressSaved(AfterAnswer(s.disk.progress.value, q))]);
            && t.Some?
            && t.value.disk.progress.Some?
            && t.value.disk.progress.value.failureSummary == s.disk.progress.value.failureSummary
            && Next(budgets, t.value, Implement(work, diffs)).None?
            && Next(budgets, t.value, Verify(result)).Some?
  {
    hide PlanFor, Triggers, AfterWork, AfterVerify, WellPlanned, LinearExtension;
    var q := s.disk.run.pointer.value;
    var _ := Steps3(budgets, s, Called(ResolveCheckpoint("continue")),
                    PointerSaved(q.(status := Resolved("continue"))),
                    ProgressSaved(AfterAnswer(s.disk.progress.value, q)));
  }

  // ---- A parallel answer with nothing in it ----------------------------------

  /** A batch answer completes something exactly if it holds a diff. */
  lemma BatchProgressIff(a: PlanArtifact, p: RunProgress, work: Work, diffs: seq<DiffOutput>)
    requires Due(a, p) == Some(work) && work.Batch?
    ensures Undone(a.tasks, AfterWork(p, work, Some(diffs)).completed) < Undone(a.tasks, p.completed) <==> diffs != []
    ensures diffs == [] ==> AfterWork(p, work, Some(diffs)) == p.(failures := 0)
  {
    var n := Min(|work.tasks|, |diffs|);
    AbsorbedCompletes(p, work.tasks, diffs, n);
    BatchAdvances(a.tasks, p.completed, NextSubtask(a.tasks, p.completed).value, n);
    assert IdsOf(work.tasks[..0]) == [];
  }

  lemma {:induction false} StepsConcat(budgets: Budgets, s: Sys, first: seq<Event>, rest: seq<Event>)
    ensures Steps(budgets, s, first + rest) ==
            match Steps(budgets, s, first) case None => None case Some(t) => Steps(budgets, t, rest)
    decreases |first|
  {
    hide Exec, History, Inv, Next, SysAt;
    if first == [] {
      assert first + rest == rest;
    } else {
      assert (first + rest)[1..] == first[1..] + rest;
      if Next(budgets, s, first[0]).Some? {
        StepsConcat(budgets, Next(budgets, s, first[0]).value, first[1..], rest);
      }
    }
  }

  /** The state a parallel call can be made in, with no failure counted. */
  predicate ParallelDue(s: Sys, tasks: seq<PlannedTask>) {
    && s.place.Driving? && !PendingCheckpoint(s.disk) && s.disk.run.stage.Implementation?
    && s.disk.latest.Some? && s.disk.progress.Some? && s.disk.progress.value.failures == 0
    && Due(s.disk.latest.value, s.disk.progress.value) == Some(Batch(tasks)) && |tasks| >= 2
  }

  /**
   * An empty answer to a parallel call is neither a success nor a failure. As often as it comes, the
   * drive loop is back in the very same state exactly if every reading of the clock was a quiet one;
   * a clock that moves on soon runs out of those (FewQuietReadings).
   */
  lemma {:induction false} EmptyAnswersLoopIff(budgets: Budgets, s: Sys, tasks: seq<PlannedTask>, readings: seq<real>)
    requires Inv(budgets, s) && ParallelDue(s, tasks)
    ensures Steps(budgets, s, Rounds(tasks, s.disk.progress.value, readings)) == Some(s) <==>
            forall i | 0 <= i < |readings| :: NothingToAsk(budgets, s.disk.latest.value, s.disk.progress.value, readings[i])
    decreases |readings|
  {
    var p := s.disk.progress.value;
    if readings != [] {
      var rest := Rounds(tasks, p, readings[1..]);
      OneRound(budgets, s, tasks, readings[0]);
      StepsConcat(budgets, s, Round(tasks, p, readings[0]), rest);
      hide Steps, NothingToAsk, Due;
      EmptyAnswersLoopIff(budgets, s, tasks, readings[1..]);
      assert forall i | 0 < i < |readings| :: readings[1..][i - 1] == readings[i];
      if !NothingToAsk(budgets, s.disk.latest.value, p, readings[0]) {
        AskingStopsRounds(budgets, Steps(budgets, s, Round(tasks, p, readings[0])).value, tasks, p, readings[1..]);
      }
    }
  }

  lemma OneRound(budgets: Budgets, s: Sys, tasks: seq<PlannedTask>, elapsed: real)
    requires Inv(budgets, s) && ParallelDue(s, tasks)
    ensures var after := Steps(budgets, s, Round(tasks, s.disk.progress.value, elapsed));
            && after.Some?
            && (if NothingToAsk(budgets, s.disk.latest.value, s.disk.progress.value, elapsed) then after == Some(s)
                else after.value.place.Raising?)
  {
    var p := s.disk.progress.value;
    BatchProgressIff(s.disk.latest.value, p, Batch(tasks), []);
    EmptyAnswerSteps(budgets, s, tasks, elapsed);
    var _ := Steps3(budgets, s, Implement(Batch(tasks), Some([])), ProgressSaved(p), ClockRead(elapsed));
  }

  lemma AskingStopsRounds(budgets: Budgets, s: Sys, tasks: seq<PlannedTask>, p: RunProgress, readings: seq<real>)
    requires s.place.Raising?
    ensures var after := Steps(budgets, s, Rounds(tasks, p, readings));
            after.Some? ==> after.value.place.Raising?
  {
  }

  lemma EmptyAnswerSteps(budgets: Budgets, s: Sys, tasks: seq<PlannedTask>, elapsed: real)
    requires ParallelDue(s, tasks)
    requires AfterWork(s.disk.progress.value, Batch(tasks), Some([])) == s.disk.progress.value
    ensures var asked := s.(place := Implemented(Batch(tasks), Some([])));
            && Next(budgets, s, Implement(Batch(tasks), Some([]))) == Some(asked)
            && Next(budgets, asked, ProgressSaved(s.disk.progress.value)) == Some(s.(place := Checking))
            && Next(budgets, s.(place := Checking), ClockRead(elapsed)).Some?
            && var after := Next(budgets, s.(place := Checking), ClockRead(elapsed)).value;
               if NothingToAsk(budgets, s.disk.latest.value, s.disk.progress.value, elapsed) then after == s else after.place.Raising?
  {
    hide Triggers, ReadySubtaskBatch, AfterWork, NextSubtask;
    assert s.disk.(progress := s.disk.progress) == s.disk;
  }

  // ---- How long a failing streak can be ---------------------------------------

  /** The first count above f that is not acknowledged: where a streak that has reached f pauses. */
  function Limit(p: RunProgress): nat {
    p.failures + FailuresLeft(p.failures, p.acked)
  }

  /** The streak is heading for limit, or has reached it and is on its way to a pause. */
  predicate StreakOk(s: Sys, limit: nat) {
    && s.disk.progress.Some? && s.disk.latest.Some?
    && (var p := s.disk.progress.value;
        || (p.failures < limit && Limit(p) == limit)
        || (p.failures == limit && limit >= STUCK_RETRY_BUDGET && Stuck(limit, STUCK_RETRY_BUDGET) !in p.acked
            && (s.place.CountingFailure? || s.place == Raising(Stuck(limit, STUCK_RETRY_BUDGET)) || (PendingCheckpoint(s.disk) && !s.place.Answering?))))
  }

  /** One event of an uninterrupted, unsuccessful stretch. */
  predicate NoReset(s: Sys, e: Event, s': Sys) {
    && !e.Called?
    && s.disk.progress.Some? && s'.disk.progress.Some?
    && s'.disk.progress.value.failures >= s.disk.progress.value.failures
    && s'.disk.progress.value.acked == s.disk.progress.value.acked
  }

  lemma StreakStep(budgets: Budgets, s: Sys, e: Event, limit: nat)
    requires Inv(budgets, s) && Next(budgets, s, e).Some? && StreakOk(s, limit)
    requires NoReset(s, e, Next(budgets, s, e).value)
    ensures StreakOk(Next(budgets, s, e).value, limit)
  {
    hide WellPlanned, LinearExtension, PlanFor, PlanStoreOk, NextSubtask;
    var s' := Next(budgets, s, e).value;
    var p, p' := s.disk.progress.value, s'.disk.progress.value;
    FailuresLeftIsFirst(p.failures, p.acked);
    if p.failures < limit && p'.failures > p.failures {
      assert p'.failures == p.failures + 1;
      FailuresLeftIsFirst(p'.failures, p'.acked);
      assert Stuck(p.failures + FailuresLeft(p.failures, p.acked), STUCK_RETRY_BUDGET) !in p.acked;
    }
    if p.failures == limit && e.ClockRead? {
      StuckIsAsked(budgets, s, e.elapsed);
    }
  }

  lemma StuckIsAsked(budgets: Budgets, s: Sys, elapsed: real)
    requires Inv(budgets, s) && s.place.CountingFailure? && s.disk.latest.Some?
    requires s.disk.progress.value.failures >= STUCK_RETRY_BUDGET
    requires Stuck(s.disk.progress.value.failures, STUCK_RETRY_BUDGET) !in s.disk.progress.value.acked
    ensures ReadingClock(budgets, s, elapsed).Some?
    ensures ReadingClock(budgets, s, elapsed).value.place ==
            Raising(Stuck(s.disk.progress.value.failures, STUCK_RETRY_BUDGET))
  {
    hide EvaluateCheckpoints, Unacknowledged, FirstStuck, Inv, ResolveBudget, NextSubtask;
    LatestResolves(budgets, s);
    var a, p := s.disk.latest.value, s.disk.progress.value;
    StuckPresented(Measure(a, p, elapsed), ResolveBudget(a.storySize, a.highRisk, budgets).value, p.acked);
  }

  lemma LatestResolves(budgets: Budgets, s: Sys)
    requires Inv(budgets, s) && s.place.CountingFailure? && s.disk.latest.Some?
    ensures s.disk.progress.Some?
    ensures ResolveBudget(s.disk.latest.value.storySize, s.disk.latest.value.highRisk, budgets).Success?
  {
    hide LinearExtension, NextSubtask, ResolveBudget;
  }

  /**
   * Between two successes, one process counts at most FailuresLeft failures before it pauses, and so
   * at most the plain budget plus one per stuck count a human acknowledged earlier.
   */
  lemma {:induction false} StreakIsBounded(budgets: Budgets, log: seq<Event>, i: nat, j: nat)
    requires History(budgets, log) && i <= j <= |log|
    requires var d := DiskAt(budgets, log, i); d.progress.Some? && d.latest.Some?
    requires forall k | i <= k < j :: StepAt(budgets, log, k)
    ensures var d, d' := DiskAt(budgets, log, i), DiskAt(budgets, log, j);
            && d'.progress.Some?
            && StreakOk(SysAt(budgets, log, j), Limit(d.progress.value))
            && d'.progress.value.failures <= d.progress.value.failures
                 + (if d.progress.value.failures < 2 then STUCK_RETRY_BUDGET - d.progress.value.failures else 1)
                 + |AckedAbove(d.progress.value.failures, d.progress.value.acked)|
    decreases j
  {
    hide Exec, History, Inv, Next, SysAt;
    var d := DiskAt(budgets, log, i);
    RetryBudgetBound(d.progress.value.failures, d.progress.value.acked);
    FailuresLeftIsFirst(d.progress.value.failures, d.progress.value.acked);
    var s' := StateAt(budgets, log, j);
    if i < j {
      StreakIsBounded(budgets, log, i, j - 1);
      assert StepAt(budgets, log, j - 1);
      var s := StateAt(budgets, log, j - 1);
      StreakStep(budgets, s, log[j - 1], Limit(d.progress.value));
    }
  }

  predicate StepAt(budgets: Budgets, log: seq<Event>, k: nat)
    requires History(budgets, log)
  {
    k < |log| && NoReset(SysAt(budgets, log, k), log[k], SysAt(budgets, log, k + 1))
  }
}
