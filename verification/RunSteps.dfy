/**
 * What each event of a history comes from and what it leads to, over every history: the protocol between
 * calls, outside answers, saved records, questions, plans and moves, read off the log.
 */
module RunSteps {
  import opened Common
  import opened Stages
  import opened Checkpoints
  import opened Plans
  import opened Scheduling
  import opened RunMachine
  import opened RunInvariants
  import opened RunTheorems
  import RunRecord

  // ---- One step: where a place comes from, and where it leads ------------------------

  /** The event that took the process to where it is. */
  lemma CameBy(budgets: Budgets, s: Sys, e: Event)
    requires Next(budgets, s, e).Some?
    ensures var place := Next(budgets, s, e).value.place;
            && (place.Raising? ==> e.ClockRead? && (s.place.Checking? || s.place.CountingFailure?))
            && (place.Checking? ==> e.ProgressSaved? && s.place.Implemented? && s.place.diffs.Some? && s.place.work.Batch?)
            && (place.CountingFailure? ==>
                 e.ProgressSaved? && ((s.place.Implemented? && s.place.diffs.None?) || (s.place.Verified? && !s.place.result.passed)))
            && (place.Implemented? ==> e == Implement(place.work, place.diffs))
            && (place.Verified? ==> e == Verify(place.result))
            && (place.Answered? ==> e == PointerSaved(place.question.(status := Resolved(place.decision))))
            && (place.Answering? ==> e == Called(ResolveCheckpoint(place.decision)))
            && (place.HalfSaved? ==> e == PlanVersionSaved(place.artifact))
            && (place.RePlanning? ==> e.AttemptAppended?)
            && (place.RePlanAsked? ==> e == Called(ApprovePlan("request_changes")))
  {
    hide Triggers, PlanFor, NextSubtask, AfterWork, Due;
  }

  lemma EnteredBy(budgets: Budgets, s: Sys, e: Event)
    requires Next(budgets, s, e).Some? && Next(budgets, s, e).value.place.Entering?
    ensures match Next(budgets, s, e).value.place.next
            case PlanApprovalGate => e.PlanLatestSaved?
            case Implementation =>
              || e == Called(ApprovePlan("approve")) || e == Called(ApproveChangeReview("request_changes"))
              || (e.ClockRead? && s.place.CountingFailure? && s.disk.run.stage.Verification?)
            case ChangeReviewGate => e.ProgressSaved? && s.place.Verified? && s.place.result.passed
            case _ => true
    ensures e == Called(ApprovePlan("approve")) ==> s.disk.run.stage.PlanApprovalGate?
    ensures e == Called(ApproveChangeReview("request_changes")) ==> s.disk.run.stage.ChangeReviewGate?
    ensures Next(budgets, s, e).value.disk.run.stage == s.disk.run.stage
  {
    hide Triggers, PlanFor, NextSubtask, AfterWork, Due;
  }

  // ---- Calls -------------------------------------------------------------------------

  /** What a call may do first. A call at the wrong stage, or with an unknown decision, does nothing at all. */
  predicate CallLeadsTo(d: Disk, call: Call, e: Event) {
    match call
    case ApprovePlan(decision) =>
      && d.run.stage.PlanApprovalGate?
      && (decision == "approve" ==> e == Moved(PlanApprovalGate, Implementation))
      && (decision == "request_changes" ==> e.AttemptAppended?)
      && (decision == "reject" ==> e == Moved(PlanApprovalGate, Abandoned))
      && decision in ["approve", "request_changes", "reject"]
    case ApproveChangeReview(decision) =>
      && d.run.stage.ChangeReviewGate?
      && (decision == "approve" ==> e == Moved(ChangeReviewGate, Packaging))
      && (decision == "request_changes" ==> e == Moved(ChangeReviewGate, Implementation))
      && (decision == "reject" ==> e == Moved(ChangeReviewGate, Abandoned))
      && decision in ["approve", "request_changes", "reject"]
    case ResolveCheckpoint(decision) =>
      PendingCheckpoint(d) && e == PointerSaved(d.run.pointer.value.(status := Resolved(decision)))
    case Resume =>
      && !PendingCheckpoint(d)
      && (match d.run.stage
          case Intake => e == Moved(Intake, Research)
          case Research => e == Moved(Research, PlanAuthoring)
          case PlanAuthoring => e.PlanReturned?
          case Implementation =>
            if d.progress.None? then e.ProgressSaved? else e.Implement? || e == Moved(Implementation, Verification)
          case Verification => e.Verify?
          case Packaging => e.Packaged?
          case Retrospective => e == Moved(Retrospective, Completed)
          case _ => false)
  }

  lemma CallStep(budgets: Budgets, s: Sys, call: Call, e: Event)
    requires Inv(budgets, s) && !e.Called? && Next(budgets, s.(place := Entry(s.disk, call)), e).Some?
    ensures CallLeadsTo(s.disk, call, e)
  {
    hide WellPlanned, LinearExtension, Triggers, PlanFor, PlanStoreOk, NextSubtask, AfterWork;
  }

  /** Every call leads to the write or the outside call it stands for, and to nothing else. */
  lemma CallsLeadTo(budgets: Budgets, log: seq<Event>, k: nat)
    requires History(budgets, log) && k + 1 < |log| && log[k].Called? && !log[k + 1].Called?
    ensures CallLeadsTo(DiskAt(budgets, log, k), log[k].call, log[k + 1])
  {
    hide Exec, History, Inv, Next, SysAt, CallLeadsTo, Entry;
    var s, s' := Happened(budgets, log, k);
    var _, _ := Happened(budgets, log, k + 1);
    CalledIs(budgets, s, log[k].call);
    CallStep(budgets, s, log[k].call, log[k + 1]);
  }

  lemma CalledIs(budgets: Budgets, s: Sys, call: Call)
    ensures Next(budgets, s, Called(call)) == Some(s.(place := Entry(s.disk, call)))
  {
  }

  /** The calls that are not refused. */
  predicate Accepted(d: Disk, call: Call) {
    match call
    case ApprovePlan(decision) => d.run.stage.PlanApprovalGate? && decision in ["approve", "request_changes", "reject"]
    case ApproveChangeReview(decision) => d.run.stage.ChangeReviewGate? && decision in ["approve", "request_changes", "reject"]
    case ResolveCheckpoint(_) => PendingCheckpoint(d)
    case Resume => !PendingCheckpoint(d) && !d.run.stage.PlanApprovalGate? && !d.run.stage.ChangeReviewGate? && !Terminal(d.run.stage)
  }

  /** An event with which an accepted call can go on. */
  lemma SomeEvent(budgets: Budgets, s: Sys, call: Call) returns (e: Event)
    requires Inv(budgets, s) && Accepted(s.disk, call)
    ensures !e.Called? && Next(budgets, s.(place := Entry(s.disk, call)), e).Some?
  {
    hide WellPlanned, LinearExtension, Triggers, PlanFor, PlanStoreOk, NextSubtask, AfterWork;
    var d := s.disk;
    match call
    case ApprovePlan(decision) =>
      e := if decision == "approve" then Moved(PlanApprovalGate, Implementation)
           else if decision == "reject" then Moved(PlanApprovalGate, Abandoned) else AttemptAppended;
    case ApproveChangeReview(decision) =>
      e := Moved(ChangeReviewGate, if decision == "approve" then Packaging else if decision == "reject" then Abandoned else Implementation);
    case ResolveCheckpoint(decision) => e := PointerSaved(d.run.pointer.value.(status := Resolved(decision)));
    case Resume => e := SomeResumed(budgets, s);
  }

  lemma SomeResumed(budgets: Budgets, s: Sys) returns (e: Event)
    requires Inv(budgets, s) && Accepted(s.disk, Resume)
    ensures !e.Called? && Next(budgets, s.(place := Driving), e).Some?
  {
    hide WellPlanned, LinearExtension, Triggers, PlanFor, PlanStoreOk, NextSubtask, AfterWork;
    var d := s.disk;
    match d.run.stage
    case Intake => e := Moved(Intake, Research);
    case Research => e := Moved(Research, PlanAuthoring);
    case PlanAuthoring => e := PlanReturned(PlanOutput("", [], [], [], [], "", false, "", "", "", "", []));
    case Implementation =>
      if d.progress.None? {
        e := ProgressSaved(FreshProgress(d.run.attempt, 0.0));
      } else if Due(d.latest.value, d.progress.value).Some? {
        e := Implement(Due(d.latest.value, d.progress.value).value, None);
      } else {
        e := Moved(Implementation, Verification);
      }
    case Verification => e := Verify(VerificationResult(true, ""));
    case Packaging => e := Packaged(true);
    case Retrospective => e := Moved(Retrospective, Completed);
  }

  /** And a call can go on exactly if it is accepted: the right stage, a known decision, something pending or something to drive. */
  lemma CallsActIff(budgets: Budgets, log: seq<Event>, call: Call)
    requires History(budgets, log)
    ensures (exists e: Event :: !e.Called? && History(budgets, log + [Called(call)] + [e])) <==>
            Accepted(DiskAt(budgets, log, |log|), call)
  {
    hide Exec, History, Inv, Next, SysAt, CallLeadsTo, Accepted, Entry;
    var s := StateAt(budgets, log, |log|);
    assert log[..|log|] == log;
    var called := s.(place := Entry(s.disk, call));
    CalledIs(budgets, s, call);
    OneMoreEvent(budgets, log, s, Called(call));
    var longer := log + [Called(call)];
    if Accepted(s.disk, call) {
      var e := SomeEvent(budgets, s, call);
      OneMoreEvent(budgets, longer, called, e);
    }
    forall e: Event | !e.Called? && History(budgets, longer + [e]) ensures Accepted(s.disk, call) {
      OneMoreEvent(budgets, longer, called, e);
      CallStep(budgets, s, call, e);
      LeadsAccepted(s.disk, call, e);
    }
  }

  lemma LeadsAccepted(d: Disk, call: Call, e: Event)
    requires CallLeadsTo(d, call, e)
    ensures Accepted(d, call)
  {
  }

  lemma OneMoreEvent(budgets: Budgets, log: seq<Event>, s: Sys, e: Event)
    requires Exec(budgets, log) == Some(s)
    ensures Exec(budgets, log + [e]) == Next(budgets, s, e)
    ensures History(budgets, log + [e]) <==> Next(budgets, s, e).Some?
  {
    ExecAppend(budgets, log, e);
    hide Exec, Next;
  }

  // ---- Outside answers -----------------------------------------------------------------

  lemma AnswerStep(budgets: Budgets, s: Sys, e: Event)
    requires Next(budgets, s, e).Some? && !e.Called?
    ensures s.place.Implemented? || s.place.Verified? ==> e.ProgressSaved?
    ensures s.place.Implemented? ==>
              Next(budgets, s, e).value.place == if s.place.diffs.None? then CountingFailure
                                                 else if s.place.work.FixUp? then Entering(Verification) else Checking
    ensures s.place.Verified? ==>
              Next(budgets, s, e).value.place == if s.place.result.passed then Entering(ChangeReviewGate) else CountingFailure
    ensures Next(budgets, s, e).value.disk.run.stage == s.disk.run.stage || e.Moved? || e.AttemptAppended?
    ensures s.place.Checking? || s.place.CountingFailure? ==> e.ClockRead?
    ensures s.place.Entering? ==> e == Moved(s.disk.run.stage, s.place.next)
  {
    hide Triggers, PlanFor, NextSubtask, AfterWork, Due;
  }

  lemma AskedOutside(budgets: Budgets, s: Sys, e: Event)
    requires Next(budgets, s, e).Some?
    ensures e.Implement? ==> s.disk.run.stage.Implementation? && Next(budgets, s, e).value.place == Implemented(e.work, e.diffs)
    ensures e.Verify? ==> s.disk.run.stage.Verification? && Next(budgets, s, e).value.place == Verified(e.result)
    ensures e.Implement? || e.Verify? ==> Next(budgets, s, e).value.disk == s.disk
  {
  }

  /**
   * What the backend or the verifier answered is saved before anything else, and then: a pass opens the
   * change review, a fix-up is verified, and everything else reads the clock to see what to ask.
   */
  lemma AnswersLeadTo(budgets: Budgets, log: seq<Event>, k: nat)
    requires History(budgets, log) && k + 1 < |log| && (log[k].Implement? || log[k].Verify?) && !log[k + 1].Called?
    ensures log[k + 1].ProgressSaved?
    ensures k + 2 < |log| && !log[k + 2].Called? ==>
              if log[k].Verify? && log[k].result.passed then log[k + 2] == Moved(Verification, ChangeReviewGate)
              else if log[k].Implement? && log[k].work.FixUp? && log[k].diffs.Some? then
                log[k + 2] == Moved(Implementation, Verification)
              else log[k + 2].ClockRead?
  {
    hide Exec, History, Inv, Next, SysAt;
    var s, s' := Happened(budgets, log, k);
    var _, s'' := Happened(budgets, log, k + 1);
    AskedOutside(budgets, s, log[k]);
    AnswerStep(budgets, s', log[k + 1]);
    if k + 2 < |log| && !log[k + 2].Called? {
      var _, _ := Happened(budgets, log, k + 2);
      AnswerStep(budgets, s'', log[k + 2]);
    }
  }

  /** Nothing of the plan is ready. */
  predicate NoneReady(tasks: seq<PlannedTask>, done: seq<string>) {
    forall t | t in tasks :: !Ready(t, done)
  }

  // ---- Questions -------------------------------------------------------------------------

  /** What a checkpoint evaluation looks at, taken from the disk. */
  function MeasuredOn(d: Disk, elapsed: real): Measured
    requires d.latest.Some? && d.progress.Some?
  {
    var p := d.progress.value;
    Measured(p.files, p.lines, d.latest.value.inScope, elapsed, p.spend, p.failures)
  }

  /** t is a violation on this disk, at this reading, that nobody has answered. */
  ghost predicate Unanswered(budgets: Budgets, d: Disk, elapsed: real, t: Trigger)
    requires d.latest.Some? && d.progress.Some?
  {
    match ResolveBudget(d.latest.value.storySize, d.latest.value.highRisk, budgets)
    case Failure(_) => false
    case Success(budget) => Fires(t, MeasuredOn(d, elapsed), budget) && t !in d.progress.value.acked
  }

  /** The record saved at k - 1 came from a batch that was answered. */
  predicate BatchWasSaved(log: seq<Event>, k: nat) {
    2 <= k <= |log| && log[k - 1].ProgressSaved? && log[k - 2].Implement? && log[k - 2].work.Batch? && log[k - 2].diffs.Some?
  }

  /** It came from a call that raised, or from a failed verification. */
  predicate FailureWasSaved(log: seq<Event>, k: nat) {
    && 2 <= k <= |log| && log[k - 1].ProgressSaved?
    && ((log[k - 2].Implement? && log[k - 2].diffs.None?) || (log[k - 2].Verify? && !log[k - 2].result.passed))
  }

  lemma EvaluatedAt(budgets: Budgets, d: Disk, elapsed: real)
    requires d.latest.Some? && d.progress.Some?
    ensures var ts := Triggers(budgets, d.latest.value, d.progress.value, elapsed);
            && (ts == [] <==> forall t :: !Unanswered(budgets, d, elapsed, t))
            && (ts != [] ==>
                 && Unanswered(budgets, d, elapsed, ts[0])
                 && forall t :: Unanswered(budgets, d, elapsed, t) ==> t == ts[0] || Rank(ts[0]) < Rank(t))
            && (forall t :: FirstStuck(ts) == Some(t) <==> t.Stuck? && Unanswered(budgets, d, elapsed, t))
  {
    hide EvaluateCheckpoints, Unacknowledged, FirstStuck, Fires, Rank;
    var budget := ResolveBudget(d.latest.value.storySize, d.latest.value.highRisk, budgets);
    var p := d.progress.value;
    if budget.Success? {
      var m := MeasuredOn(d, elapsed);
      PresentedRanksFirst(m, budget.value, p.acked);
      StuckPresented(m, budget.value, p.acked);
      StuckFires(m, budget.value);
      assert Triggers(budgets, d.latest.value, p, elapsed) == Unacknowledged(EvaluateCheckpoints(m, budget.value), p.acked);
      forall t ensures Unanswered(budgets, d, elapsed, t) <==> Fires(t, m, budget.value) && t !in p.acked {
      }
      hide Unanswered;
    }
  }

  lemma StuckFires(m: Measured, budget: Budget)
    ensures forall t: Trigger :: t.Stuck? && Fires(t, m, budget) <==> t == Stuck(m.failures, 3) && m.failures >= 3
    ensures FirstStuck([]).None?
  {
  }

  /** How the process goes on from a reading of the clock. */
  lemma ClockStep(budgets: Budgets, s: Sys, e: Event)
    requires e.ClockRead? && Next(budgets, s, e).Some?
    ensures s.disk.latest.Some? && s.disk.progress.Some? && Next(budgets, s, e).value.disk == s.disk
    ensures var ts := Triggers(budgets, s.disk.latest.value, s.disk.progress.value, e.elapsed);
            var place := Next(budgets, s, e).value.place;
            && (s.place.Checking? || s.place.CountingFailure?)
            && (s.place.Checking? ==>
                 if ts != [] then place == Raising(ts[0])
                 else if NextSubtask(s.disk.latest.value.tasks, s.disk.progress.value.completed).Some? then place == Driving
                 else place == Entering(Verification))
            && (s.place.CountingFailure? ==>
                 if FirstStuck(ts).Some? then place == Raising(FirstStuck(ts).value)
                 else if s.disk.run.stage.Verification? then place == Entering(Implementation) else place == Driving)
  {
    hide Triggers, NextSubtask, FirstStuck;
  }

  lemma RaisedStep(budgets: Budgets, s: Sys, e: Event)
    requires Next(budgets, s, e).Some? && !e.Called?
    ensures s.place.Raising? ==> e == PointerSaved(Elicitation(s.place.trigger, s.disk.run.stage, Pending))
    ensures Asks(e) ==> s.place.Raising?
    ensures s.place.Driving? && s.disk.run.stage.Implementation? && s.disk.progress.Some? && s.disk.latest.Some?
            && !PendingCheckpoint(s.disk) ==>
              if Due(s.disk.latest.value, s.disk.progress.value).Some? then e.Implement? else e == Moved(Implementation, Verification)
  {
    hide Triggers, PlanFor, NextSubtask, AfterWork, Due;
  }

  /** The reading at k, the record before it, and the outside answer before that. */
  lemma BeforeClock(budgets: Budgets, log: seq<Event>, k: nat) returns (s: Sys, s': Sys)
    requires History(budgets, log) && k < |log| && log[k].ClockRead?
    ensures s == SysAt(budgets, log, k) && s' == SysAt(budgets, log, k + 1)
    ensures Inv(budgets, s) && Inv(budgets, s') && Next(budgets, s, log[k]) == Some(s')
    ensures s.place.Checking? ==> BatchWasSaved(log, k)
    ensures s.place.CountingFailure? ==> FailureWasSaved(log, k)
    ensures s.place.Checking? || s.place.CountingFailure?
  {
    hide Exec, History, Inv, Next, SysAt;
    s, s' := Happened(budgets, log, k);
    ClockStep(budgets, s, log[k]);
    FirstState(budgets, log);
    if k > 0 {
      var t, _ := Happened(budgets, log, k - 1);
      CameBy(budgets, t, log[k - 1]);
      if k > 1 {
        var u, _ := Happened(budgets, log, k - 2);
        CameBy(budgets, u, log[k - 2]);
      }
    }
  }

  /**
   * A question is asked right after a reading of the clock. After a batch it is the unanswered violation that
   * ranks first, of any kind; after a failure it is about being stuck.
   */
  lemma QuestionsComeFrom(budgets: Budgets, log: seq<Event>, k: nat)
    requires History(budgets, log) && k < |log| && Asks(log[k])
    ensures k > 0 && log[k - 1].ClockRead?
    ensures var d := DiskAt(budgets, log, k);
            d.latest.Some? && d.progress.Some? && log[k].pointer.stage == d.run.stage
    ensures var d, t := DiskAt(budgets, log, k), log[k].pointer.trigger;
            && Unanswered(budgets, d, log[k - 1].elapsed, t)
            && (BatchWasSaved(log, k - 1) ==>
                 forall u :: Unanswered(budgets, d, log[k - 1].elapsed, u) ==> u == t || Rank(t) < Rank(u))
            && (BatchWasSaved(log, k - 1) || (FailureWasSaved(log, k - 1) && t.Stuck?))
  {
    hide Exec, History, Inv, Next, SysAt, Unanswered, Rank, Triggers, NextSubtask, FirstStuck;
    var s, _ := Happened(budgets, log, k);
    RaisedStep(budgets, s, log[k]);
    FirstState(budgets, log);
    var before, _ := Happened(budgets, log, k - 1);
    CameBy(budgets, before, log[k - 1]);
    var b, _ := BeforeClock(budgets, log, k - 1);
    ClockStep(budgets, b, log[k - 1]);
    EvaluatedAt(budgets, b.disk, log[k - 1].elapsed);
    AskedAbout(budgets, b.disk, log[k - 1].elapsed, log[k].pointer.trigger);
  }

  lemma AskedAbout(budgets: Budgets, d: Disk, elapsed: real, t: Trigger)
    requires d.latest.Some? && d.progress.Some?
    ensures FirstStuck(Triggers(budgets, d.latest.value, d.progress.value, elapsed)) == Some(t) ==>
              t.Stuck? && Unanswered(budgets, d, elapsed, t)
  {
    hide Triggers, Unanswered, FirstStuck;
    EvaluatedAt(budgets, d, elapsed);
  }

  /**
   * And conversely: after a reading, unless the process dies, something is asked exactly if a violation is
   * unanswered (after a failure: exactly if being stuck is). Otherwise the work goes on, or is verified.
   */
  lemma ReadingsLeadTo(budgets: Budgets, log: seq<Event>, k: nat)
    requires History(budgets, log) && k + 1 < |log| && log[k].ClockRead? && !log[k + 1].Called?
    ensures var d := DiskAt(budgets, log, k); d.latest.Some? && d.progress.Some?
    ensures BatchWasSaved(log, k) || FailureWasSaved(log, k)
    ensures var d, e := DiskAt(budgets, log, k), log[k + 1];
            && (BatchWasSaved(log, k) ==>
                 && (Asks(e) <==> exists t :: Unanswered(budgets, d, log[k].elapsed, t))
                 && (!Asks(e) ==> if NoneReady(d.latest.value.tasks, d.progress.value.completed)
                                  then e == Moved(Implementation, Verification) else e.Implement?))
            && (FailureWasSaved(log, k) ==>
                 && (Asks(e) <==> exists t: Trigger :: t.Stuck? && Unanswered(budgets, d, log[k].elapsed, t))
                 && (!Asks(e) ==> if d.run.stage.Verification? then e == Moved(Verification, Implementation) else e.Implement?))
  {
    hide Exec, History, Inv, Next, SysAt, Unanswered, Rank, Triggers, NextSubtask, FirstStuck, Due, NoneReady;
    var s, s' := BeforeClock(budgets, log, k);
    var _, _ := Happened(budgets, log, k + 1);
    ClockStep(budgets, s, log[k]);
    EvaluatedAt(budgets, s.disk, log[k].elapsed);
    RaisedStep(budgets, s', log[k + 1]);
    AnswerStep(budgets, s', log[k + 1]);
    AtWork(budgets, s);
    if FailureWasSaved(log, k) {
      if log[k - 2].Implement? {
        StillDue(budgets, log, k);
      } else {
        StillVerifying(budgets, log, k);
      }
    }
  }

  /** A call that raised leaves the same thing to do. */
  lemma StillDue(budgets: Budgets, log: seq<Event>, k: nat)
    requires History(budgets, log) && 2 <= k <= |log| && log[k - 1].ProgressSaved? && log[k - 2].Implement? && log[k - 2].diffs.None?
    ensures var d := DiskAt(budgets, log, k);
            && d.run.stage.Implementation? && d.latest.Some? && d.progress.Some?
            && Due(d.latest.value, d.progress.value) == Some(log[k - 2].work)
  {
    hide Exec, History, Inv, Next, SysAt;
    var s, t := Happened(budgets, log, k - 2);
    var _, u := Happened(budgets, log, k - 1);
    RaisedKeepsDue(budgets, s, log[k - 2], t, log[k - 1], u);
  }

  lemma StillVerifying(budgets: Budgets, log: seq<Event>, k: nat)
    requires History(budgets, log) && 2 <= k <= |log| && log[k - 1].ProgressSaved? && log[k - 2].Verify?
    ensures DiskAt(budgets, log, k).run.stage.Verification?
  {
    hide Exec, History, Inv, Next, SysAt;
    var s, t := Happened(budgets, log, k - 2);
    var _, u := Happened(budgets, log, k - 1);
    AskedOutside(budgets, s, log[k - 2]);
    AnswerStep(budgets, t, log[k - 1]);
  }

  lemma RaisedKeepsDue(budgets: Budgets, s: Sys, e: Event, t: Sys, e': Event, u: Sys)
    requires Next(budgets, s, e) == Some(t) && Next(budgets, t, e') == Some(u)
    requires e.Implement? && e.diffs.None? && e'.ProgressSaved?
    ensures u.disk.run.stage.Implementation? && u.disk.latest.Some? && u.disk.progress.Some?
    ensures Due(u.disk.latest.value, u.disk.progress.value) == Some(e.work)
  {
    hide Triggers, PlanFor, NextSubtask, ReadySubtaskBatch;
  }

  lemma AtWork(budgets: Budgets, s: Sys)
    requires Inv(budgets, s) && (s.place.Checking? || s.place.CountingFailure?) && s.disk.latest.Some? && s.disk.progress.Some?
    ensures !PendingCheckpoint(s.disk) && Working(s.disk.run.stage) && (s.place.Checking? ==> s.disk.run.stage.Implementation?)
    ensures var next := NextSubtask(s.disk.latest.value.tasks, s.disk.progress.value.completed);
            && (next.Some? ==> Due(s.disk.latest.value, s.disk.progress.value).Some?)
            && (next.None? <==> NoneReady(s.disk.latest.value.tasks, s.disk.progress.value.completed))
  {
    hide WellPlanned, LinearExtension, PlanStoreOk, Ready;
  }

  // ---- Answers -----------------------------------------------------------------------------

  /** The same plan, one version on, with exactly these files added to its scope. */
  ghost predicate Widens(a: PlanArtifact, extra: set<string>, b: PlanArtifact) {
    && b.planVersion == a.planVersion + 1
    && (forall f :: f in b.inScope <==> f in a.inScope || f in extra)
    && b == a.(planVersion := b.planVersion, inScope := b.inScope)
  }

  /** This answer widens the scope. */
  predicate WidensScope(e: Event) {
    e.PointerSaved? && e.pointer.status == Resolved("extend_scope") && e.pointer.trigger.Risk?
  }

  lemma ResolvedStep(budgets: Budgets, s: Sys, e: Event)
    requires Next(budgets, s, e).Some? && e.PointerSaved? && e.pointer.status.Resolved?
    ensures var place := Next(budgets, s, e).value.place;
            && s.place.Answering? && place.Answered? && place.decision == e.pointer.status.decision
            && place.question.trigger == e.pointer.trigger
    ensures Next(budgets, s, e).value.disk.latest == s.disk.latest && Next(budgets, s, e).value.disk.progress == s.disk.progress
  {
  }

  lemma AnsweredNext(budgets: Budgets, s: Sys, e: Event)
    requires Inv(budgets, s) && Next(budgets, s, e).Some? && !e.Called? && s.place.Answered?
    ensures if s.place.decision == "stop" then e == Moved(s.disk.run.stage, Abandoned)
            else
              && e.ProgressSaved? && s.disk.progress.Some? && s.disk.latest.Some?
              && e.progress == s.disk.progress.value.(acked := e.progress.acked)
              && (forall t :: t in e.progress.acked <==> t in s.disk.progress.value.acked || t == s.place.question.trigger)
              && var s' := Next(budgets, s, e).value;
                 && s'.disk.latest == s.disk.latest
                 && if s.place.decision == "extend_scope" && s.place.question.trigger.Risk?
                    then s'.place == HasArtifact(Extended(s.disk.latest.value, s.place.question.trigger.outOfScope))
                    else s'.place.Driving?
  {
    hide WellPlanned, LinearExtension, Triggers, PlanFor, PlanStoreOk, NextSubtask, AfterWork;
  }

  lemma ArtifactNext(budgets: Budgets, s: Sys, e: Event)
    requires Next(budgets, s, e).Some? && !e.Called?
    ensures s.place.HasArtifact? ==> e == PlanVersionSaved(s.place.artifact)
    ensures s.place.HalfSaved? ==> e == PlanLatestSaved(s.place.artifact)
    ensures s.place.RePlanning? ==> e.PlanReturned?
    ensures e.PlanVersionSaved? ==> Next(budgets, s, e).value.place == HalfSaved(e.artifact) && s.place.HasArtifact?
    ensures e.PlanLatestSaved? ==> s.place.HalfSaved?
    ensures e.PlanVersionSaved? || e.PlanLatestSaved? || e.PlanReturned? ==> Next(budgets, s, e).value.disk.run == s.disk.run
    ensures e.PlanLatestSaved? ==>
              Next(budgets, s, e).value.place == if s.disk.run.stage.PlanAuthoring? then Entering(PlanApprovalGate) else Driving
    ensures s.place.Entering? ==> e == Moved(s.disk.run.stage, s.place.next)
  {
    hide Triggers, PlanFor, NextSubtask, AfterWork, Due;
  }

  /**
   * An answer is the reply of the call right before it to the question that was pending. "stop" abandons the
   * run; any other answer acknowledges exactly that violation; and "extend_scope", given to a risk, then
   * saves the same plan with exactly the files asked about added.
   */
  lemma RepliesLeadTo(budgets: Budgets, log: seq<Event>, k: nat)
    requires History(budgets, log) && k + 1 < |log| && log[k].PointerSaved? && log[k].pointer.status.Resolved? && !log[k + 1].Called?
    ensures var e := log[k + 1];
            if log[k].pointer.status.decision == "stop" then e == Moved(DiskAt(budgets, log, k).run.stage, Abandoned)
            else
              var d := DiskAt(budgets, log, k);
              && e.ProgressSaved? && d.progress.Some? && e.progress == d.progress.value.(acked := e.progress.acked)
              && (forall t :: t in e.progress.acked <==> t in d.progress.value.acked || t == log[k].pointer.trigger)
    ensures k + 2 < |log| && !log[k + 2].Called? && WidensScope(log[k]) ==>
              var d := DiskAt(budgets, log, k);
              log[k + 2].PlanVersionSaved? && d.latest.Some?
              && Widens(d.latest.value, log[k].pointer.trigger.outOfScope, log[k + 2].artifact)
    ensures k + 2 < |log| && !WidensScope(log[k]) ==> !log[k + 2].PlanVersionSaved?
  {
    hide Exec, History, Inv, Next, SysAt;
    var s, s' := Happened(budgets, log, k);
    var _, s'' := Happened(budgets, log, k + 1);
    ResolvedStep(budgets, s, log[k]);
    AnsweredNext(budgets, s', log[k + 1]);
    if k + 2 < |log| && !log[k + 2].Called? {
      var _, _ := Happened(budgets, log, k + 2);
      ArtifactNext(budgets, s'', log[k + 2]);
    }
    SameStage(budgets, s, log[k]);
    MovedAway(budgets, s', log[k + 1]);
  }

  lemma SameStage(budgets: Budgets, s: Sys, e: Event)
    requires Next(budgets, s, e).Some? && !e.Moved? && !e.AttemptAppended?
    ensures Next(budgets, s, e).value.disk.run.stage == s.disk.run.stage
  {
    hide Triggers, PlanFor, NextSubtask, AfterWork, Due;
  }

  lemma MovedAway(budgets: Budgets, s: Sys, e: Event)
    requires Next(budgets, s, e).Some?
    ensures e.Moved? ==> Next(budgets, s, e).value.place.Driving? || Next(budgets, s, e).value.place.StartingProgress?
  {
  }

  lemma AskedForBy(budgets: Budgets, s: Sys, e: Event)
    requires Inv(budgets, s) && Next(budgets, s, e).Some?
    ensures e.PointerSaved? && e.pointer.status.Resolved? ==>
              && s.place.Answering? && e.pointer.status.decision == s.place.decision
              && PendingCheckpoint(s.disk) && e.pointer == s.disk.run.pointer.value.(status := e.pointer.status)
    ensures e.AttemptAppended? ==> s.place.RePlanAsked?
  {
    hide WellPlanned, LinearExtension, Triggers, PlanFor, PlanStoreOk, NextSubtask, AfterWork;
  }

  /** An answer is written only for the call right before it, to the question that was pending, and as it was given. */
  lemma RepliesComeFrom(budgets: Budgets, log: seq<Event>, k: nat)
    requires History(budgets, log) && k < |log| && log[k].PointerSaved? && log[k].pointer.status.Resolved?
    ensures k > 0 && log[k - 1] == Called(ResolveCheckpoint(log[k].pointer.status.decision))
    ensures var d := DiskAt(budgets, log, k);
            PendingCheckpoint(d) && log[k].pointer == d.run.pointer.value.(status := log[k].pointer.status)
  {
    hide Exec, History, Inv, Next, SysAt;
    var s, _ := Happened(budgets, log, k);
    AskedForBy(budgets, s, log[k]);
    FirstState(budgets, log);
    var t, _ := Happened(budgets, log, k - 1);
    CameBy(budgets, t, log[k - 1]);
  }

  /** A new attempt starts only for a call that asked for changes, and leads to a plan. */
  lemma AttemptsComeFrom(budgets: Budgets, log: seq<Event>, k: nat)
    requires History(budgets, log) && k < |log| && log[k].AttemptAppended?
    ensures k > 0 && log[k - 1] == Called(ApprovePlan("request_changes"))
    ensures k + 1 < |log| ==> log[k + 1].Called? || log[k + 1].PlanReturned?
  {
    hide Exec, History, Inv, Next, SysAt;
    var s, s' := Happened(budgets, log, k);
    AskedForBy(budgets, s, log[k]);
    FirstState(budgets, log);
    var t, _ := Happened(budgets, log, k - 1);
    CameBy(budgets, t, log[k - 1]);
    AppendedIs(budgets, s, log[k]);
    if k + 1 < |log| && !log[k + 1].Called? {
      var _, _ := Happened(budgets, log, k + 1);
      ArtifactNext(budgets, s', log[k + 1]);
    }
  }

  lemma AppendedIs(budgets: Budgets, s: Sys, e: Event)
    requires Next(budgets, s, e).Some? && e.AttemptAppended?
    ensures Next(budgets, s, e).value.place.RePlanning?
  {
  }

  // ---- Plans -------------------------------------------------------------------------------

  lemma ReturnedStep(budgets: Budgets, s: Sys, e: Event)
    requires Next(budgets, s, e).Some? && e.PlanReturned?
    ensures var s' := Next(budgets, s, e).value;
            && s'.disk == s.disk
            && (match PlanFor(budgets, LatestVersion(s.disk) + 1, e.out)
                case Success(a) => s'.place == HasArtifact(a)
                case Failure(_) => s'.place.Refused?)
  {
    hide PlanFor;
  }

  lemma ArtifactFrom(budgets: Budgets, s: Sys, e: Event)
    requires Next(budgets, s, e).Some? && Next(budgets, s, e).value.place.HasArtifact?
    ensures e.PlanReturned? || (e.ProgressSaved? && s.place.Answered?)
  {
    hide Triggers, PlanFor, NextSubtask, AfterWork, Due;
  }

  /** A plan that comes back is stored, as it was authored, as the next version; or refused, and then only a new call follows. */
  lemma PlansLeadTo(budgets: Budgets, log: seq<Event>, k: nat)
    requires History(budgets, log) && k + 1 < |log| && log[k].PlanReturned? && !log[k + 1].Called?
    ensures var d, out := DiskAt(budgets, log, k), log[k].out;
            var budget := ResolveBudget(out.storySize, out.crossCuttingOrHighRisk, budgets);
            && budget.Success? && log[k + 1].PlanVersionSaved?
            && Records(log[k + 1].artifact, LatestVersion(d) + 1, out, budget.value)
    ensures k + 2 < |log| && !log[k + 2].Called? ==> log[k + 2] == PlanLatestSaved(log[k + 1].artifact)
    ensures k + 3 < |log| && !log[k + 2].Called? && !log[k + 3].Called? ==> log[k + 3] == Moved(PlanAuthoring, PlanApprovalGate)
  {
    hide Exec, History, Inv, Next, SysAt, Records, PlanFor;
    var s, s' := Happened(budgets, log, k);
    var _, s'' := Happened(budgets, log, k + 1);
    PlanIsRecorded(budgets, LatestVersion(s.disk) + 1, log[k].out);
    ReturnedStep(budgets, s, log[k]);
    ArtifactNext(budgets, s', log[k + 1]);
    RefusedStops(budgets, s', log[k + 1]);
    AuthoringAt(budgets, s, log[k]);
    if k + 2 < |log| && !log[k + 2].Called? {
      var _, s3 := Happened(budgets, log, k + 2);
      ArtifactNext(budgets, s'', log[k + 2]);
      if k + 3 < |log| && !log[k + 3].Called? {
        var _, _ := Happened(budgets, log, k + 3);
        ArtifactNext(budgets, s3, log[k + 3]);
      }
    }
  }

  lemma RefusedStops(budgets: Budgets, s: Sys, e: Event)
    requires Next(budgets, s, e).Some?
    ensures s.place.Refused? ==> e.Called?
  {
    hide Triggers, PlanFor, NextSubtask, AfterWork, Due;
  }

  lemma AuthoringAt(budgets: Budgets, s: Sys, e: Event)
    requires Inv(budgets, s) && Next(budgets, s, e).Some? && e.PlanReturned?
    ensures s.disk.run.stage.PlanAuthoring?
  {
    hide WellPlanned, LinearExtension, Triggers, PlanFor, PlanStoreOk, NextSubtask;
  }

  /** Every plan version comes from a plan that came back right before, or from an answer that widened the scope. */
  lemma VersionsComeFrom(budgets: Budgets, log: seq<Event>, k: nat)
    requires History(budgets, log) && k < |log| && log[k].PlanVersionSaved?
    ensures k > 0 && (log[k - 1].PlanReturned? || (k > 1 && log[k - 1].ProgressSaved? && WidensScope(log[k - 2])))
  {
    hide Exec, History, Inv, Next, SysAt;
    var s, _ := Happened(budgets, log, k);
    FirstState(budgets, log);
    ArtifactNext(budgets, s, log[k]);
    var t, _ := Happened(budgets, log, k - 1);
    ArtifactFrom(budgets, t, log[k - 1]);
    if log[k - 1].ProgressSaved? {
      var u, _ := Happened(budgets, log, k - 2);
      CameBy(budgets, u, log[k - 2]);
      RepliesLeadTo(budgets, log, k - 2);
    }
  }

  // ---- Moves ----------------------------------------------------------------------------

  /** The moves that go to a gate, come back from one, or go back to work, each with what has to stand right before it. */
  lemma MovesComeFrom(budgets: Budgets, log: seq<Event>, k: nat)
    requires History(budgets, log) && k < |log| && log[k].Moved?
    ensures log[k].next.PlanApprovalGate? ==> k > 0 && log[k - 1].PlanLatestSaved?
    ensures log[k] == Moved(ChangeReviewGate, Implementation) ==> k > 0 && log[k - 1] == Called(ApproveChangeReview("request_changes"))
    ensures log[k] == Moved(Verification, Implementation) ==> k > 2 && log[k - 1].ClockRead? && FailureWasSaved(log, k - 1)
    ensures log[k].next.ChangeReviewGate? ==>
              k > 1 && log[k - 1].ProgressSaved? && log[k - 2].Verify? && log[k - 2].result.passed
  {
    hide Exec, History, Inv, Next, SysAt;
    var s, _ := Happened(budgets, log, k);
    EnteredAt(budgets, s, log[k]);
    FirstState(budgets, log);
    if s.place.Entering? {
      var t, _ := Happened(budgets, log, k - 1);
      EnteredBy(budgets, t, log[k - 1]);
      if log[k - 1].ProgressSaved? && k > 1 {
        var u, _ := Happened(budgets, log, k - 2);
        CameBy(budgets, u, log[k - 2]);
      }
      if log[k - 1].ClockRead? {
        var _, _ := BeforeClock(budgets, log, k - 1);
      }
    }
  }

  lemma EnteredAt(budgets: Budgets, s: Sys, e: Event)
    requires Inv(budgets, s) && Next(budgets, s, e).Some? && e.Moved?
    ensures e.from == s.disk.run.stage
    ensures e.next.PlanApprovalGate? || e.next.ChangeReviewGate? ==> s.place == Entering(e.next)
    ensures e == Moved(ChangeReviewGate, Implementation) || e == Moved(Verification, Implementation) ==> s.place == Entering(e.next)
  {
    hide WellPlanned, LinearExtension, Triggers, PlanFor, PlanStoreOk, NextSubtask;
  }

  // ---- Work ----------------------------------------------------------------------------

  /**
   * What the backend is asked to do. A batch starts from the first ready subtask of the plan: that one alone
   * if it is in no group, and every ready one of its group, in plan order, if it is in one. A fix-up is
   * asked for only when nothing is ready, with the failure on record.
   */
  lemma WorkIsDue(budgets: Budgets, log: seq<Event>, k: nat) returns (i: nat, places: seq<nat>)
    requires History(budgets, log) && k < |log| && log[k].Implement?
    ensures var d := DiskAt(budgets, log, k); d.run.stage.Implementation? && d.latest.Some? && d.progress.Some?
    ensures var tasks, p := DiskAt(budgets, log, k).latest.value.tasks, DiskAt(budgets, log, k).progress.value;
            match log[k].work
            case FixUp(summary) => NoneReady(tasks, p.completed) && summary == p.failureSummary != ""
            case Batch(batch) =>
              && i < |tasks| && Ready(tasks[i], p.completed) && (forall j | 0 <= j < i :: !Ready(tasks[j], p.completed))
              && At(tasks, places, batch)
              && (tasks[i].parallelGroup in {None, Some("")} ==> places == [i])
              && (tasks[i].parallelGroup !in {None, Some("")} ==>
                   forall j: nat | j < |tasks| ::
                     j in places <==> Ready(tasks[j], p.completed) && tasks[j].parallelGroup == tasks[i].parallelGroup)
  {
    hide Exec, History, Inv, Next, SysAt, Ready, At;
    i, places := 0, [];
    var s, _ := Happened(budgets, log, k);
    DueIs(budgets, s, log[k]);
    var tasks, done := s.disk.latest.value.tasks, s.disk.progress.value.completed;
    if log[k].work.Batch? {
      i := FirstReady(tasks, done);
      places := BatchOfNext(tasks, done, i);
    }
  }

  lemma DueIs(budgets: Budgets, s: Sys, e: Event)
    requires Next(budgets, s, e).Some? && e.Implement?
    ensures s.disk.run.stage.Implementation? && s.disk.latest.Some? && s.disk.progress.Some?
    ensures var tasks, p := s.disk.latest.value.tasks, s.disk.progress.value;
            match e.work
            case FixUp(summary) => NoneReady(tasks, p.completed) && summary == p.failureSummary != ""
            case Batch(batch) =>
              var first := NextSubtask(tasks, p.completed);
              first.Some? && batch == ReadySubtaskBatch(tasks, p.completed, first.value) && !NoneReady(tasks, p.completed)
  {
    hide Ready, ReadySubtaskBatch;
  }

  lemma {:induction false} FirstReady(tasks: seq<PlannedTask>, done: seq<string>) returns (i: nat)
    requires !NoneReady(tasks, done)
    ensures i < |tasks| && Ready(tasks[i], done) && forall j | 0 <= j < i :: !Ready(tasks[j], done)
  {
    hide Ready;
    if Ready(tasks[0], done) {
      i := 0;
    } else {
      assert forall t | t in tasks :: t == tasks[0] || t in tasks[1..];
      var k := FirstReady(tasks[1..], done);
      i := k + 1;
      assert tasks[1..][k] == tasks[i];
      assert forall j | 1 <= j < i :: tasks[1..][j - 1] == tasks[j];
    }
  }

  // ---- Money ----------------------------------------------------------------------------

  /** Nothing ever adds to what a run has spent: with a cost ceiling above zero, time and cost are asked about for the time alone. */
  lemma OnlyTimeIsAsked(budgets: Budgets, log: seq<Event>, k: nat)
    requires History(budgets, log) && k < |log| && Asks(log[k]) && log[k].pointer.trigger.TimeCost?
    ensures var t := log[k].pointer.trigger;
            && t.spend == 0.0
            && (t.budgetCost > 0.0 ==> 5.0 * t.elapsed >= 4.0 * t.budgetMinutes && (t.hardStop <==> t.elapsed >= t.budgetMinutes))
  {
    hide Exec, History, Inv, Next, SysAt;
    QuestionsComeFrom(budgets, log, k);
    var s := StateAt(budgets, log, k);
    PrefixHistory(budgets, log, k);
    RunRecord.RecordIsTally(budgets, log[..k]);
  }
}
