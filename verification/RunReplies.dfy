/**
 * What a human's reply does to a run: which call made a decision, and which question an answer was
 * given to, over every history.
 */
module RunReplies {
  import opened Common
  import opened Stages
  import opened Checkpoints
  import opened Plans
  import opened RunMachine
  import opened RunInvariants
  import opened RunTheorems

  // ---- Every decision was called for --------------------------------------------

  /** The call that a place in the code goes back to. */
  predicate HasCause(log: seq<Event>, s: Sys) {
    var n := |log|;
    match s.place
    case Entering(Abandoned) =>
      n >= 1 && log[n - 1] == Called(if s.disk.run.stage.PlanApprovalGate? then ApprovePlan("reject") else ApproveChangeReview("reject"))
    case Entering(Packaging) => n >= 1 && log[n - 1] == Called(ApproveChangeReview("approve"))
    case Entering(Implementation) => s.disk.run.stage.PlanApprovalGate? ==> n >= 1 && log[n - 1] == Called(ApprovePlan("approve"))
    case Answering(decision, _) => n >= 1 && log[n - 1] == Called(ResolveCheckpoint(decision))
    case Answered(decision, _) => n >= 2 && log[n - 2] == Called(ResolveCheckpoint(decision)) && log[n - 1].PointerSaved?
    case _ => true
  }

  lemma CauseStep(budgets: Budgets, log: seq<Event>, s: Sys, e: Event)
    requires Inv(budgets, s) && HasCause(log, s) && Next(budgets, s, e).Some?
    ensures HasCause(log + [e], Next(budgets, s, e).value)
  {
    hide Exec, History, Inv, WellPlanned, Triggers, PlanFor;
    var longer := log + [e];
    assert longer[|longer| - 1] == e && (|log| > 0 ==> longer[|longer| - 2] == log[|log| - 1]);
  }

  lemma {:induction false} HistoryHasCause(budgets: Budgets, log: seq<Event>)
    requires History(budgets, log)
    ensures HasCause(log, Exec(budgets, log).value)
  {
    if log != [] {
      var before := log[..|log| - 1];
      HistoryHasCause(budgets, before);
      HistoryKeepsInv(budgets, before);
      CauseStep(budgets, before, Exec(budgets, before).value, log[|log| - 1]);
      assert before + [log[|log| - 1]] == log;
    }
  }

  /** A move that decides a gate, or abandons the run. */
  predicate IsDecision(e: Event) {
    e.Moved? && (DecidesGate(e, e.from) || e.next.Abandoned?)
  }

  /** The call that has to stand right before a decision, and how far before. */
  function DecisionCall(e: Event): Call
    requires IsDecision(e)
  {
    var word := if e.next.Abandoned? then "reject" else "approve";
    if e.from.PlanApprovalGate? then ApprovePlan(word)
    else if e.from.ChangeReviewGate? then ApproveChangeReview(word)
    else ResolveCheckpoint("stop")
  }

  function CallDistance(e: Event): nat {
    if e.Moved? && (e.from.PlanApprovalGate? || e.from.ChangeReviewGate?) then 1 else 2
  }

  /** No gate is decided and no run abandoned but by the very call that says so, made at that very stage. */
  lemma DecisionsAreCalledFor(budgets: Budgets, log: seq<Event>, k: nat)
    requires History(budgets, log) && k < |log| && IsDecision(log[k])
    ensures var c := k - CallDistance(log[k]);
            && 0 <= c && log[c] == Called(DecisionCall(log[k]))
            && (c + 1 < k ==> log[c + 1].PointerSaved?)
            && DiskAt(budgets, log, c).run.stage == log[k].from == DiskAt(budgets, log, k).run.stage
  {
    hide Exec;
    var s := StateAt(budgets, log, k);
    HistoryHasCause(budgets, log[..k]);
    MovedKeepsInv(budgets, s, log[k].from, log[k].next);
    DecisionPlace(budgets, s, log[k]);
    var c := k - CallDistance(log[k]);
    var _, _ := ShapeAt(budgets, log, c);
    if c + 1 < k {
      var _, _ := ShapeAt(budgets, log, c + 1);
    }
  }

  lemma DecisionPlace(budgets: Budgets, s: Sys, e: Event)
    requires Inv(budgets, s) && IsDecision(e) && Next(budgets, s, e).Some?
    ensures e.from == s.disk.run.stage
    ensures if s.disk.run.stage.PlanApprovalGate? || s.disk.run.stage.ChangeReviewGate? then s.place == Entering(e.next)
            else s.place.Answered? && s.place.decision == "stop"
    ensures s.disk.run.stage.PlanApprovalGate? ==> e.next.Abandoned? || e.next.Implementation?
    ensures s.disk.run.stage.ChangeReviewGate? ==> e.next.Abandoned? || e.next.Packaging?
  {
    hide WellPlanned, Triggers, PlanFor, PlanStoreOk;
  }

  // ---- Which question an answer is given to ----------------------------------------

  /** Nothing new is asked by events lo..hi-1. */
  predicate NothingAsked(log: seq<Event>, lo: nat, hi: nat) {
    forall k | lo <= k < hi && k < |log| :: !Asks(log[k])
  }

  /** Only a new question makes a question pending, and an answer ends that. */
  lemma PointerChanges(budgets: Budgets, s: Sys, e: Event)
    requires Inv(budgets, s) && Next(budgets, s, e).Some?
    ensures var d, d' := s.disk, Next(budgets, s, e).value.disk;
            && (Asks(e) ==> d'.run.pointer == Some(e.pointer))
            && (e.PointerSaved? && !Asks(e) ==> !PendingCheckpoint(d'))
            && (!Asks(e) && PendingCheckpoint(d') ==> PendingCheckpoint(d) && d'.run.pointer == d.run.pointer)
  {
    hide WellPlanned, Triggers, PlanFor, PlanStoreOk;
  }

  /** If nothing was asked in between, the pending question is still the same one, and was not answered. */
  lemma {:induction false} SameQuestion(budgets: Budgets, log: seq<Event>, n: nat, i: nat)
    requires History(budgets, log) && n <= i <= |log| && NothingAsked(log, n, i)
    requires PendingCheckpoint(DiskAt(budgets, log, i))
    ensures PendingCheckpoint(DiskAt(budgets, log, n))
    ensures DiskAt(budgets, log, n).run.pointer == DiskAt(budgets, log, i).run.pointer
    ensures forall k | n <= k < i :: !log[k].PointerSaved?
    decreases i
  {
    hide Exec, History, Inv, Next, SysAt, PendingCheckpoint;
    if n < i {
      var s, s' := Happened(budgets, log, i - 1);
      PointerChanges(budgets, s, log[i - 1]);
      SameQuestion(budgets, log, n, i - 1);
    }
  }

  /** The event that asked the pending question: since then nothing else was asked or answered. */
  lemma {:induction false} LastAsked(budgets: Budgets, log: seq<Event>, n: nat) returns (a: nat)
    requires History(budgets, log) && n <= |log| && PendingCheckpoint(DiskAt(budgets, log, n))
    ensures a < n && Asks(log[a]) && DiskAt(budgets, log, n).run.pointer == Some(log[a].pointer)
    ensures forall k | a < k < n :: !log[k].PointerSaved?
  {
    hide Exec, History, Inv, Next, SysAt;
    FirstState(budgets, log);
    if n > 0 {
      var s, s' := Happened(budgets, log, n - 1);
      PointerChanges(budgets, s, log[n - 1]);
      if Asks(log[n - 1]) {
        a := n - 1;
      } else {
        a := LastAsked(budgets, log, n - 1);
      }
    }
  }

  /**
   * If nothing was asked between two moments, the question pending at them is the same one. If something
   * was, the two questions are about different things, unless an answer about that very thing was cut
   * off in between: then the same may have been asked again.
   */
  lemma SameQuestionIff(budgets: Budgets, log: seq<Event>, n: nat, i: nat)
    requires History(budgets, log) && n <= i <= |log|
    requires PendingCheckpoint(DiskAt(budgets, log, n)) && PendingCheckpoint(DiskAt(budgets, log, i))
    ensures var q, q' := DiskAt(budgets, log, n).run.pointer.value, DiskAt(budgets, log, i).run.pointer.value;
            && (NothingAsked(log, n, i) ==> q == q')
            && (!CutOff(log, q.trigger, n, i) ==> (q.trigger == q'.trigger <==> NothingAsked(log, n, i)))
  {
    hide Exec, History, Inv, Next, SysAt, PendingCheckpoint, DiskAt;
    if NothingAsked(log, n, i) {
      SameQuestion(budgets, log, n, i);
    } else {
      var a := LastAsked(budgets, log, n);
      var b := LastAsked(budgets, log, i);
      var k :| n <= k < i && Asks(log[k]);
      var t := log[a].pointer.trigger;
      if t == log[b].pointer.trigger {
        NoQuestionTwice(budgets, log, a, b);
        var r :| a + 1 <= r && r + 1 < b && CutAt(log, t, r);
        assert CutOff(log, t, n, i);
      }
    }
  }

  // ---- What stays true as a history grows --------------------------------------------

  lemma StatesStay(budgets: Budgets, log: seq<Event>, longer: seq<Event>, n: nat)
    requires History(budgets, longer) && log <= longer && n <= |log|
    ensures History(budgets, log) && SysAt(budgets, log, n) == SysAt(budgets, longer, n)
  {
    hide Exec, History, Inv, Next;
    PrefixHistory(budgets, longer, |log|);
    assert longer[..|log|] == log && log[..n] == longer[..n];
  }

  lemma {:induction false} CallsAreFound(log: seq<Event>, x: nat)
    ensures x in CallsIn(log) <==> x < |log| && log[x].Called?
  {
    hide Exec, History, Inv, Next, SysAt;
    if log != [] {
      CallsAreFound(log[..|log| - 1], x);
    }
  }

  /** If one call was added, at the old end of the log, there is no other among the new events. */
  lemma OnlyNewCall(log: seq<Event>, longer: seq<Event>)
    requires log <= longer && CallsIn(longer) == CallsIn(log) + [|log|]
    ensures forall x | |log| < x < |longer| :: !longer[x].Called?
  {
    hide Exec, History, Inv, Next, SysAt;
    forall x: nat | |log| < x < |longer| ensures !longer[x].Called? {
      CallsAreFound(longer, x);
      CallsAreFound(log, x);
    }
  }
}
