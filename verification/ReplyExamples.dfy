/** Runs from the very beginning that show what a human's reply can come to, on the worker's own books. */
module ReplyExamples {
  import opened Common
  import opened Stages
  import opened Checkpoints
  import opened RunMachine
  import opened RunInvariants
  import opened RunTheorems
  import opened RunExamples
  import opened RunWorker

  const QUESTION := Comment(1, NOTIFICATION)

  /** A reply as the worker books it: noted after l0, applied after l1. */
  lemma GoodReply(log: seq<Event>, l0: seq<Event>, s0: Sys, l1: seq<Event>, s1: Sys, r: Reply)
    requires History(DEFAULT_BUDGETS, log) && l0 <= l1 && l1 < log
    requires Exec(DEFAULT_BUDGETS, l0) == Some(s0) && Exec(DEFAULT_BUDGETS, l1) == Some(s1)
    requires r.note.at == |l0| && r.at == |l1| && log[|l1|] == Called(ReplyCall(r.note.record, r.decision))
    requires PausedAt(s0.disk, r.note.record) && PausedAt(s1.disk, r.note.record)
    requires r.decision in (if r.note.record.kind.Gate? then ["approve", "reject"] else ["continue", "stop"])
    ensures ReplyOk(DEFAULT_BUDGETS, log, r)
  {
    hide Exec, History, Inv, Next, SysAt, PausedAt;
    StatesOf(log, l0, s0);
    StatesOf(log, l1, s1);
  }

  /** Two polls: each resumes first, and each reply is accounted for. */
  lemma PollsAccounted(log: seq<Event>, l0: seq<Event>, mid: seq<Event>, tail: seq<Event>, replies: seq<Reply>)
    requires log == l0 + [Called(Resume)] + mid + [Called(Resume)] + tail
    requires forall x | 0 < x < |mid| :: !mid[x].Called?
    requires forall x | 0 < x < |tail| :: !tail[x].Called?
    requires exists r :: r in replies && r.at == |l0| + 1
    requires tail != [] ==> exists r :: r in replies && r.at == |l0| + |mid| + 2
    ensures CallsAccounted(log, |l0|, replies, {})
  {
    forall x | |l0| <= x < |log| && log[x].Called? ensures CallAccounted(log, replies, {}, x) {
      var y := x - |l0|;
      assert log[x] == (if y == 0 then Called(Resume) else if y <= |mid| then mid[y - 1]
                        else if y == |mid| + 1 then Called(Resume) else tail[y - |mid| - 2]);
    }
  }

  /** Both replies are the one comment that follows the question. */
  lemma OneCommentRead(word: string, first: Reply, second: Reply)
    requires first.comment == second.comment == 1 && first.polled == second.polled == 2
    requires first.note.there == 1 && first.note.record.lastSeen == 1
    requires second.note == first.note || (second.note.there == 2 && second.note.record.lastSeen == -1)
    requires first.note.at <= second.note.at
    requires MatchDecision(word, first.note.record.kind) == Some(first.decision)
    requires MatchDecision(word, second.note.record.kind) == Some(second.decision)
    ensures ThreadOk([QUESTION, Comment(2, word)], [first, second])
  {
  }

  /**
   * The poll that applied the reply dies before it notes the second question. The next poll still has
   * the old record and the old reply, finds a question at the recorded stage, and answers that.
   */
  lemma ReplyMeetsAnotherQuestion() returns (log: seq<Event>, first: Reply, second: Reply)
    ensures RepliesOk(DEFAULT_BUDGETS, log, first.note.at, [first, second])
    ensures CallsAccounted(log, first.note.at, [first, second], {})
    ensures ThreadOk([QUESTION, Comment(2, "continue")], [first, second])
    ensures first.note == second.note && first.comment == second.comment && first.decision == second.decision == "continue"
    ensures DiskAt(DEFAULT_BUDGETS, log, first.at).run.pointer.value.trigger == Risk({"b"})
    ensures DiskAt(DEFAULT_BUDGETS, log, second.at).run.pointer.value.trigger == Risk({"b", "c"})
    ensures DiskAt(DEFAULT_BUDGETS, log, second.note.at).run.pointer.value.trigger == Risk({"b"})
  {
    hide Exec, History, ToSecondQuestion, CallsAccounted, ThreadOk, ReplyOk, SmallArtifact, StrayedOnce, StrayedTwice, Inv, SysAt;
    var l0, s0 := FirstQuestion();
    var l1, s1 := Grow(DEFAULT_BUDGETS, l0, s0, Called(Resume));
    var l2, s2 := SecondQuestion(l1, s1);
    var l3, s3 := Grow(DEFAULT_BUDGETS, l2, s2, Called(Resume));
    var l4, s4 := Grow(DEFAULT_BUDGETS, l3, s3, Called(ResolveCheckpoint("continue")));
    log := l4;
    var note := Note(|l0|, Record(Checkpoint, Implementation, 1), 1);
    first, second := Reply(|l1|, note, "continue", 1, 2), Reply(|l3|, note, "continue", 1, 2);
    StatesOf(log, l0, s0);
    StatesOf(log, l1, s1);
    StatesOf(log, l3, s3);
    GoodReply(log, l0, s0, l1, s1, first);
    GoodReply(log, l0, s0, l3, s3, second);
    BothReplies(log, l0, ToSecondQuestion(), [Called(ResolveCheckpoint("continue"))], first, second);
    OneCommentRead("continue", first, second);
  }

  lemma BothReplies(log: seq<Event>, l0: seq<Event>, mid: seq<Event>, tail: seq<Event>, first: Reply, second: Reply)
    requires log == l0 + [Called(Resume)] + mid + [Called(Resume)] + tail
    requires forall x | 0 < x < |mid| :: !mid[x].Called?
    requires forall x | 0 < x < |tail| :: !tail[x].Called?
    requires first.note.at == |l0| && first.at == |l0| + 1 && second.at == |l0| + |mid| + 2
    requires ReplyOk(DEFAULT_BUDGETS, log, first) && ReplyOk(DEFAULT_BUDGETS, log, second)
    ensures RepliesOk(DEFAULT_BUDGETS, log, |l0|, [first, second]) && CallsAccounted(log, |l0|, [first, second], {})
  {
    hide ReplyOk, CallsAccounted;
    assert first in [first, second] && second in [first, second];
    PollsAccounted(log, l0, mid, tail, [first, second]);
  }

  // ---- Replies at gates ------------------------------------------------------------------

  /**
   * The poll that rejected the plan dies before it reports that. The next poll still has the record, and
   * finds the run abandoned before its own call: exactly when that is reported with exit code 0.
   */
  lemma RejectionReportedAsDone() returns (log: seq<Event>, r: Reply)
    ensures RepliesOk(DEFAULT_BUDGETS, log, r.note.at, [r]) && CallsAccounted(log, r.note.at, [r], {})
    ensures ThreadOk([QUESTION, Comment(2, "reject")], [r]) && r.decision == "reject"
    ensures log != [] && log[|log| - 1] == Called(Resume) && r.at < |log| - 1
    ensures DiskAt(DEFAULT_BUDGETS, log, |log| - 1).run.stage.Abandoned?
  {
    hide Exec, History, CallsAccounted, ThreadOk, ReplyOk, SmallArtifact, Inv, SysAt;
    var l0, s0 := FirstGate();
    var l1, s1 := Grow(DEFAULT_BUDGETS, l0, s0, Called(Resume));
    var l3, s3 := Rejected(l1, s1);
    var l4, s4 := Grow(DEFAULT_BUDGETS, l3, s3, Called(Resume));
    log := l4;
    r := Reply(|l1|, Note(|l0|, Record(Gate, PlanApprovalGate, 1), 1), "reject", 1, 2);
    StatesOf(log, l3, s3);
    GoodReply(log, l0, s0, l1, s1, r);
    assert r in [r];
    PollsAccounted(log, l0, [Called(ApprovePlan("reject")), Moved(PlanApprovalGate, Abandoned)], [], [r]);
    RejectionRead(r);
  }

  lemma Rejected(log: seq<Event>, s: Sys) returns (longer: seq<Event>, s': Sys)
    requires Exec(DEFAULT_BUDGETS, log) == Some(s) && AtPlanGate(s, SmallArtifact([T]))
    ensures longer == log + [Called(ApprovePlan("reject")), Moved(PlanApprovalGate, Abandoned)]
    ensures Exec(DEFAULT_BUDGETS, longer) == Some(s') && s'.disk.run.stage.Abandoned?
  {
    hide Exec, SmallArtifact;
    var l1, s1 := Grow(DEFAULT_BUDGETS, log, s, Called(ApprovePlan("reject")));
    longer, s' := Grow(DEFAULT_BUDGETS, l1, s1, Moved(PlanApprovalGate, Abandoned));
  }

  lemma RejectionRead(r: Reply)
    requires r.comment == 1 && r.polled == 2 && r.decision == "reject" && r.note.there == 1
    requires r.note.record.kind.Gate? && r.note.record.lastSeen == 1
    ensures ThreadOk([QUESTION, Comment(2, "reject")], [r])
  {
  }

  /**
   * One comment approves two gates: the plan, and then, because the question about the change could not
   * be posted, also the change, which nobody has looked at.
   */
  lemma OneCommentDecidesTwoPauses() returns (log: seq<Event>, first: Reply, second: Reply)
    ensures RepliesOk(DEFAULT_BUDGETS, log, first.note.at, [first, second])
    ensures CallsAccounted(log, first.note.at, [first, second], {})
    ensures ThreadOk([QUESTION, Comment(2, "approve")], [first, second]) && first.comment == second.comment
    ensures first.note.record.stage == PlanApprovalGate && second.note.record.stage == ChangeReviewGate
    ensures log != [] && log[|log| - 1] == Moved(ChangeReviewGate, Packaging)
  {
    hide Exec, History, ToReview, CallsAccounted, ThreadOk, ReplyOk, SmallArtifact, Clean, Inv, SysAt;
    var l0, s0 := FirstGate();
    var l1, s1 := Grow(DEFAULT_BUDGETS, l0, s0, Called(Resume));
    var l2, s2 := GateToReview(l1, s1);
    var l3, s3 := Grow(DEFAULT_BUDGETS, l2, s2, Called(Resume));
    var l4, s4 := ReviewApproved(l3, s3);
    log := l4;
    first := Reply(|l1|, Note(|l0|, Record(Gate, PlanApprovalGate, 1), 1), "approve", 1, 2);
    second := Reply(|l3|, Note(|l2|, Record(Gate, ChangeReviewGate, -1), 2), "approve", 1, 2);
    GoodReply(log, l0, s0, l1, s1, first);
    GoodReply(log, l2, s2, l3, s3, second);
    BothReplies(log, l0, ToReview(), [Called(ApproveChangeReview("approve")), Moved(ChangeReviewGate, Packaging)], first, second);
    OneCommentRead("approve", first, second);
  }
}
