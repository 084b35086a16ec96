/**
 * The worker that starts runs, waits for a human's reply on the issue, and resumes: one issue, one
 * run, any number of polls, each of which may die anywhere.
 */
module RunWorker {
  import opened Common
  import opened Stages
  import opened Checkpoints
  import opened Plans
  import opened RunMachine
  import opened RunInvariants
  import opened RunReplies
  import opened RunTheorems
  import opened Stores
  import opened Orchestration

  datatype PauseKind = Gate | Checkpoint

  /** What was written down when the run paused: the kind and stage of the pause, and the last comment seen. */
  datatype Record = Record(kind: PauseKind, stage: Stage, lastSeen: int)

  datatype Level = L0 | L1 | L2 | L3

  datatype RunOutcome = RunOutcome(exitCode: nat, stage: Stage, paused: bool)

  function RequiresPlanApproval(level: Level, highRisk: bool): bool {
    level.L0? || level.L1? || (level.L2? && highRisk)
  }

  function RequiresChangeReview(level: Level, pulledFromBatch: bool): bool {
    level.L1? || (level.L2? && pulledFromBatch)
  }

  // ---- Reading a reply -----------------------------------------------------

  const POSITIVE_WORDS: set<string> := {"approve", "approved", "yes", "y", "continue", "lgtm", "go", "proceed"}
  const NEGATIVE_WORDS: set<string> := {"reject", "rejected", "no", "n", "stop", "abandon", "cancel"}

  /** What the worker writes itself: several sentences, so never one of the words. */
  const NOTIFICATION: string := "SDLC Auto is paused and waits for a reply."

  /** The whole comment, trimmed and lower-cased, must be one of the words. */
  function MatchDecision(word: string, kind: PauseKind): Option<string> {
    if word in POSITIVE_WORDS then Some(if kind.Gate? then "approve" else "continue")
    else if word in NEGATIVE_WORDS then Some(if kind.Gate? then "reject" else "stop")
    else None
  }

  datatype Comment = Comment(id: int, word: string)

  /** Comments of one issue, oldest first: a later one has a larger id. */
  predicate Chronological(cs: seq<Comment>) {
    && (forall i | 0 <= i < |cs| :: cs[i].id >= 0)
    && (forall i, j | 0 <= i < j < |cs| :: cs[i].id < cs[j].id)
  }

  predicate Decides(c: Comment) {
    c.word in POSITIVE_WORDS || c.word in NEGATIVE_WORDS
  }

  predicate IsReply(c: Comment, lastSeen: int, kind: PauseKind) {
    c.id > lastSeen && MatchDecision(c.word, kind).Some?
  }

  function NewestDecision(comments: seq<Comment>, lastSeen: int, kind: PauseKind): Option<string> {
    if comments == [] then None
    else
      var c := comments[|comments| - 1];
      if IsReply(c, lastSeen, kind) then MatchDecision(c.word, kind)
      else NewestDecision(comments[..|comments| - 1], lastSeen, kind)
  }

  /** The newest comment after lastSeen that is a decision decides; without one there is none. */
  lemma {:induction false} NewestDecides(comments: seq<Comment>, lastSeen: int, kind: PauseKind)
    ensures var r := NewestDecision(comments, lastSeen, kind);
            && (r.None? <==> forall c :: c in comments ==> !IsReply(c, lastSeen, kind))
            && (r.Some? ==> exists i :: 0 <= i < |comments| && IsReply(comments[i], lastSeen, kind)
                                        && MatchDecision(comments[i].word, kind) == r
                                        && forall j | i < j < |comments| :: !IsReply(comments[j], lastSeen, kind))
  {
    if comments != [] {
      var n := |comments| - 1;
      NewestDecides(comments[..n], lastSeen, kind);
      hide MatchDecision;
      assert comments == comments[..n] + [comments[n]];
    }
  }

  /** Comment i is the newest one after the recorded one that is one of the words. */
  predicate Newest(comments: seq<Comment>, lastSeen: int, i: nat) {
    && i < |comments| && comments[i].id > lastSeen && comments[i].word in POSITIVE_WORDS + NEGATIVE_WORDS
    && forall j | i < j < |comments| && comments[j].id > lastSeen :: comments[j].word !in POSITIVE_WORDS + NEGATIVE_WORDS
  }

  /** How a positive word begins, or how long it is. */
  predicate LooksPositive(w: string) {
    && |w| > 0
    && (w[0] in ['y', 'l', 'g', 'p'] || (w[0] == 'c' && |w| == 8) || (w[0] == 'a' && |w| > 1 && w[1] == 'p'))
  }

  lemma PositiveLooks(w: string)
    requires w in POSITIVE_WORDS
    ensures LooksPositive(w)
  {
  }

  lemma NegativeDoesNot(w: string)
    requires w in NEGATIVE_WORDS
    ensures !LooksPositive(w)
  {
  }

  /** The words the notification offers are words of their kind, and no word is of both kinds. */
  lemma WordsAreClear()
    ensures POSITIVE_WORDS !! NEGATIVE_WORDS
    ensures "approve" in POSITIVE_WORDS && "continue" in POSITIVE_WORDS && "reject" in NEGATIVE_WORDS && "stop" in NEGATIVE_WORDS
  {
    hide LooksPositive;
    forall w | w in POSITIVE_WORDS ensures w !in NEGATIVE_WORDS {
      PositiveLooks(w);
      if w in NEGATIVE_WORDS {
        NegativeDoesNot(w);
      }
    }
  }

  /**
   * The newest of the words decides: a positive one approves at a gate and continues at a checkpoint, a negative
   * one rejects or stops. So a reply can never ask for changes or widen the scope.
   */
  lemma RepliesAreNarrow(comments: seq<Comment>, lastSeen: int, kind: PauseKind)
    ensures var r := NewestDecision(comments, lastSeen, kind);
            && (r.Some? <==> exists i: nat :: Newest(comments, lastSeen, i))
            && (r.Some? ==> r.value in (if kind.Gate? then ["approve", "reject"] else ["continue", "stop"]))
            && forall i: nat | Newest(comments, lastSeen, i) ::
                 && (comments[i].word in POSITIVE_WORDS <==> r == Some(if kind.Gate? then "approve" else "continue"))
                 && (comments[i].word in NEGATIVE_WORDS <==> r == Some(if kind.Gate? then "reject" else "stop"))
  {
    WordsAreClear();
    NewestDecides(comments, lastSeen, kind);
    WordsDecide(kind);
    hide NewestDecision, MatchDecision;
    var r := NewestDecision(comments, lastSeen, kind);
    if r.Some? {
      var i :| 0 <= i < |comments| && IsReply(comments[i], lastSeen, kind) && MatchDecision(comments[i].word, kind) == r
               && forall j | i < j < |comments| :: !IsReply(comments[j], lastSeen, kind);
      assert Newest(comments, lastSeen, i);
      assert forall k: nat | Newest(comments, lastSeen, k) :: k == i;
    } else {
      assert forall i | 0 <= i < |comments| :: !IsReply(comments[i], lastSeen, kind);
    }
  }

  lemma WordsDecide(kind: PauseKind)
    ensures forall word :: MatchDecision(word, kind).Some? <==> word in POSITIVE_WORDS + NEGATIVE_WORDS
    ensures forall word | word in POSITIVE_WORDS :: MatchDecision(word, kind) == Some(if kind.Gate? then "approve" else "continue")
    ensures forall word | word in NEGATIVE_WORDS :: MatchDecision(word, kind) == Some(if kind.Gate? then "reject" else "stop")
    ensures "approve" != "reject" && "continue" != "stop"
  {
    WordsAreClear();
    assert |"approve"| == 7 && |"reject"| == 6 && |"continue"| == 8 && |"stop"| == 4;
  }

  // ---- Is this the pause the reply was about? ---------------------------------

  function KindOf(p: Pause): PauseKind
    requires !p.NotPaused?
  {
    if p.AtGate? then Gate else Checkpoint
  }

  predicate SamePause(st: RunStatus, record: Record) {
    !st.pause.NotPaused? && KindOf(st.pause) == record.kind && st.stage == record.stage
  }

  // ---- Replies in the history of a run -------------------------------------------

  /** A record, the length of the log when it was written, and how many comments the issue then had. */
  datatype Note = Note(at: nat, record: Record, there: nat)

  /** A reply applied by the call at one position of the log: which comment it was, of how many the poll saw. */
  datatype Reply = Reply(at: nat, note: Note, decision: string, comment: nat, polled: nat)

  function ReplyCall(record: Record, decision: string): Call {
    if record.kind.Checkpoint? then ResolveCheckpoint(decision)
    else if record.stage.PlanApprovalGate? then ApprovePlan(decision)
    else ApproveChangeReview(decision)
  }

  /** The run sits at the recorded pause. */
  predicate PausedAt(d: Disk, record: Record) {
    && d.run.stage == record.stage
    && (record.kind.Checkpoint? <==> PendingCheckpoint(d))
    && (record.kind.Gate? ==> record.stage.PlanApprovalGate? || record.stage.ChangeReviewGate?)
  }

  /** The run was at the recorded pause after n events. */
  ghost predicate AtPause(budgets: Budgets, log: seq<Event>, n: nat, record: Record) {
    History(budgets, log) && n <= |log| && PausedAt(DiskAt(budgets, log, n), record)
  }

  ghost predicate ReplyOk(budgets: Budgets, log: seq<Event>, r: Reply) {
    && r.note.at <= r.at < |log|
    && log[r.at] == Called(ReplyCall(r.note.record, r.decision))
    && r.decision in (if r.note.record.kind.Gate? then ["approve", "reject"] else ["continue", "stop"])
    && AtPause(budgets, log, r.note.at, r.note.record) && AtPause(budgets, log, r.at, r.note.record)
  }

  predicate IsApproval(e: Event) {
    e == Called(ApprovePlan("approve")) || e == Called(ApproveChangeReview("approve"))
  }

  /** Every call at x: a resume, an approval the autonomy level allowed, or a reply. */
  ghost predicate CallAccounted(log: seq<Event>, replies: seq<Reply>, autos: set<nat>, x: nat)
    requires x < |log|
  {
    log[x] == Called(Resume) || (x in autos && IsApproval(log[x])) || exists r :: r in replies && r.at == x
  }

  ghost predicate CallsAccounted(log: seq<Event>, base: nat, replies: seq<Reply>, autos: set<nat>) {
    && (base < |log| ==> log[base].Called?)
    && forall x | base <= x < |log| && log[x].Called? :: CallAccounted(log, replies, autos, x)
  }

  ghost predicate RepliesOk(budgets: Budgets, log: seq<Event>, base: nat, replies: seq<Reply>) {
    forall r | r in replies :: base <= r.at && ReplyOk(budgets, log, r)
  }

  lemma AtPauseStays(budgets: Budgets, log: seq<Event>, longer: seq<Event>, n: nat, record: Record)
    requires History(budgets, longer) && log <= longer && AtPause(budgets, log, n, record)
    ensures AtPause(budgets, longer, n, record)
  {
    hide Exec, History, Inv, Next, SysAt;
    StatesStay(budgets, log, longer, n);
  }

  lemma RepliesStay(budgets: Budgets, log: seq<Event>, longer: seq<Event>, base: nat, replies: seq<Reply>)
    requires History(budgets, longer) && log <= longer && RepliesOk(budgets, log, base, replies)
    ensures RepliesOk(budgets, longer, base, replies)
  {
    hide Exec, History, Inv, Next, SysAt;
    forall r | r in replies ensures ReplyOk(budgets, longer, r) {
      assert ReplyOk(budgets, log, r);
      AtPauseStays(budgets, log, longer, r.note.at, r.note.record);
      AtPauseStays(budgets, log, longer, r.at, r.note.record);
    }
  }

  /** One more call, which is a resume, an allowed approval, or the newest reply. */
  lemma AccountOneMore(log: seq<Event>, longer: seq<Event>, base: nat, replies: seq<Reply>, autos: set<nat>,
                       replies': seq<Reply>, autos': set<nat>)
    requires CallsAccounted(log, base, replies, autos) && base <= |log| < |longer| && log <= longer
    requires CallsIn(longer) == CallsIn(log) + [|log|]
    requires replies <= replies' && autos <= autos' && CallAccounted(longer, replies', autos', |log|) && longer[|log|].Called?
    ensures CallsAccounted(longer, base, replies', autos')
  {
    hide Exec, History, Inv, Next, SysAt;
    OnlyNewCall(log, longer);
    forall x | base <= x < |longer| && longer[x].Called? ensures CallAccounted(longer, replies', autos', x) {
      if x < |log| {
        assert CallAccounted(log, replies, autos, x);
      }
    }
  }

  /**
   * A reply to a checkpoint answers the question it was recorded for if nothing was asked since the
   * record was written, that is, if no poll died between a new question and its record. Otherwise it
   * answers a question about something else, or the same one asked again because an answer was cut off.
   */
  lemma AnswersTheRecordedQuestionIff(budgets: Budgets, log: seq<Event>, r: Reply)
    requires ReplyOk(budgets, log, r) && r.note.record.kind.Checkpoint?
    ensures var q, q' := DiskAt(budgets, log, r.note.at).run.pointer.value, DiskAt(budgets, log, r.at).run.pointer.value;
            && (NothingAsked(log, r.note.at, r.at) ==> q == q')
            && (!CutOff(log, q.trigger, r.note.at, r.at) ==> (q.trigger == q'.trigger <==> NothingAsked(log, r.note.at, r.at)))
  {
    hide Exec, History, Inv, Next, SysAt;
    SameQuestionIff(budgets, log, r.note.at, r.at);
  }

  /** The gate decision a reply made, right after its call. */
  predicate TookEffect(log: seq<Event>, r: Reply) {
    r.at + 1 < |log| && r.note.record.kind.Gate? && IsDecision(log[r.at + 1])
  }

  /** A reply recorded for a gate decides that gate and no other, and only one of them ever does. */
  lemma GateRepliesTakeEffectOnce(budgets: Budgets, log: seq<Event>, r: Reply, other: Reply)
    requires ReplyOk(budgets, log, r) && ReplyOk(budgets, log, other)
    requires TookEffect(log, r) && TookEffect(log, other) && r.note.record.stage == other.note.record.stage
    ensures log[r.at + 1].from == r.note.record.stage
    ensures log[r.at + 1].next.Abandoned? <==> r.decision == "reject"
    ensures r.at == other.at
  {
    hide Exec, History, Inv, Next, SysAt;
    EffectIsOwn(budgets, log, r);
    EffectIsOwn(budgets, log, other);
    GateDecidedOnce(budgets, log, r.note.record.stage, r.at + 1, other.at + 1);
  }

  lemma EffectIsOwn(budgets: Budgets, log: seq<Event>, r: Reply)
    requires ReplyOk(budgets, log, r) && TookEffect(log, r)
    ensures DecidesGate(log[r.at + 1], r.note.record.stage)
    ensures log[r.at + 1].next.Abandoned? <==> r.decision == "reject"
  {
    hide Exec, History, Inv, Next, SysAt;
    DecisionsAreCalledFor(budgets, log, r.at + 1);
    var _, _ := ShapeAt(budgets, log, r.at);
    var s := StateAt(budgets, log, r.at + 1);
    DecisionPlace(budgets, s, log[r.at + 1]);
    hide History, Exec, Inv, Next, DiskAt, StepShape, AtPause;
  }

  /** Whatever decided a gate or abandoned the run was a reply for that stage, or an approval nobody had to give. */
  lemma DecisionsComeFromReplies(budgets: Budgets, log: seq<Event>, base: nat, replies: seq<Reply>, autos: set<nat>, k: nat)
    requires History(budgets, log) && RepliesOk(budgets, log, base, replies) && CallsAccounted(log, base, replies, autos)
    requires base <= k < |log| && IsDecision(log[k])
    ensures var c := k - CallDistance(log[k]);
            && base <= c
            && ((c in autos && !log[k].next.Abandoned?)
                || exists r :: r in replies && r.at == c && r.note.record.stage == log[k].from
                               && (log[k].next.Abandoned? <==> r.decision in ["reject", "stop"]))
  {
    hide Exec, History, Inv, Next, SysAt;
    DecisionsAreCalledFor(budgets, log, k);
    var c := k - CallDistance(log[k]);
    assert CallAccounted(log, replies, autos, c);
    if r :| r in replies && r.at == c {
      assert ReplyOk(budgets, log, r);
    }
  }

  lemma NewReplyOk(budgets: Budgets, was: seq<Event>, now: seq<Event>, r: Reply)
    requires History(budgets, now) && was <= now && r.at == |was| < |now| && r.note.at <= |was|
    requires now[|was|] == Called(ReplyCall(r.note.record, r.decision))
    requires r.decision in (if r.note.record.kind.Gate? then ["approve", "reject"] else ["continue", "stop"])
    requires AtPause(budgets, was, r.note.at, r.note.record) && AtPause(budgets, was, |was|, r.note.record)
    ensures ReplyOk(budgets, now, r)
  {
    hide Exec, History, Inv, Next, SysAt;
    AtPauseStays(budgets, was, now, r.note.at, r.note.record);
    AtPauseStays(budgets, was, now, |was|, r.note.record);
  }

  lemma RepliesOneMore(budgets: Budgets, log: seq<Event>, base: nat, replies: seq<Reply>, replies': seq<Reply>)
    requires RepliesOk(budgets, log, base, replies)
    requires replies' == replies || (|replies'| == |replies| + 1 && replies <= replies' && replies'[|replies|].at >= base
                                     && ReplyOk(budgets, log, replies'[|replies|]))
    ensures RepliesOk(budgets, log, base, replies')
  {
    hide Exec, History, Inv, Next, SysAt, ReplyOk;
  }

  /** All of the worker's accounts, after one call into the orchestrator. */
  lemma KeepAccounts(budgets: Budgets, was: seq<Event>, now: seq<Event>, base: nat, replies: seq<Reply>, autos: set<nat>,
                     replies': seq<Reply>, autos': set<nat>, pending: Option<Record>, note: Note)
    requires base <= |was| < |now| && was <= now && History(budgets, now)
    requires RepliesOk(budgets, was, base, replies) && CallsAccounted(was, base, replies, autos)
    requires CallsIn(now) == CallsIn(was) + [|was|] && now[|was|].Called? && autos <= autos'
    requires replies' == replies || (|replies'| == |replies| + 1 && replies <= replies' && replies'[|replies|].at == |was|
                                     && ReplyOk(budgets, now, replies'[|replies|]))
    requires CallAccounted(now, replies', autos', |was|)
    requires pending.Some? ==> AtPause(budgets, was, note.at, note.record)
    ensures RepliesOk(budgets, now, base, replies') && CallsAccounted(now, base, replies', autos')
    ensures pending.Some? ==> AtPause(budgets, now, note.at, note.record)
  {
    hide Exec, History, Inv, Next, SysAt, AtPause, CallAccounted, ReplyOk, CallsIn, CallsAccounted, RepliesOk;
    RepliesStay(budgets, was, now, base, replies);
    RepliesOneMore(budgets, now, base, replies, replies');
    AccountOneMore(was, now, base, replies, autos, replies', autos');
    if pending.Some? {
      AtPauseStays(budgets, was, now, note.at, note.record);
    }
  }

  /** Since a moment at rest, only a reply applied since then can have abandoned the run. */
  lemma AbandonedByReply(budgets: Budgets, log: seq<Event>, base: nat, since: nat, replies: seq<Reply>, autos: set<nat>, k: nat)
    requires History(budgets, log) && RepliesOk(budgets, log, base, replies) && CallsAccounted(log, base, replies, autos)
    requires base <= since < k < |log| && log[since].Called? && log[k].Moved? && log[k].next.Abandoned?
    ensures exists r :: r in replies && since <= r.at && r.note.record.stage == log[k].from && r.decision in ["reject", "stop"]
  {
    hide Exec, History, Inv, Next, SysAt;
    DecisionsComeFromReplies(budgets, log, base, replies, autos, k);
    DecisionsAreCalledFor(budgets, log, k);
    var c := k - CallDistance(log[k]);
    assert since <= c;
    var r :| r in replies && r.at == c && r.note.record.stage == log[k].from && r.decision in ["reject", "stop"];
  }

  // ---- Which comment decided which pause ------------------------------------------

  /** The record names the notification as the last comment seen, or nothing if posting it failed. */
  predicate NoteOk(comments: seq<Comment>, n: Note) {
    && n.there <= |comments|
    && (n.record.lastSeen == -1 || (n.there > 0 && comments[n.there - 1].id == n.record.lastSeen))
  }

  /** The reply is the newest decision among the comments its poll saw, after the recorded one. */
  predicate ReadOk(comments: seq<Comment>, r: Reply) {
    && NoteOk(comments, r.note) && r.comment < r.polled && r.note.there <= r.polled <= |comments|
    && IsReply(comments[r.comment], r.note.record.lastSeen, r.note.record.kind)
    && MatchDecision(comments[r.comment].word, r.note.record.kind) == Some(r.decision)
    && forall j | r.comment < j < r.polled :: !IsReply(comments[j], r.note.record.lastSeen, r.note.record.kind)
  }

  /** Every reply was read like that, and a later pause was noted after an earlier reply was read. */
  ghost predicate ThreadOk(comments: seq<Comment>, replies: seq<Reply>) {
    && Chronological(comments)
    && (forall r | r in replies :: ReadOk(comments, r))
    && (forall r, r' | r in replies && r' in replies && r.note.at < r'.note.at :: r.polled <= r'.note.there)
  }

  predicate NoDecision(comments: seq<Comment>, lo: nat, hi: nat) {
    forall j | lo <= j < hi && j < |comments| :: !Decides(comments[j])
  }

  /** A reply older than its own pause: exactly if posting the question failed and nobody has replied to it. */
  lemma StaleReplyIff(comments: seq<Comment>, r: Reply)
    requires Chronological(comments) && ReadOk(comments, r)
    ensures r.comment < r.note.there <==>
              r.note.record.lastSeen == -1 && NoDecision(comments, r.note.there, r.polled)
  {
    assert IsReply(comments[r.comment], r.note.record.lastSeen, r.note.record.kind);
  }

  /** One comment decides two pauses exactly if the later question could not be posted and nobody decided anything since. */
  lemma SameCommentIff(comments: seq<Comment>, replies: seq<Reply>, r: Reply, later: Reply)
    requires ThreadOk(comments, replies) && r in replies && later in replies && r.note.at < later.note.at
    ensures r.comment == later.comment <==>
              later.note.record.lastSeen == -1 && NoDecision(comments, r.comment + 1, later.polled)
  {
    assert ReadOk(comments, r) && ReadOk(comments, later);
    StaleReplyIff(comments, later);
    assert Decides(comments[r.comment]) && Decides(comments[later.comment]);
    assert IsReply(comments[r.comment], -1, later.note.record.kind);
  }

  /** The newest decision, as a reply that is read now. */
  lemma ReadingOf(comments: seq<Comment>, note: Note, decision: string) returns (r: Reply)
    requires NoteOk(comments, note) && NewestDecision(comments, note.record.lastSeen, note.record.kind) == Some(decision)
    ensures ReadOk(comments, r) && r.note == note && r.decision == decision && r.polled == |comments|
  {
    var seen, kind := note.record.lastSeen, note.record.kind;
    NewestDecides(comments, seen, kind);
    hide NewestDecision, IsReply, MatchDecision;
    var i :| 0 <= i < |comments| && IsReply(comments[i], seen, kind)
             && MatchDecision(comments[i].word, kind) == Some(decision)
             && forall j | i < j < |comments| :: !IsReply(comments[j], seen, kind);
    r := Reply(0, note, decision, i, |comments|);
  }

  /** A reply is the newest of the words among the comments its poll saw. */
  predicate ReadsNewest(comments: seq<Comment>, r: Reply) {
    r.comment < r.polled <= |comments| && Newest(comments[..r.polled], r.note.record.lastSeen, r.comment)
  }

  /** The word a reply was read from. */
  function WordOf(comments: seq<Comment>, r: Reply): string
    requires r.comment < |comments|
  {
    comments[r.comment].word
  }

  /** Every reply reads the newest word and says what it says, however many comments follow and wherever it is applied. */
  lemma ReadIsNewest(comments: seq<Comment>, more: seq<Comment>, r: Reply, at: nat)
    requires comments <= more && ReadOk(comments, r)
    ensures var applied := r.(at := at);
            && ReadsNewest(more, applied)
            && (WordOf(more, applied) in NEGATIVE_WORDS <==> r.decision in ["reject", "stop"])
            && (WordOf(more, applied) in POSITIVE_WORDS <==> r.decision in ["approve", "continue"])
  {
    WordsAreClear();
    WordsDecide(r.note.record.kind);
    assert more[..r.polled] == comments[..r.polled];
    assert |"approve"| == 7 && |"reject"| == 6 && |"continue"| == 8 && |"stop"| == 4;
    hide MatchDecision;
  }

  lemma ReadStays(comments: seq<Comment>, more: seq<Comment>, r: Reply)
    requires comments <= more && ReadOk(comments, r)
    ensures ReadOk(more, r)
  {
    forall j | r.comment < j < r.polled ensures !IsReply(more[j], r.note.record.lastSeen, r.note.record.kind) {
      assert more[j] == comments[j];
    }
  }

  lemma ThreadStays(comments: seq<Comment>, more: seq<Comment>, replies: seq<Reply>)
    requires comments <= more && ThreadOk(comments, replies) && Chronological(more)
    ensures ThreadOk(more, replies)
  {
    forall r | r in replies ensures ReadOk(more, r) {
      ReadStays(comments, more, r);
    }
  }

  // ---- Which gates nobody has to decide --------------------------------------------

  /** The run is at a gate that this autonomy level leaves to nobody. */
  predicate LeftToNobody(level: Level, d: Disk) {
    match level
    case L0 => d.run.stage.ChangeReviewGate?
    case L1 => false
    case L2 =>
      d.run.stage.ChangeReviewGate? || (d.run.stage.PlanApprovalGate? && !(d.latest.Some? && d.latest.value.highRisk))
    case L3 => d.run.stage.ChangeReviewGate? || d.run.stage.PlanApprovalGate?
  }

  ghost predicate AutosOk(budgets: Budgets, log: seq<Event>, level: Level, autos: set<nat>) {
    History(budgets, log) && forall x | x in autos :: x < |log| && LeftToNobody(level, DiskAt(budgets, log, x))
  }

  lemma AutosStay(budgets: Budgets, was: seq<Event>, now: seq<Event>, level: Level, autos: set<nat>, autos': set<nat>)
    requires History(budgets, now) && was <= now && |was| < |now| && AutosOk(budgets, was, level, autos)
    requires forall x | x in autos' :: x in autos || (x == |was| && LeftToNobody(level, Exec(budgets, was).value.disk))
    ensures AutosOk(budgets, now, level, autos')
  {
    hide Exec, History, Inv, Next, SysAt, LeftToNobody;
    forall x | x in autos' ensures LeftToNobody(level, DiskAt(budgets, now, x)) {
      StatesStay(budgets, was, now, x);
      if x == |was| {
        LastDisk(budgets, was);
      }
    }
  }

  lemma LastDisk(budgets: Budgets, log: seq<Event>)
    requires History(budgets, log)
    ensures DiskAt(budgets, log, |log|) == Exec(budgets, log).value.disk
  {
    assert log[..|log|] == log;
  }

  /** Replies read so far, and the pause that waits for the next one. */
  ghost predicate WaitingOk(comments: seq<Comment>, replies: seq<Reply>, note: Note) {
    && NoteOk(comments, note)
    && forall r | r in replies :: r.note.at <= note.at && (r.note.at < note.at ==> r.polled <= note.there)
  }

  lemma OneMoreRead(comments: seq<Comment>, replies: seq<Reply>, note: Note, r: Reply)
    requires ThreadOk(comments, replies) && WaitingOk(comments, replies, note) && ReadOk(comments, r) && r.note == note
    ensures ThreadOk(comments, replies + [r]) && WaitingOk(comments, replies + [r], note)
  {
  }

  lemma OneLater(cs: seq<Comment>, id: int)
    requires Chronological(cs) && (if cs == [] then id >= 0 else id > cs[|cs| - 1].id)
    ensures Chronological(cs + [Comment(id, NOTIFICATION)]) && !Decides(Comment(id, NOTIFICATION))
  {
    assert |NOTIFICATION| == 42;
  }

  /** The issue, where anybody may comment at any time. */
  class Issue {
    var comments: seq<Comment>
    /** The id the last post reported, if it did. */
    ghost var posted: Option<int>
    /** What the last listing gave. */
    ghost var listed: Option<seq<Comment>>

    ghost predicate Valid()
      reads this
    {
      Chronological(comments)
    }

    constructor ()
      ensures Valid() && comments == []
    {
      comments, posted, listed := [], None, None;
    }

    method Discuss()
      requires Valid()
      modifies this`comments
      ensures Valid() && old(comments) <= comments
    {
      var more: seq<Comment> := *;
      if Chronological(comments + more) {
        comments := comments + more;
      }
    }

    /** All comments, or nothing if they cannot be fetched. */
    method ListComments() returns (r: Option<seq<Comment>>)
      requires Valid()
      modifies this`comments, this`listed
      ensures Valid() && old(comments) <= comments && (r.Some? ==> r.value == comments) && listed == r
    {
      Discuss();
      var failed: bool := *;
      r := if failed then None else Some(comments);
      listed := r;
    }

    /** The question is the newest comment; or posting it failed, and it may be there all the same. */
    method PostComment() returns (id: Option<int>)
      requires Valid()
      modifies this`comments, this`posted
      ensures Valid() && old(comments) <= comments
      ensures id.Some? ==> comments != [] && comments[|comments| - 1].id == id.value && !Decides(comments[|comments| - 1])
      ensures posted == id
    {
      Discuss();
      posted := None;
      var lost: bool := *;
      if lost {
        return None;
      }
      var next: int := *;
      var least := if comments == [] then 0 else comments[|comments| - 1].id + 1;
      next := if next < least then least else next;
      OneLater(comments, next);
      comments := comments + [Comment(next, NOTIFICATION)];
      var failed: bool := *;
      id := if failed then None else Some(next);
      posted := id;
    }
  }

  class Worker {
    const orchestrator: Orchestrator
    const level: Level
    const issue: Issue
    var pending: Option<Record>
    var processed: bool
    /** The issue was moved to the done status. */
    var issueDone: bool
    /** Where this worker came in, what was noted last, the replies applied, the approvals nobody gave. */
    ghost var base: nat
    ghost var note: Note
    ghost var replies: seq<Reply>
    ghost var autos: set<nat>

    ghost predicate Valid()
      reads this, orchestrator, orchestrator.registry, orchestrator.plans, orchestrator.progressStore, issue
    {
      && orchestrator.Valid() && base <= |orchestrator.log|
      && RepliesOk(orchestrator.budgets, orchestrator.log, base, replies)
      && CallsAccounted(orchestrator.log, base, replies, autos)
      && AutosOk(orchestrator.budgets, orchestrator.log, level, autos)
      && ThreadOk(issue.comments, replies)
      && (pending.Some? ==>
           && note.record == pending.value && WaitingOk(issue.comments, replies, note)
           && AtPause(orchestrator.budgets, orchestrator.log, note.at, note.record))
    }

    constructor (orchestrator: Orchestrator, level: Level, issue: Issue)
      requires orchestrator.Valid() && issue.Valid()
      ensures Valid() && this.orchestrator == orchestrator && this.level == level && this.issue == issue
      ensures pending.None? && !processed && !issueDone
    {
      this.orchestrator := orchestrator;
      this.level, this.issue := level, issue;
      pending, processed, issueDone := None, false, false;
      base, note, replies, autos := |orchestrator.log|, Note(0, Record(Gate, Intake, -1), 0), [], {};
    }

    /** The run is at the pause a status describes. */
    lemma AtPauseNow(st: RunStatus, record: Record)
      requires Valid() && StatusOf(orchestrator.DiskNow(), st) && SamePause(st, record)
      ensures AtPause(orchestrator.budgets, orchestrator.log, |orchestrator.log|, record)
      ensures pending.Some? ==> note.at <= |orchestrator.log|
    {
      assert orchestrator.log[..|orchestrator.log|] == orchestrator.log;
    }

    /** Over all polls: a reply decides its own gate, and of all replies to one gate only one takes effect. */
    lemma RepliesTakeEffectOnce(r: Reply, other: Reply)
      requires Valid() && r in replies && other in replies && r.note.record.stage == other.note.record.stage
      requires TookEffect(orchestrator.log, r) && TookEffect(orchestrator.log, other)
      ensures r.at == other.at && orchestrator.log[r.at + 1].from == r.note.record.stage
      ensures orchestrator.log[r.at + 1].next.Abandoned? <==> r.decision == "reject"
    {
      hide Exec, Inv, ThreadOk, WaitingOk, CallsAccounted, AutosOk, AtPause;
      assert ReplyOk(orchestrator.budgets, orchestrator.log, r) && ReplyOk(orchestrator.budgets, orchestrator.log, other);
      GateRepliesTakeEffectOnce(orchestrator.budgets, orchestrator.log, r, other);
    }

    /**
     * Over all polls: a checkpoint reply meets the question it was recorded for exactly if nothing was
     * asked since, unless an answer about the same thing was cut off in between.
     */
    lemma ReplyMeetsItsQuestionIff(r: Reply)
      requires Valid() && r in replies && r.note.record.kind.Checkpoint?
      requires r.at <= |orchestrator.log| && History(orchestrator.budgets, orchestrator.log)
      ensures r.note.at <= r.at
      ensures DiskAt(orchestrator.budgets, orchestrator.log, r.note.at).run.pointer.Some?
      ensures DiskAt(orchestrator.budgets, orchestrator.log, r.at).run.pointer.Some?
      ensures var q := DiskAt(orchestrator.budgets, orchestrator.log, r.note.at).run.pointer.value;
              var q' := DiskAt(orchestrator.budgets, orchestrator.log, r.at).run.pointer.value;
              && (NothingAsked(orchestrator.log, r.note.at, r.at) ==> q == q')
              && (!CutOff(orchestrator.log, q.trigger, r.note.at, r.at) ==>
                   (q.trigger == q'.trigger <==> NothingAsked(orchestrator.log, r.note.at, r.at)))
    {
      hide Exec, Inv, ThreadOk, WaitingOk, CallsAccounted, AutosOk;
      assert ReplyOk(orchestrator.budgets, orchestrator.log, r);
      AnswersTheRecordedQuestionIff(orchestrator.budgets, orchestrator.log, r);
    }

    /**
     * Over all polls: no comment decides two pauses, with one exact exception: the later question could
     * not be posted, and nobody has written a decision since.
     */
    lemma NoCommentDecidesTwoPauses(r: Reply, later: Reply)
      requires Valid() && r in replies && later in replies && r.note.at < later.note.at
      ensures r.comment == later.comment <==>
                later.note.record.lastSeen == -1 && NoDecision(issue.comments, r.comment + 1, later.polled)
    {
      hide Exec, Inv, RepliesOk, WaitingOk, CallsAccounted, AutosOk, AtPause;
      SameCommentIff(issue.comments, replies, r, later);
    }

    /**
     * Over all polls: whatever decided a gate or abandoned the run since this worker came in was a reply recorded
     * for that very stage, or an approval of a gate that the autonomy level leaves to nobody.
     */
    lemma GatesAreDecidedWithin(k: nat)
      requires Valid() && base <= k < |orchestrator.log| && IsDecision(orchestrator.log[k])
      requires History(orchestrator.budgets, orchestrator.log)
      ensures 0 <= k - CallDistance(orchestrator.log[k])
      ensures var c := k - CallDistance(orchestrator.log[k]);
              || (LeftToNobody(level, DiskAt(orchestrator.budgets, orchestrator.log, c)) && !orchestrator.log[k].next.Abandoned?)
              || (exists r :: r in replies && r.at == c && r.note.record.stage == orchestrator.log[k].from
                              && (orchestrator.log[k].next.Abandoned? <==> r.decision in ["reject", "stop"]))
    {
      hide Exec, Inv, ThreadOk, WaitingOk, RepliesOk, CallsAccounted, AtPause, LeftToNobody;
      DecisionsComeFromReplies(orchestrator.budgets, orchestrator.log, base, replies, autos, k);
    }

    /** Post the question, then write the record; the process may die in between. */
    method OnPause(st: RunStatus) returns (r: Result<(), Fault>)
      requires Valid() && StatusOf(orchestrator.DiskNow(), st) && !st.pause.NotPaused?
      modifies this`pending, this`note, issue`comments, issue`posted
      ensures Valid() && old(issue.comments) <= issue.comments
      ensures r.Success? ==> pending.Some? && SamePause(st, pending.value)
                             && note == Note(|orchestrator.log|, pending.value, |issue.comments|)
                             && pending.value.lastSeen == issue.posted.UnwrapOr(-1)
      ensures r.Failure? ==> pending == old(pending) && note == old(note) && Outside(r.error)
    {
      hide RepliesOk, CallsAccounted, AutosOk, AtPause, ThreadOk, WaitingOk, Exec, Inv;
      IssueIsValid();
      ghost var was := issue.comments;
      var posted := issue.PostComment();
      Discussed(was);
      var crashed: bool := *;
      if crashed {
        return Failure(Crashed);
      }
      var record := Record(KindOf(st.pause), st.stage, posted.UnwrapOr(-1));
      AtPauseNow(st, record);
      NotedNow(record);
      pending, note := Some(record), Note(|orchestrator.log|, record, |issue.comments|);
      return Success(());
    }

    lemma IssueIsValid()
      requires Valid()
      ensures issue.Valid() && (pending.Some? ==> NoteOk(issue.comments, note))
    {
    }

    /** New comments leave the books in order. */
    twostate lemma Discussed(was: seq<Comment>)
      requires old(Valid()) && was == old(issue.comments) && was <= issue.comments && issue.Valid()
      requires unchanged(this, orchestrator, orchestrator.registry, orchestrator.plans, orchestrator.progressStore)
      ensures Valid()
    {
      ThreadStays(was, issue.comments, replies);
    }

    /** A record written now is later than every reply read so far. */
    lemma NotedNow(record: Record)
      requires Valid()
      requires record.lastSeen == -1 || (issue.comments != [] && issue.comments[|issue.comments| - 1].id == record.lastSeen)
      ensures WaitingOk(issue.comments, replies, Note(|orchestrator.log|, record, |issue.comments|))
    {
      forall r | r in replies ensures r.note.at < |orchestrator.log| && r.polled <= |issue.comments| {
        assert ReplyOk(orchestrator.budgets, orchestrator.log, r) && ReadOk(issue.comments, r);
      }
    }

    /** The decision the autonomy level takes without asking anyone; checkpoints are always asked. */
    method AutoDecision(st: RunStatus) returns (auto: bool)
      ensures auto ==> st.pause.AtGate? && (st.stage.PlanApprovalGate? || st.stage.ChangeReviewGate?)
      ensures st.pause.AtGate? && st.stage.PlanApprovalGate? ==>
                var risky := orchestrator.plans.latest.Some? && orchestrator.plans.latest.value.highRisk;
                match level case L0 => !auto case L1 => !auto case L2 => auto == !risky case L3 => auto
      ensures st.pause.AtGate? && st.stage.ChangeReviewGate? ==> (auto <==> !level.L1?)
      ensures StatusOf(orchestrator.DiskNow(), st) ==> (auto <==> st.pause.AtGate? && LeftToNobody(level, orchestrator.DiskNow()))
    {
      auto := false;
      if st.pause.AtGate? {
        if st.stage.PlanApprovalGate? {
          var highRisk := orchestrator.plans.latest.Some? && orchestrator.plans.latest.value.highRisk;
          auto := !RequiresPlanApproval(level, highRisk);
        } else if st.stage.ChangeReviewGate? {
          auto := !RequiresChangeReview(level, false);
        }
      }
    }

    /** The call a decision on a pause comes to. */
    method Decide(st: RunStatus, decision: string) returns (r: Result<RunStatus, Fault>)
      requires orchestrator.Valid() && StatusOf(orchestrator.DiskNow(), st) && !st.pause.NotPaused?
      requires decision in (if st.pause.AtGate? then ["approve", "reject"] else ["continue", "stop"])
      modifies orchestrator.registry, orchestrator.plans, orchestrator.progressStore, orchestrator.clock
      modifies orchestrator`log, orchestrator`place, orchestrator`entries
      ensures orchestrator.Valid() && old(orchestrator.log) < orchestrator.log
      ensures orchestrator.entries == old(orchestrator.entries) + [|old(orchestrator.log)|]
      ensures orchestrator.log[|old(orchestrator.log)|] == Called(ReplyCall(Record(KindOf(st.pause), st.stage, -1), decision))
      ensures r.Success? ==> StatusOf(orchestrator.DiskNow(), r.value)
      ensures r.Success? ==> (r.value.stage.Abandoned? <==> decision in ["reject", "stop"])
      ensures r.Success? && st.pause.AtGate? && decision == "approve" ==>
                if st.stage.PlanApprovalGate? then !BeforeApproval(r.value.stage) else r.value.stage.Completed?
      ensures r.Failure? ==> Outside(r.error)
    {
      hide Exec, Inv, CallsIn;
      if st.pause.AtGate? {
        if st.stage.PlanApprovalGate? {
          r := orchestrator.DoApprovePlan(decision, "");
        } else {
          r := orchestrator.DoApproveChangeReview(decision);
        }
      } else {
        r := orchestrator.DoResolveCheckpoint(decision);
      }
    }

    /** The pause-handling loop when nobody is at the terminal. It approves at most two gates. */
    method DriveAsync(initial: RunStatus) returns (r: Result<RunOutcome, Fault>)
      requires Valid() && StatusOf(orchestrator.DiskNow(), initial)
      modifies this`pending, this`note, this`autos, issue`comments, issue`posted
      modifies orchestrator.registry, orchestrator.plans, orchestrator.progressStore, orchestrator.clock
      modifies orchestrator`log, orchestrator`place, orchestrator`entries
      ensures Valid() && old(orchestrator.log) <= orchestrator.log && old(issue.comments) <= issue.comments
      ensures r.Success? ==> r.value.stage == orchestrator.registry.row.stage
      ensures r.Success? ==> (r.value.paused <==> !Terminal(r.value.stage))
      ensures r.Success? && r.value.paused ==> pending.Some? && pending.value.stage == r.value.stage && r.value.exitCode == 2
      ensures r.Success? && r.value.paused ==> pending.value.kind.Checkpoint? || !LeftToNobody(level, orchestrator.DiskNow())
      ensures r.Success? && !r.value.paused ==> r.value.exitCode == 0
      ensures pending == old(pending) || pending.Some?
      ensures r.Failure? ==> Outside(r.error)
      ensures r.Success? ==> (r.value.stage.Abandoned? <==> initial.stage.Abandoned?)
    {
      hide RepliesOk, CallsAccounted, AutosOk, AtPause, Exec, Inv, ThreadOk, WaitingOk;
      var st := initial;
      while !st.pause.NotPaused?
        invariant Valid() && old(orchestrator.log) <= orchestrator.log && StatusOf(orchestrator.DiskNow(), st)
        invariant pending == old(pending) && note == old(note) && issue.comments == old(issue.comments)
        invariant st.stage.Abandoned? <==> initial.stage.Abandoned?
        decreases if BeforeApproval(st.stage) then 2 else if st.stage.Completed? then 0 else 1
      {
        var auto := AutoDecision(st);
        if !auto {
          var _ :- OnPause(st);
          return Success(RunOutcome(2, st.stage, true));
        }
        var approved := Approve(st);
        if approved.Failure? {
          return Failure(approved.error);
        }
        st := approved.value;
      }
      return Success(RunOutcome(0, st.stage, false));
    }

    /** An approval that the autonomy level does not leave to a human. */
    method Approve(st: RunStatus) returns (r: Result<RunStatus, Fault>)
      requires Valid() && StatusOf(orchestrator.DiskNow(), st) && st.pause.AtGate? && LeftToNobody(level, orchestrator.DiskNow())
      modifies this`autos
      modifies orchestrator.registry, orchestrator.plans, orchestrator.progressStore, orchestrator.clock
      modifies orchestrator`log, orchestrator`place, orchestrator`entries
      ensures Valid() && old(orchestrator.log) < orchestrator.log && orchestrator.log[|old(orchestrator.log)|].Called?
      ensures r.Success? ==> StatusOf(orchestrator.DiskNow(), r.value) && !r.value.stage.Abandoned?
      ensures r.Success? && st.stage.PlanApprovalGate? ==> !BeforeApproval(r.value.stage)
      ensures r.Success? && !st.stage.PlanApprovalGate? ==> r.value.stage.Completed?
      ensures r.Failure? ==> Outside(r.error)
    {
      hide RepliesOk, CallsAccounted, AutosOk, AtPause, Exec, Inv, CallsIn, ThreadOk, WaitingOk;
      ghost var was := orchestrator.log;
      r := Decide(st, "approve");
      autos := autos + {|was|};
      KeepAccounts(orchestrator.budgets, was, orchestrator.log, base, replies, old(autos), replies, autos, pending, note);
      AutosStay(orchestrator.budgets, was, orchestrator.log, level, old(autos), autos);
    }

    /** Apply a recorded decision to the pause it names, which the run still sits at. */
    method Apply(st: RunStatus, record: Record, decision: string, ghost reading: Reply) returns (r: Result<RunStatus, Fault>)
      requires Valid() && StatusOf(orchestrator.DiskNow(), st) && pending == Some(record) && SamePause(st, record)
      requires ReadOk(issue.comments, reading) && reading.note == note && reading.decision == decision
      requires decision in (if record.kind.Gate? then ["approve", "reject"] else ["continue", "stop"])
      modifies this`replies
      modifies orchestrator.registry, orchestrator.plans, orchestrator.progressStore, orchestrator.clock
      modifies orchestrator`log, orchestrator`place, orchestrator`entries
      ensures Valid() && old(orchestrator.log) < orchestrator.log && orchestrator.log[|old(orchestrator.log)|].Called?
      ensures replies == old(replies) + [reading.(at := |old(orchestrator.log)|)]
      ensures r.Success? ==> StatusOf(orchestrator.DiskNow(), r.value)
      ensures r.Success? ==> (r.value.stage.Abandoned? <==> decision in ["reject", "stop"])
      ensures r.Failure? ==> Outside(r.error)
    {
      hide RepliesOk, CallsAccounted, AutosOk, AtPause, Exec, Inv, CallsIn, ThreadOk, WaitingOk;
      ghost var was := orchestrator.log;
      AtPauseNow(st, record);
      r := Decide(st, decision);
      ghost var reply := reading.(at := |was|);
      OneMoreRead(issue.comments, replies, note, reply);
      replies := replies + [reply];
      NewReplyOk(orchestrator.budgets, was, orchestrator.log, reply);
      KeepAccounts(orchestrator.budgets, was, orchestrator.log, base, old(replies), autos, replies, autos, pending, note);
      AutosStay(orchestrator.budgets, was, orchestrator.log, level, autos, autos);
    }

    /** A resume, on the worker's books. */
    method Resume() returns (r: Result<RunStatus, Fault>)
      requires Valid()
      modifies orchestrator.registry, orchestrator.plans, orchestrator.progressStore, orchestrator.clock
      modifies orchestrator`log, orchestrator`place, orchestrator`entries
      ensures Valid() && old(orchestrator.log) < orchestrator.log && orchestrator.log[|old(orchestrator.log)|].Called?
      ensures r.Success? ==> StatusOf(orchestrator.DiskNow(), r.value)
      ensures r.Success? ==> (orchestrator.registry.row.stage.Abandoned? <==> old(orchestrator.registry.row.stage).Abandoned?)
      ensures r.Failure? ==> Outside(r.error)
    {
      hide RepliesOk, CallsAccounted, AutosOk, AtPause, Exec, Inv, CallsIn, ThreadOk, WaitingOk;
      ghost var was := orchestrator.log;
      r := orchestrator.ResumeRun();
      KeepAccounts(orchestrator.budgets, was, orchestrator.log, base, replies, autos, replies, autos, pending, note);
      AutosStay(orchestrator.budgets, was, orchestrator.log, level, autos, autos);
    }

    /**
     * Resume first, then apply the decision only if that lands on the recorded pause. An abandoned run
     * is reported with exit code 1 only by the very call that abandons it; any later call reports 0.
     */
    method ResumePausedRunAsync(record: Record, decision: string, ghost reading: Reply) returns (r: Result<RunOutcome, Fault>)
      requires Valid() && pending == Some(record)
      requires ReadOk(issue.comments, reading) && reading.note == note && reading.decision == decision
      requires decision in (if record.kind.Gate? then ["approve", "reject"] else ["continue", "stop"])
      modifies this`pending, this`note, this`replies, this`autos, issue`comments, issue`posted
      modifies orchestrator.registry, orchestrator.plans, orchestrator.progressStore, orchestrator.clock
      modifies orchestrator`log, orchestrator`place, orchestrator`entries
      ensures Valid() && old(orchestrator.log) < orchestrator.log && old(issue.comments) <= issue.comments
      ensures replies == old(replies)
              || (exists at :: |old(orchestrator.log)| <= at
                               && replies == old(replies) + [reading.(at := at)])
      ensures forall k | |old(orchestrator.log)| <= k < |orchestrator.log| ::
                orchestrator.log[k].Moved? && orchestrator.log[k].next.Abandoned? ==>
                  && decision in ["reject", "stop"] && orchestrator.log[k].from == record.stage
                  && |replies| > |old(replies)|
      ensures r.Success? && |replies| > |old(replies)| ==> (r.value.stage.Abandoned? <==> decision in ["reject", "stop"])
      ensures r.Success? && replies == old(replies) ==>
                exists n :: |old(orchestrator.log)| < n <= |orchestrator.log|
                            && !AtPause(orchestrator.budgets, orchestrator.log, n, record)
      ensures r.Success? ==> r.value.stage == orchestrator.registry.row.stage
      ensures r.Success? && r.value.paused ==> r.value.exitCode == 2
      ensures pending.Some?
      ensures r.Failure? ==> Outside(r.error)
      ensures r.Success? ==> (r.value.paused <==> !Terminal(r.value.stage))
      ensures r.Success? && r.value.stage.Completed? ==> r.value.exitCode == 0
      ensures r.Success? && r.value.stage.Abandoned? ==>
                (r.value.exitCode == 0 <==> old(orchestrator.registry.row.stage).Abandoned?)
    {
      hide RepliesOk, CallsAccounted, AutosOk, AtPause, Exec, Inv, CallsIn, ThreadOk, WaitingOk;
      r := ResumeAndApply(record, decision, reading);
      OnlyThisReplyAbandons(old(orchestrator.log), old(replies), reading);
    }

    /** The replies on the books before this call were applied before it; so what abandons the run now is this one. */
    lemma OnlyThisReplyAbandons(was: seq<Event>, before: seq<Reply>, reading: Reply)
      requires Valid() && base <= |was| && was <= orchestrator.log
      requires |was| < |orchestrator.log| ==> orchestrator.log[|was|].Called?
      requires forall r | r in before :: r.at < |was|
      requires replies == before || (exists at :: replies == before + [reading.(at := at)])
      ensures forall k | |was| <= k < |orchestrator.log| ::
                orchestrator.log[k].Moved? && orchestrator.log[k].next.Abandoned? ==>
                  && reading.decision in ["reject", "stop"] && orchestrator.log[k].from == reading.note.record.stage
                  && replies != before
    {
      hide Exec, Inv, RepliesOk, CallsAccounted, AutosOk, AtPause, CallsIn, History, ThreadOk, WaitingOk;
      var log := orchestrator.log;
      IsHistory();
      forall k | |was| <= k < |log| && log[k].Moved? && log[k].next.Abandoned?
        ensures reading.decision in ["reject", "stop"] && log[k].from == reading.note.record.stage && replies != before
      {
        AbandonedByReply(orchestrator.budgets, log, base, |was|, replies, autos, k);
      }
    }

    /** A run at any other pause than the recorded one, or at none, is not at it. */
    lemma NotAtPause(st: RunStatus, record: Record)
      requires Valid() && StatusOf(orchestrator.DiskNow(), st) && !SamePause(st, record)
      ensures !AtPause(orchestrator.budgets, orchestrator.log, |orchestrator.log|, record)
    {
      hide Inv, RepliesOk, CallsAccounted, AutosOk, CallsIn, ThreadOk, WaitingOk;
      assert orchestrator.log[..|orchestrator.log|] == orchestrator.log;
    }

    /** Where a run was at some moment does not change afterwards. */
    lemma AwayStays(resumed: seq<Event>, record: Record)
      requires Valid() && resumed <= orchestrator.log
      ensures AtPause(orchestrator.budgets, orchestrator.log, |resumed|, record) ==>
                AtPause(orchestrator.budgets, resumed, |resumed|, record)
    {
      hide Exec, Inv, RepliesOk, CallsAccounted, AutosOk, CallsIn, History, ThreadOk, WaitingOk;
      IsHistory();
      StatesStay(orchestrator.budgets, resumed, orchestrator.log, |resumed|);
    }

    lemma IsHistory()
      requires Valid()
      ensures History(orchestrator.budgets, orchestrator.log)
    {
      hide Inv, RepliesOk, CallsAccounted, AutosOk, AtPause, CallsIn, ThreadOk, WaitingOk;
    }

    lemma RepliesWereBefore()
      requires Valid()
      ensures forall r | r in replies :: r.at < |orchestrator.log|
    {
    }

    method ResumeAndApply(record: Record, decision: string, ghost reading: Reply) returns (r: Result<RunOutcome, Fault>)
      requires Valid() && pending == Some(record)
      requires ReadOk(issue.comments, reading) && reading.note == note && reading.decision == decision
      requires decision in (if record.kind.Gate? then ["approve", "reject"] else ["continue", "stop"])
      modifies this`pending, this`note, this`replies, this`autos, issue`comments, issue`posted
      modifies orchestrator.registry, orchestrator.plans, orchestrator.progressStore, orchestrator.clock
      modifies orchestrator`log, orchestrator`place, orchestrator`entries
      ensures Valid() && old(orchestrator.log) < orchestrator.log && orchestrator.log[|old(orchestrator.log)|].Called?
      ensures old(issue.comments) <= issue.comments
      ensures replies == old(replies)
              || (exists at :: |old(orchestrator.log)| <= at
                               && replies == old(replies) + [reading.(at := at)])
      ensures forall x | x in old(replies) :: x.at < |old(orchestrator.log)|
      ensures r.Success? && |replies| > |old(replies)| ==> (r.value.stage.Abandoned? <==> decision in ["reject", "stop"])
      ensures r.Success? && replies == old(replies) ==>
                exists n :: |old(orchestrator.log)| < n <= |orchestrator.log|
                            && !AtPause(orchestrator.budgets, orchestrator.log, n, record)
      ensures r.Success? ==> r.value.stage == orchestrator.registry.row.stage
      ensures r.Success? && r.value.paused ==> r.value.exitCode == 2
      ensures pending.Some?
      ensures r.Failure? ==> Outside(r.error)
      ensures r.Success? ==> (r.value.paused <==> !Terminal(r.value.stage))
      ensures r.Success? && r.value.stage.Completed? ==> r.value.exitCode == 0
      ensures r.Success? && r.value.stage.Abandoned? ==>
                (r.value.exitCode == 0 <==> old(orchestrator.registry.row.stage).Abandoned?)
    {
      hide RepliesOk, CallsAccounted, AutosOk, AtPause, Exec, Inv, CallsIn, ThreadOk, WaitingOk, ReadOk, LeftToNobody;
      RepliesWereBefore();
      var st :- Resume();
      if SamePause(st, record) {
        st :- Apply(st, record, decision, reading);
        if decision == "reject" || decision == "stop" {
          return Success(RunOutcome(1, st.stage, false));
        }
      } else {
        NotAtPause(st, record);
      }
      ghost var resumed := orchestrator.log;
      r := DriveAsync(st);
      AwayStays(resumed, record);
    }

    /** A newly picked-up story: the first drive, and the first pause noted. */
    method StartRunAsync() returns (r: Result<RunOutcome, Fault>)
      requires Valid() && pending.None?
      modifies this`pending, this`note, this`autos, issue`comments, issue`posted
      modifies orchestrator.registry, orchestrator.plans, orchestrator.progressStore, orchestrator.clock
      modifies orchestrator`log, orchestrator`place, orchestrator`entries
      ensures Valid() && old(orchestrator.log) < orchestrator.log && replies == old(replies) && old(issue.comments) <= issue.comments
      ensures r.Success? ==> r.value.stage == orchestrator.registry.row.stage
      ensures r.Success? ==> if Terminal(r.value.stage) then !r.value.paused && r.value.exitCode == 0
                             else r.value.exitCode == 2 && pending.Some? && pending.value.stage == r.value.stage
      ensures r.Failure? ==> Outside(r.error)
    {
      hide RepliesOk, CallsAccounted, AutosOk, AtPause, Exec, Inv, CallsIn, ThreadOk, WaitingOk;
      var st :- Resume();
      r := DriveAsync(st);
    }

    /** The issue is closed, the record dropped, and the issue marked: the process may die before each. */
    method FinishIssue(exitCode: nat) returns (r: Result<(), Fault>)
      requires Valid()
      modifies this`pending, this`processed, this`issueDone
      ensures Valid()
      ensures issueDone == old(issueDone) || (issueDone && exitCode == 0)
      ensures r.Success? ==> pending.None? && processed && issueDone == (old(issueDone) || exitCode == 0)
      ensures r.Failure? ==> r.error.Crashed? && processed == old(processed)
      ensures pending == old(pending) || pending.None?
    {
      hide RepliesOk, CallsAccounted, AutosOk, AtPause, Exec, Inv, CallsIn, ThreadOk, WaitingOk;
      var crashed: bool := *;
      if crashed {
        return Failure(Crashed);
      }
      if exitCode == 0 {
        issueDone := true;
      }
      crashed := *;
      if crashed {
        return Failure(Crashed);
      }
      pending := None;
      crashed := *;
      if crashed {
        return Failure(Crashed);
      }
      processed := true;
      return Success(());
    }

    /**
     * One poll of one issue: the run is resumed exactly if the issue could be read and holds a decision. A
     * poll that dies leaves the record, so the next one retries it, except that one can die between dropping
     * the record and marking the issue. The issue is closed as done for every run that ends with exit code 0,
     * also for an abandoned one whose rejecting poll died.
     */
    method CheckPendingDecision() returns (r: Result<(), Fault>)
      requires Valid()
      modifies this`pending, this`processed, this`issueDone, this`note, this`replies, this`autos, issue
      modifies orchestrator.registry, orchestrator.plans, orchestrator.progressStore, orchestrator.clock
      modifies orchestrator`log, orchestrator`place, orchestrator`entries
      ensures Valid() && old(orchestrator.log) <= orchestrator.log
      ensures old(pending).None? ==> pending == old(pending) && orchestrator.log == old(orchestrator.log)
      ensures |replies| <= |old(replies)| + 1 && old(issue.comments) <= issue.comments
      ensures r.Failure? && pending.None? ==> old(pending).None? || Terminal(orchestrator.registry.row.stage)
      ensures |replies| > |old(replies)| ==>
                && old(pending).Some? && replies[|old(replies)|].note == old(note) && ReadsNewest(issue.comments, replies[|old(replies)|])
      ensures old(pending).Some? ==>
                (orchestrator.log != old(orchestrator.log) <==>
                   issue.listed.Some? && exists i: nat :: Newest(issue.listed.value, old(pending).value.lastSeen, i))
      ensures r.Success? && |replies| > |old(replies)| ==>
                (orchestrator.registry.row.stage.Abandoned? <==>
                   WordOf(issue.comments, replies[|old(replies)|]) in NEGATIVE_WORDS)
      ensures forall k | |old(orchestrator.log)| <= k < |orchestrator.log| ::
                orchestrator.log[k].Moved? && orchestrator.log[k].next.Abandoned? ==>
                  && |replies| > |old(replies)| && old(pending).Some? && orchestrator.log[k].from == old(pending).value.stage
                  && WordOf(issue.comments, replies[|old(replies)|]) in NEGATIVE_WORDS
      ensures issueDone && !old(issueDone) ==> Terminal(orchestrator.registry.row.stage)
      ensures issueDone && !old(issueDone) && orchestrator.registry.row.stage.Abandoned? ==>
                old(orchestrator.registry.row.stage).Abandoned?
      ensures r.Success? && pending.None? && old(pending).Some? ==>
                && processed && Terminal(orchestrator.registry.row.stage)
                && (issueDone || old(issueDone) <==>
                     old(issueDone) || orchestrator.registry.row.stage.Completed?
                     || old(orchestrator.registry.row.stage).Abandoned?)
    {
      hide RepliesOk, CallsAccounted, AutosOk, AtPause, Exec, Inv, CallsIn, ThreadOk, WaitingOk;
      hide Newest, ReadsNewest, WordOf, ReadOk, NewestDecision, Chronological;
      if pending.None? {
        return Success(());
      }
      var record := pending.value;
      IssueIsValid();
      ghost var was := issue.comments;
      var listed := issue.ListComments();
      Discussed(was);
      if listed.None? {
        return Success(());
      }
      assert issue.listed == listed;
      RepliesAreNarrow(listed.value, record.lastSeen, record.kind);
      var decision := NewestDecision(listed.value, record.lastSeen, record.kind);
      if decision.None? {
        return Success(());
      }
      ghost var reading := ReadingOf(listed.value, note, decision.value);
      var resumed := ResumePausedRunAsync(record, decision.value, reading);
      if at :| replies == old(replies) + [reading.(at := at)] {
        ReadIsNewest(listed.value, issue.comments, reading, at);
      }
      assert orchestrator.log != old(orchestrator.log) && issue.listed == listed;
      if resumed.Failure? {
        return Failure(resumed.error);
      }
      var outcome := resumed.value;
      if outcome.paused {
        return Success(());  // OnPause already wrote the record of the new pause
      }
      r := FinishIssue(outcome.exitCode);
    }
  }
}
