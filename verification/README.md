# Verified model of the software-delivery orchestrator

The system takes a story from an issue tracker through nine stages: a plan is authored, approved by a human, implemented
subtask by subtask, verified, reviewed and packaged. All its state lives in three durable stores (the run registry, the
plan artifacts and the progress record), and it may be killed and resumed at any point. Around it sit smaller services
with protocols of their own. This project models both in Dafny and proves what they promise.

## How it is organised

- `Stages`, `Checkpoints`, `Plans`, `Scheduling`: stages and legal edges, checkpoint triggers and failure budgets, plan
  artifacts and the repair of ungoverned parallel groups, and the subtask scheduler.
- `RunMachine`, `RunInvariants`, `RunTheorems`: one run as a state machine whose steps are single durable writes and
  single outside calls. A crash is a history that stops; whatever comes next starts with a new call on the same disk. The
  theorems speak about every history. `RunRecord` counts the disk up from the events alone, and `RunSteps` says what each event
  comes from and leads to. `RunClock` says what the clock asks, `RunReplies` which call and which question a
  decision belongs to. `RunLimits` and `RunRisk` hold the claims that look true and are not, each with the exact condition
  under which it holds; `RunExamples` and `ReplyExamples` build, from intake on, a run for each
  claim about runs in the list below.
- `Stores`, `Orchestrator`: the stores and the orchestrator as classes whose methods update fields, with the drive loop as a
  loop. Every method is tied to the state machine through a ghost history, so the theorems hold of the class too. The
  drive loop is proved to end for every backend, verifier and graph under a clock that moves on.
- `RunWorker`: the polling worker that waits for a reply on the issue and resumes, with every reply it ever applied on its books.
- `SingleFlight`, `Dispatcher`: the capacity coordinator as interleaved threads, and the trigger queue and dispatcher.
- `JsonSchema`, `PlanParsing`, `PlanRoundTrip`: the strict rewriting of schemas (JSON Schema draft 2020-12: Core 10.3.1.2,
  10.3.2.1, 10.3.2.3; Validation 6.1.1, 6.1.2, 6.5.3) and the parsing behind it.
- `Failover`, `RateLimiter`, `BusinessCalendar`, `Batching`, `Gates`, `GateService`, `Adf`: one component each.

## Where the code and its description differ

The model follows the code; the lemmas named here make each difference precise.

- A rate limit of n admits up to 2n-1 calls in one window length (`RateLimiting.LimitHoldsIffOne`).
- "request_changes" at the change review changes nothing before the next verification
  (`RunLimits.RequestedChangesAreNotImplemented`, `RunExamples.ChangesRequestedInVain`).
- "stop" is two durable writes; any call that comes in between them lets the run go on (`RunLimits.StopIsTwoWrites`).
- A run can be packaged twice, exactly if packaging raised or the process died right after it (`RunTheorems.PackagingRepeatsIff`).
- The same question can be asked twice, after a process died between its answer and the acknowledgement
  (`RunTheorems.NoQuestionTwice`).
- A comment can decide two pauses, exactly if the later question could not be posted and nobody has decided anything since
  (`RunWorker.SameCommentIff`): the comment that approved a plan may approve the change (`ReplyExamples.OneCommentDecidesTwoPauses`).
- A poll can die between dropping its record and marking the issue as processed (`RunWorker.Worker.FinishIssue`).
- A risk can reach verification unanswered in exactly four ways (`RunRisk.OpenRiskAtVerificationIff`); `RunExamples` has a
  run for each. One is that fix-ups are not checked at all (`RunRisk.FixUpsAreNotChecked`).
- Verification does not imply that every subtask is done on a cyclic or dangling graph
  (`RunTheorems.VerificationMeansAllDone`, `RunExamples.NothingDoneAtVerification`).
- A parallel call answered with no diff counts as neither success nor failure: the drive loop repeats it for exactly as
  long as the clock asks nothing (`RunLimits.EmptyAnswersLoopIff`), which is not for ever (`RunClock.FewQuietReadings`).
- Nothing adds to the money a run has spent, so its cost ceiling is never reached (`RunRecord.RecordIsTally`,
  `RunSteps.OnlyTimeIsAsked`).
- Acknowledging a time or cost question does not quiet the next one (`RunClock.AnsweringDoesNotQuiet`).
- A rejected run whose rejecting poll died is later reported as finished (`RunWorker.Worker.ResumePausedRunAsync`,
  `ReplyExamples.RejectionReportedAsDone`).
- A reply to one checkpoint is applied to another one at the same stage (`ReplyExamples.ReplyMeetsAnotherQuestion`), exactly
  if something was asked since its record was written (`RunWorker.Worker.ReplyMeetsItsQuestionIff`).
- A retry that raises loses its trigger (`Dispatching.LostIffRaised`, `Dispatching.RetryLosesTrigger`).
- The default approver can clear a gate that escalated meanwhile (`Gates.EscalationRace`), exactly if the escalation falls
  between reading the authority and judging (`Gates.ClearedAroundEscalationIff`).
- A plan can pass the answer schema and be refused (`PlanRoundTrip.AcceptedButRefused`).
- One gate with a negative grace period makes every sweep that reaches it raise
  (`GateService.GatesService.CheckEscalations`).
- A fallback model listed twice is tried twice (`Failover.RepeatedFallbackIsTriedTwice`).

## Assumptions

- One driver per run. The registry is modelled from its own code as a row under compare-and-swap on its version.
- Writing one file or one registry row is atomic. A plan save is two file writes.
- A trigger's signature is modelled by the trigger itself; lists of files that are only ever used as sets are sets.
- Any two readings of the clock are at least some fixed positive amount apart. Only the end of the drive loop needs this.
- A stage without a callback is one with a callback that does nothing.
- A later comment on an issue has a larger id, as the polling worker itself relies on.
- Backend, verifier, packaging callback, provider, registry and issue tracker answer anything, or raise.
- Times are integers or reals; identities are compared after an arbitrary normalization function.

## Model

| member | source | states |
|---|---|---|
| Stages.EdgesOfTheWay | services/run-registry/src/run_registry/stages.py:86-123 | the legal transitions are one stage on along the way, the three ways back to work, and abandoning from any stage that is not an end; exactly the two ends have none |
| Checkpoints.FlagIsOnePlaceUp | services/orchestrator/src/orchestrator/checkpoints.py:125-150 | for every table of budgets, the high-risk flag gives the budget of the next larger size, the largest staying as it is; an unflagged size gets its own entry; the two errors are exact |
| Checkpoints.DefaultRunnable | services/orchestrator/src/orchestrator/checkpoints.py:134-150 | with the shipped budgets exactly S, M and ordinary L stories run, each on the very budget spelled out, a high-risk S on that of M and a high-risk M on that of L; the unknown-size error is raised exactly for a high-risk story of no known size |
| Checkpoints.EvaluationIsExact | services/orchestrator/src/orchestrator/checkpoints.py:178-276 | an evaluation lists exactly the violations, once each and in order, with their own numbers: lines over the limit (three times that for at most one file) or files over it; the touched files out of scope; 80% of time or cost, a hard stop at 100%; three failures or more |
| Checkpoints.PresentedRanksFirst | services/orchestrator/src/orchestrator/core.py:654-669 | the question presented is the unanswered violation that ranks first; there is none exactly if every violation was answered |
| Checkpoints.Unacknowledged | services/orchestrator/src/orchestrator/core.py:654-656 | exactly the triggers whose signature was not acknowledged remain, and the first of them is the first such trigger of the list |
| Checkpoints.PresentedInOrder | services/orchestrator/src/orchestrator/checkpoints.py:257-276 | the question presented is the first open check in the order size, risk, time and cost, stuck; what each check asks, and when, is EvaluationIsExact |
| Checkpoints.FirstStuck | services/orchestrator/src/orchestrator/core.py:716-727 | a stuck trigger of the list, or none if there is none |
| Checkpoints.StuckPresented | services/orchestrator/src/orchestrator/checkpoints.py:242-254 | a failure count asks a question exactly when it reached the budget of 3 and that very count was never acknowledged |
| Checkpoints.FailuresLeftIsFirst | services/orchestrator/src/orchestrator/checkpoints.py:242-254 | the failures left of a streak end at the first count that fires and is not acknowledged; every earlier firing count is acknowledged |
| Checkpoints.RetryBudgetBound | services/orchestrator/src/orchestrator/checkpoints.py:242-254 | pigeonhole: a streak is at most the plain budget plus one failure per acknowledged stuck count above it |
| Checkpoints.FreshStreakPausesAtBudget | services/orchestrator/src/orchestrator/checkpoints.py:242-254 | a reset streak pauses after exactly 3 failures if and only if the count 3 was never acknowledged before |
| Plans.DemoteUngovernedParallelGroups | services/orchestrator/src/orchestrator/plan_artifact.py:150-173 | the in-place repair turns the task list into its repaired form and names exactly the ids of the demoted subtasks |
| Plans.GroupTasks | services/orchestrator/src/orchestrator/plan_artifact.py:159-163 | the grouping loop files every subtask of a truthy group under that group, in plan order, and nothing else |
| Plans.RepairGroup | services/orchestrator/src/orchestrator/plan_artifact.py:164-173 | a group of two or more with a missing contract is demoted whole; any other group is left alone |
| Plans.DemotedIsGoverned | services/orchestrator/src/orchestrator/plan_artifact.py:150-173 | after repair no shared group lacks a contract; ids, order, texts, dependencies and contracts are untouched |
| Plans.DemotionIdempotent | services/orchestrator/src/orchestrator/plan_artifact.py:150-173 | a governed plan is left as it is, so repairing twice is repairing once |
| Plans.DemotionIsAllOrNothing | services/orchestrator/src/orchestrator/plan_artifact.py:164-173 | members of one group keep or lose the marker together, and lose it exactly when the group was ungoverned |
| Plans.GeneratePlanArtifact | services/orchestrator/src/orchestrator/plan_artifact.py:57-147 | the stored artifact, which records the whole authored plan field by field and subtask by subtask, or the schema violation (a negative budget number is one), with the demoted ids reported exactly |
| Plans.PlanForIsWellPlanned | services/orchestrator/src/orchestrator/core.py:206-242 | every generated artifact is governed, has a runnable budget and non-empty ids, and keeps the subtasks, their order and their dependencies |
| Plans.PlanIsRecorded | services/orchestrator/src/orchestrator/plan_artifact.py:57-147 | every stored plan has exactly the authored files in scope, scope, criteria, risk, size and subtasks, on the budget its size and flag resolve to; a subtask loses its group exactly if it shares it and some member has no contract, and is parallel exactly if it has one left; no budget is the only way to be refused for want of one |
| Scheduling.NoNextMeansDone | services/orchestrator/src/orchestrator/core.py:489-496 | "no next subtask" means "all done" if and only if the graph can be scheduled, whatever was completed before |
| Scheduling.NextIsFirstReady | services/orchestrator/src/orchestrator/core.py:489-496 | the next subtask is the first of the plan that is ready |
| Scheduling.BatchOfNext | services/orchestrator/src/orchestrator/core.py:498-519 | its batch is that one alone outside a group, and otherwise every ready subtask of its group and no other, in plan order |
| Scheduling.UnschedulableIffBlocked | services/orchestrator/src/orchestrator/core.py:489-496 | a graph cannot be finished if and only if some set of subtasks each waits inside the set or for an id nobody carries (a cycle or a dangling dependency) |
| Scheduling.RankedIsSchedulable | services/orchestrator/src/orchestrator/core.py:489-496 | an acyclic, dependency-closed graph can be scheduled |
| Scheduling.RunToEnd | services/orchestrator/src/orchestrator/core.py:489-496 | running ready subtasks until none is left keeps the order a linear extension and ends with nothing ready |
| Scheduling.CompletingKeepsOrder | services/orchestrator/src/orchestrator/core.py:605-608 | completing a ready batch keeps the order of completion a linear extension of the dependencies |
| Scheduling.CompletingKeepsDistinct | services/orchestrator/src/orchestrator/core.py:605-608 | with unique ids, absorbing any first part of a batch never records an id twice |
| Scheduling.ParallelBatchIsSafe | services/orchestrator/src/orchestrator/core.py:498-519 | two or more batched subtasks are in one group, each with a contract, whatever the ids; with unique ids they are also distinct and none needs another directly or through any chain |
| Scheduling.RepeatedIdsBreakIndependence | services/orchestrator/src/orchestrator/core.py:498-519 | with an id used twice a batch can hold two subtasks of one id, so unique ids are needed for the second half |
| Scheduling.NeedsAreDone | services/orchestrator/src/orchestrator/core.py:498-519 | everything a ready subtask needs, however far away, is complete, whatever the ids; an id needs what every subtask of that id depends on |
| Scheduling.PathNeeds | services/orchestrator/src/orchestrator/core.py:498-519 | with unique ids that is everything reached along any chain of dependencies |
| Scheduling.BatchAdvances | services/orchestrator/src/orchestrator/core.py:577-608 | every diff of a batch completes one more open subtask; a batch contains only ready, unfinished subtasks |
| RunMachine.PrefixHistory | services/orchestrator/src/orchestrator/core.py:265-271 | every prefix of a history is a history: a process can die after any durable write |
| RunMachine.AnswersAreAdded | services/orchestrator/src/orchestrator/core.py:546-615 | the record after an answer: a file is in it if and only if it was or one of the kept diffs touched it, lines are added up, a batch completes the subtasks its diffs pair with and ends the streak, a fix-up clears only the failure summary, a raised call only counts |
| RunInvariants.StepKeepsInv | services/orchestrator/src/orchestrator/core.py:401-484 | every durable write and outside call keeps the disk and process invariant |
| RunInvariants.HistoryKeepsInv | services/orchestrator/src/orchestrator/core.py:265-361 | the invariant holds after every history, with a crash allowed between any two durable writes |
| RunTheorems.EveryMoveIsLegal | services/run-registry/src/run_registry/stages.py:86-123 | every transition the orchestrator takes is a legal edge and bumps the version by one, so the registry never refuses |
| RunTheorems.WorkIsNeverLost | services/orchestrator/src/orchestrator/core.py:605-615 | completed ids and acknowledgements only grow, over every history and every crash |
| RunTheorems.WorkIsNeverRedone | services/orchestrator/src/orchestrator/core.py:489-519 | no backend call includes a subtask that was complete at any earlier time |
| RunTheorems.CompletionOrder | services/orchestrator/src/orchestrator/core.py:605-615 | over every history the completed ids are a linear extension of the dependencies, without duplicates when ids are unique |
| RunTheorems.VerificationMeansAllDone | services/orchestrator/src/orchestrator/core.py:521-536 | at every move to verification all subtasks are complete if and only if the graph can be scheduled at all |
| RunTheorems.ParallelCallsAreSafe | services/orchestrator/src/orchestrator/core.py:596-601 | every parallel backend call of every history is on subtasks of the plan in one group, each with a contract; with unique ids they are also distinct with no dependency chain between them |
| RunTheorems.ShippedRunsWereApproved | services/orchestrator/src/orchestrator/core.py:273-320 | a run that reached packaging saw plan approval, then its implementation calls, then a passing verification, then change-review approval, with nothing implemented, planned or verified in between |
| RunTheorems.NeverBackToPlanning | services/orchestrator/src/orchestrator/core.py:273-304 | once the plan is approved or rejected no history leads back to planning |
| RunTheorems.SettledForever | services/orchestrator/src/orchestrator/core.py:306-320 | a run that reached packaging or an end never goes back to work |
| RunTheorems.GateDecidedOnce | services/orchestrator/src/orchestrator/core.py:273-320 | an approval or rejection of a gate takes effect at most once, however often callers retry |
| RunTheorems.PackagingRepeatsIff | services/orchestrator/src/orchestrator/core.py:471-475 | a packaged run can be packaged again if and only if packaging raised or the process died between packaging and the move |
| RunTheorems.PackagedBeforeMovingOn | services/orchestrator/src/orchestrator/core.py:471-475 | every run that went past packaging was packaged without an error right before |
| RunTheorems.PendingBlocks | services/orchestrator/src/orchestrator/core.py:404-407 | a question is pending only while working, with the stage it was raised at, and until it is answered nothing else is written and nobody is called |
| RunTheorems.NoQuestionTwice | services/orchestrator/src/orchestrator/core.py:654-669 | two questions of a run with the same signature: the answer to that very question was written in between, by a process that died before acknowledging it |
| RunTheorems.PlansAreImmutable | services/orchestrator/src/orchestrator/plan_artifact.py:200-220 | a committed plan version never changes and versions never go back |
| RunTheorems.StoredPlansAreRunnable | services/orchestrator/src/orchestrator/core.py:206-242 | stored versions are exactly 1..k, plus at most version k+1 cut off by a crash, and each still resolves to a runnable budget |
| RunTheorems.ExtensionClearsRisk | services/orchestrator/src/orchestrator/core.py:363-378 | widening the scope keeps the graph, only grows the scope, adds one version, and leaves no risk in the accumulated diff |
| RunClock.TimeCostIsAskedIff | services/orchestrator/src/orchestrator/checkpoints.py:220-239 | time and cost are among the questions exactly if the threshold is crossed and this very reading was never answered |
| RunClock.AnsweringDoesNotQuiet | services/orchestrator/src/orchestrator/checkpoints.py:231-237 | answering a time and cost question does not quiet a later reading: the next evaluation asks again |
| RunClock.FewQuietReadings | services/orchestrator/src/orchestrator/core.py:646-656 | a clock that moves on by at least a fixed amount has only a bounded number of readings at which nothing is asked |
| RunReplies.DecisionsAreCalledFor | services/orchestrator/src/orchestrator/core.py:273-347 | over every history a gate is decided or a run abandoned only by the call with that very decision, made at that very stage, right before it |
| RunReplies.SameQuestionIff | services/orchestrator/src/orchestrator/core.py:654-669 | questions pending at two moments of a history are one and the same if nothing was asked in between; otherwise they are about different things, unless an answer about that very thing was cut off in between |
| RunRecord.RecordIsTally | services/orchestrator/src/orchestrator/core.py:546-615 | over every history the saved files and lines are those of all diffs of all answers that were saved, the completed ids those of the answered subtasks in order, the failures those since the last success, the acknowledged violations exactly those answered, and nothing is ever spent |
| RunRecord.RowIsTally | services/orchestrator/src/orchestrator/core.py:163-190 | over every history the row is at the stage last moved to, with the pointer last written, one version per write and one attempt per new plan asked for, which is also the attempt of the record |
| RunSteps.CallsLeadTo | services/orchestrator/src/orchestrator/core.py:265-361 | over every history, what a call is followed by, short of another call, is the one write or outside call it stands for; a refused call is followed by nothing |
| RunSteps.CallsActIff | services/orchestrator/src/orchestrator/core.py:265-361 | a call can be followed by anything but another call if and only if it is accepted: the right stage, a known decision, a pending question, or a run to drive |
| RunSteps.AnswersLeadTo | services/orchestrator/src/orchestrator/core.py:546-816 | what the backend or the verifier answered is saved before anything else; then a pass opens the change review, a fix-up is verified, and anything else is checked |
| RunSteps.QuestionsComeFrom | services/orchestrator/src/orchestrator/core.py:646-746 | every question of every history is an unanswered violation of the record, plan and clock reading before it: after a batch the one that ranks first, after a failure only being stuck |
| RunSteps.ReadingsLeadTo | services/orchestrator/src/orchestrator/core.py:646-746 | after a batch something is asked if and only if a violation is unanswered, after a failure if and only if being stuck is; otherwise the run goes on with what is ready, or to verification, or back from it |
| RunSteps.RepliesComeFrom | services/orchestrator/src/orchestrator/core.py:322-347 | an answer is written only right after the call that gave it, to the question that was pending, as it was given |
| RunSteps.RepliesLeadTo | services/orchestrator/src/orchestrator/core.py:343-378 | "stop" abandons the run; any other answer acknowledges exactly that violation; then "extend_scope" for a risk, and nothing else, saves the same plan with exactly the files asked about added |
| RunSteps.AttemptsComeFrom | services/orchestrator/src/orchestrator/core.py:283-298 | a new attempt starts only for a request for changes at the plan gate, and leads to a plan |
| RunSteps.PlansLeadTo | services/orchestrator/src/orchestrator/core.py:206-242 | a plan that comes back is stored as authored, as the next version and then the latest, and goes to the gate; one that is refused leads to nothing |
| RunSteps.VersionsComeFrom | services/orchestrator/src/orchestrator/core.py:206-242 | every plan version comes from a plan that just came back or an answer that widened the scope |
| RunSteps.MovesComeFrom | services/orchestrator/src/orchestrator/core.py:401-484 | what stands right before a move to a gate, back from the change review, or back from verification |
| RunSteps.WorkIsDue | services/orchestrator/src/orchestrator/core.py:489-601 | every batch call of every history is on the first ready subtask of the plan, with exactly the ready members of its group in plan order; a fix-up is called only when nothing is ready, with the failure on record |
| RunSteps.OnlyTimeIsAsked | services/orchestrator/src/orchestrator/progress.py:35-35 | nothing ever adds to what a run has spent, so under a positive cost ceiling time and cost are asked about for the time alone |
| RunRisk.OpenRiskAtVerificationIff | services/orchestrator/src/orchestrator/core.py:546-671 | over every history a move to verification leaves a risk unanswered if and only if the last saved diff opened one and it was a fix-up's, or the size question went first, or the process died before the question was on disk, or no acknowledgement was saved before the next move |
| RunRisk.NoDiffNoRisk | services/orchestrator/src/orchestrator/core.py:605-615 | before the first diff is saved there is no risk |
| RunRisk.FixUpsAreNotChecked | services/orchestrator/src/orchestrator/core.py:546-575 | over every history nothing but calls happens between a saved fix-up and the move to verification: no checkpoint is evaluated and nothing is asked |
| RunLimits.StopIsTwoWrites | services/orchestrator/src/orchestrator/core.py:343-347 | over every history: once "stop" is on disk, the run is abandoned by the next event if and only if that is not a new call; after any call it is at work with nothing pending |
| RunLimits.RequestedChangesAreNotImplemented | services/orchestrator/src/orchestrator/core.py:315-320 | after "request_changes" at the change review the backend is never called before the next verification |
| RunLimits.ContinueAtVerificationReverifies | services/orchestrator/src/orchestrator/core.py:361-361 | after "continue" on a question raised at verification the next outside call is the verifier, not a fix-up |
| RunLimits.BatchProgressIff | services/orchestrator/src/orchestrator/core.py:605-615 | a batch answer completes something if and only if it holds a diff |
| RunLimits.EmptyAnswersLoopIff | services/orchestrator/src/orchestrator/core.py:596-671 | after any number of empty answers to a parallel call the drive loop is in the very same state if and only if nothing was asked at any of the clock readings |
| RunLimits.StreakIsBounded | services/orchestrator/src/orchestrator/core.py:673-746 | between two successes a process counts at most the failures left before it pauses |
| Stores.RunRegistry.TransitionStage | services/run-registry/src/run_registry/service.py:279-350 | compare-and-swap on the version, legal edges only; the row is unchanged on either error |
| Stores.RunRegistry.WriteCheckpoint | services/run-registry/src/run_registry/service.py:352-377 | compare-and-swap on the version; only the pointer changes |
| Stores.RunRegistry.AppendAttempt | services/run-registry/src/run_registry/service.py:177-277 | a new attempt at a legal or the current stage, one version on |
| Stores.PlanArtifactStore.WriteVersion | services/orchestrator/src/orchestrator/plan_artifact.py:200-203 | the version file changes, the latest file does not |
| Stores.PlanArtifactStore.WriteLatest | services/orchestrator/src/orchestrator/plan_artifact.py:200-204 | the latest file changes, the version files do not |
| Stores.RunProgressStore.Save | services/orchestrator/src/orchestrator/progress.py:71-73 | the saved record is the given one |
| Stores.Clock.Read | services/orchestrator/src/orchestrator/core.py:646-652 | every reading is later than the one before by at least the tick |
| Orchestration.FailureOutcome | services/orchestrator/src/orchestrator/core.py:673-746 | counting a failure either asks about it or leaves strictly fewer failures |
| Orchestration.BatchOutcome | services/orchestrator/src/orchestrator/core.py:605-608 | a batch that came back with a diff leaves strictly fewer subtasks |
| Orchestration.Orchestrator.constructor | services/orchestrator/src/orchestrator/core.py:250-263 | fresh stores and an empty history at intake |
| Orchestration.Orchestrator.StoresAreTallies | services/orchestrator/src/orchestrator/core.py:163-190 | at any moment of the object its stores hold what its own log counts up to |
| Orchestration.Orchestrator.Transition | services/orchestrator/src/orchestrator/core.py:163-182 | the state moves along one legal edge, or is untouched by a crash; with one driver the write is never refused |
| Orchestration.Orchestrator.WriteCheckpointPointer | services/orchestrator/src/orchestrator/core.py:184-190 | the pointer is written in one step, or nothing is |
| Orchestration.Orchestrator.SaveProgress | services/orchestrator/src/orchestrator/progress.py:71-73 | the progress record is written in one step, or nothing is |
| Orchestration.Orchestrator.SavePlan | services/orchestrator/src/orchestrator/plan_artifact.py:200-204 | both files, or after a crash at most the first |
| Orchestration.Orchestrator.CallBackend | services/orchestrator/src/orchestrator/core.py:595-603 | the call made is the one that is due, and its answer is what the state remembers |
| Orchestration.Orchestrator.GenerateAndStorePlan | services/orchestrator/src/orchestrator/core.py:206-242 | the latest plan is the one generated for the next version; a refused plan leaves the disk alone |
| Orchestration.Orchestrator.AbsorbDiffs | services/orchestrator/src/orchestrator/core.py:605-614 | the loop adds every zipped diff: its files and lines, and the subtask it completes; the streak of failures ends and nothing else changes |
| Orchestration.Orchestrator.ImplementationStep | services/orchestrator/src/orchestrator/core.py:521-671 | pauses with a pending question, or goes on with something used up, or may move to verification with nothing pending |
| Orchestration.Orchestrator.FixUpStep | services/orchestrator/src/orchestrator/core.py:534-575 | as above, for the extra call after a failed verification |
| Orchestration.Orchestrator.BatchStep | services/orchestrator/src/orchestrator/core.py:577-671 | as above, for one batch: the durable record precedes the checkpoints |
| Orchestration.Orchestrator.HandleImplementationFailure | services/orchestrator/src/orchestrator/core.py:673-746 | as above, for a raised call: one more failure counted, and asked about if it is unacknowledged |
| Orchestration.Orchestrator.VerificationStep | services/orchestrator/src/orchestrator/core.py:768-816 | a pass leads to the change review, a failure uses up one failure or asks |
| Orchestration.Orchestrator.Drive | services/orchestrator/src/orchestrator/core.py:401-484 | always ends, for any backend, verifier and graph, under a clock that moves on by at least a fixed amount between readings; the status returned describes the disk; only something outside can fail it |
| Orchestration.Orchestrator.ResumeRun | services/orchestrator/src/orchestrator/core.py:265-271 | ends with a status that describes the disk, and never changes whether the run is abandoned |
| Orchestration.Orchestrator.RePlan | services/orchestrator/src/orchestrator/core.py:283-298 | one more attempt, a new plan, back at the gate |
| Orchestration.Orchestrator.DoApprovePlan | services/orchestrator/src/orchestrator/core.py:273-304 | refused exactly outside the gate, and for exactly the unknown decisions, without a write; otherwise ends as the decision says |
| Orchestration.Orchestrator.DoApproveChangeReview | services/orchestrator/src/orchestrator/core.py:306-320 | refused exactly outside the gate and for exactly the unknown decisions; an approval that returns has completed the run, and a request for changes has first moved it back to implementation |
| Orchestration.Orchestrator.DoResolveCheckpoint | services/orchestrator/src/orchestrator/core.py:322-361 | refused exactly when nothing is pending; the run ends abandoned exactly for "stop" |
| Orchestration.Orchestrator.ProceedPast | services/orchestrator/src/orchestrator/core.py:352-361 | the question is acknowledged, the scope widened if asked, and the run driven on |
| RunWorker.NewestDecides | deploy/run-worker/jira_poll_run.py:281-296 | the newest comment after the recorded one that is a decision decides; there is none exactly if no such comment is one |
| RunWorker.WordsAreClear | deploy/run-worker/jira_poll_run.py:89-90 | no word is both positive and negative, and the words the notification offers are of their kind |
| RunWorker.RepliesAreNarrow | deploy/run-worker/jira_poll_run.py:117-123 | the newest comment that is one of the words decides: exactly a positive word approves at a gate and continues at a checkpoint, exactly a negative one rejects or stops; no reply can ask for changes or widen the scope |
| RunWorker.AnswersTheRecordedQuestionIff | deploy/run-worker/_run_lib.py:527-537 | a reply to a checkpoint answers the question it was recorded for if nothing was asked since the record; otherwise one about something else, unless an answer about the same thing was cut off |
| RunWorker.GateRepliesTakeEffectOnce | deploy/run-worker/_run_lib.py:493-557 | a gate reply that takes effect decides the recorded gate, rejects it exactly for "reject", and is the only reply to that gate that ever does |
| RunWorker.DecisionsComeFromReplies | deploy/run-worker/_run_lib.py:419-557 | whatever decided a gate or abandoned the run since the worker came in was a reply recorded for that very stage, or an approval the autonomy level left to nobody |
| RunWorker.Worker.GatesAreDecidedWithin | deploy/run-worker/_run_lib.py:415-459 | over all polls, whatever decided a gate or abandoned the run was a reply recorded for that stage, or an approval of a gate that the autonomy level leaves to nobody: at L3 both gates, at L2 a plan that is not high-risk and the change, at L0 the change |
| RunWorker.Worker.RepliesTakeEffectOnce | deploy/run-worker/_run_lib.py:493-557 | over all polls, retries and deaths: the same, for the replies this worker applied |
| RunWorker.Worker.ReplyMeetsItsQuestionIff | deploy/run-worker/_run_lib.py:527-537 | over all polls: the same, for the checkpoint replies this worker applied |
| RunWorker.StaleReplyIff | deploy/run-worker/jira_poll_run.py:166-184 | a reply is older than its own pause if and only if posting the question failed and nobody has written a decision since |
| RunWorker.SameCommentIff | deploy/run-worker/jira_poll_run.py:277-296 | one comment decides two pauses if and only if the later question could not be posted and nobody has written a decision since that comment |
| RunWorker.Worker.NoCommentDecidesTwoPauses | deploy/run-worker/jira_poll_run.py:277-296 | over all polls: the same, for the replies this worker applied |
| RunWorker.Issue.PostComment | deploy/run-worker/jira_poll_run.py:162-166 | the question is the newest comment and never reads as a decision; or posting failed, and no comment id is known |
| RunWorker.Worker.OnPause | deploy/run-worker/jira_poll_run.py:162-184 | a record of exactly this pause at this moment, whose last seen comment is the id the post reported, or none if posting failed; after a crash the old record |
| RunWorker.Worker.AutoDecision | deploy/run-worker/_run_lib.py:421-432 | a checkpoint is never decided automatically; at the plan gate L0 and L1 ask, L2 asks exactly about a high-risk plan and L3 never; at the change review only L1 asks |
| RunWorker.Worker.DriveAsync | deploy/run-worker/_run_lib.py:419-459 | ends paused with a record and exit code 2, at a gate only if the level does not leave it to nobody, or at an end with exit code 0; it abandons nothing itself |
| RunWorker.Worker.Apply | deploy/run-worker/_run_lib.py:529-543 | one reply, recorded for this pause, is applied; the run ends abandoned exactly for "reject" and "stop" |
| RunWorker.Worker.ResumePausedRunAsync | deploy/run-worker/_run_lib.py:493-557 | applies at most this one reply, and does apply it if the resumed run is at the recorded pause; nothing but it abandons the run, and only from the recorded stage; an abandoned run is reported with exit code 0 exactly if it was abandoned before this call |
| RunWorker.Worker.StartRunAsync | deploy/run-worker/_run_lib.py:475-490 | a new story is driven to its end, or to its first pause with a record of it |
| RunWorker.Worker.FinishIssue | deploy/run-worker/jira_poll_run.py:317-321 | a finished issue is closed exactly for exit code 0, then its record dropped, then it is marked; a death in between keeps what was done so far |
| RunWorker.Worker.CheckPendingDecision | deploy/run-worker/jira_poll_run.py:240-321 | resumes the run if and only if the issue could be read and holds a deciding word after the recorded comment; a reply that is applied is the newest such word; a poll that succeeds leaves the run abandoned exactly if that word was a negative one, and nothing else in a poll abandons it; a poll that fails keeps a record, or the run is over; an issue is closed as done exactly for a completed run, or for one an earlier poll had already abandoned |
| RunExamples.RiskLostToADeath | services/orchestrator/src/orchestrator/core.py:605-671 | a run from intake on that moves to verification with an open risk: its last events are the saved diff, a resume and the move |
| RunExamples.RiskBehindSize | services/orchestrator/src/orchestrator/core.py:654-671 | the same with the size question asked, answered with "continue" and acknowledged instead |
| RunExamples.StopLostToADeath | services/orchestrator/src/orchestrator/core.py:343-361 | the same with the risk asked about and answered with "stop", and a death before the second write |
| RunExamples.RiskFromFixUp | services/orchestrator/src/orchestrator/core.py:546-575 | the same with a fix-up that strayed out of scope after a failed verification |
| RunExamples.StuckAtVerification | services/orchestrator/src/orchestrator/core.py:768-816 | a run from intake on that asks its stuck question at verification, where "continue" verifies again |
| RunExamples.ParallelCallIsDue | services/orchestrator/src/orchestrator/core.py:596-601 | a run from intake on that is about to make a parallel call with nothing to ask, where empty answers repeat |
| RunExamples.NothingDoneAtVerification | services/orchestrator/src/orchestrator/core.py:489-536 | a run from intake on, with a subtask that waits for itself, that moves to verification with nothing done |
| RunExamples.ChangesRequestedInVain | services/orchestrator/src/orchestrator/core.py:315-320 | a run from intake on whose change review asks for changes and that verifies the same code again |
| RunExamples.PackagedTwice | services/orchestrator/src/orchestrator/core.py:471-475 | a run from intake on that completes after being packaged twice |
| RunExamples.SameQuestionTwice | services/orchestrator/src/orchestrator/core.py:343-361 | a run from intake on that asks the very same question twice, the first answer being cut off |
| ReplyExamples.ReplyMeetsAnotherQuestion | deploy/run-worker/_run_lib.py:527-537 | a run from intake on, accounted for as the worker accounts for its replies, in which one recorded reply answers two different questions |
| ReplyExamples.RejectionReportedAsDone | deploy/run-worker/_run_lib.py:493-557 | a run from intake on whose rejecting poll died, so that the next poll finds it abandoned before its own call |
| ReplyExamples.OneCommentDecidesTwoPauses | deploy/run-worker/jira_poll_run.py:277-296 | a run from intake on in which the comment that approved the plan also approves the change |
| SingleFlight.StepKeepsInv | services/job-dispatcher/src/job_dispatcher/tenant_queue.py:76-104 | every step of every caller keeps the coordinator invariant |
| SingleFlight.OneCallPerTenant | services/job-dispatcher/src/job_dispatcher/tenant_queue.py:76-92 | over every interleaving, provider calls for one tenant never overlap |
| SingleFlight.PopRemovesOwnEntry | services/job-dispatcher/src/job_dispatcher/tenant_queue.py:94-103 | a leader removes its own entry and no other tenant's |
| SingleFlight.SetOnce | services/job-dispatcher/src/job_dispatcher/tenant_queue.py:122-128 | a future is empty when its leader sets it |
| SingleFlight.OutcomeStays | services/job-dispatcher/src/job_dispatcher/tenant_queue.py:113-135 | once set, an outcome never changes |
| SingleFlight.OutcomeIsFresh | services/job-dispatcher/src/job_dispatcher/tenant_queue.py:76-104 | every caller, exceptions included, gets the outcome of a call made for its own tenant that was retired only after the caller came in |
| SingleFlight.BlockedOnlyByALeader | services/job-dispatcher/src/job_dispatcher/tenant_queue.py:130-135 | a caller is blocked if and only if it waits for a leader still on its way, and that leader can move |
| SingleFlight.SchedulesEnd | services/job-dispatcher/src/job_dispatcher/tenant_queue.py:76-104 | no interleaving has more than six steps per caller |
| SingleFlight.NoDeadlock | services/job-dispatcher/src/job_dispatcher/tenant_queue.py:76-104 | an interleaving that cannot go on has served everybody |
| SingleFlight.BurstIsOneRequest | services/job-dispatcher/src/job_dispatcher/tenant_queue.py:1-16 | a burst that comes in before anything is retired shares one pending request |
| Dispatching.TriggersAreConserved | services/job-dispatcher/src/job_dispatcher/dispatcher.py:128-203 | over any interleaving of webhooks and retries each accepted trigger is in exactly one place: its own tenant's queue, a dispatch, a run, or lost; queues are first in, first out |
| Dispatching.LostIffRaised | services/job-dispatcher/src/job_dispatcher/dispatcher.py:146-150 | for a trigger that is not being dispatched: queued and running copies are those that came in less one for each dispatch that raised with it; so some is gone if and only if a dispatch raised with that trigger |
| Dispatching.QueuedNotDropped | services/job-dispatcher/src/job_dispatcher/dispatcher.py:158-203 | a trigger that is not being dispatched and was never raised with is one created run or one slot of its own tenant's queue for each time it came in |
| Dispatching.RunsAreStarted | services/job-dispatcher/src/job_dispatcher/dispatcher.py:158-203 | the runs are those of the dispatches that got a class and a registered run, in order, each on the class its own answer named |
| Dispatching.RetryLosesTrigger | services/job-dispatcher/src/job_dispatcher/dispatcher.py:146-150 | a run of four steps in which a queued trigger is retried, the retry raises, and the trigger is in no queue and no run |
| Dispatching.TenantsAreSeparate | services/job-dispatcher/src/job_dispatcher/tenant_queue.py:145-178 | an operation for one tenant never changes another tenant's queue |
| Dispatching.RetryRotates | services/job-dispatcher/src/job_dispatcher/dispatcher.py:146-150 | a retry that finds no capacity puts the oldest trigger last |
| Dispatching.TenantTriggerQueue.Push | services/job-dispatcher/src/job_dispatcher/tenant_queue.py:156-160 | appended to its own tenant's queue only |
| Dispatching.TenantTriggerQueue.RetryNext | services/job-dispatcher/src/job_dispatcher/tenant_queue.py:167-178 | the oldest trigger of that tenant, or nothing exactly if the queue is empty |
| Dispatching.TenantTriggerQueue.AllTenantIds | services/job-dispatcher/src/job_dispatcher/tenant_queue.py:180-182 | exactly the tenants with something queued |
| Dispatching.JobDispatcher.Dispatch | services/job-dispatcher/src/job_dispatcher/dispatcher.py:158-203 | a run of the class the answer named, or the tail of the queue, or lost, by what capacity and registry answered, each error exactly for its cause |
| Dispatching.JobDispatcher.HandleWebhook | services/job-dispatcher/src/job_dispatcher/dispatcher.py:128-141 | an accepted trigger is dispatched at once: a run, the tail of its own tenant's queue, or lost; other tenants are untouched |
| Dispatching.JobDispatcher.RetryQueued | services/job-dispatcher/src/job_dispatcher/dispatcher.py:146-150 | pops one trigger; a dispatch that raises before queueing loses it; other tenants' queues are untouched |
| JsonSchema.StrictIsExact | services/orchestrator/src/orchestrator/openai_backend.py:190-211 | for schemas whose required names lie within properties, the strict form accepts exactly the values the schema accepts that have every property and nothing else, at every level |
| JsonSchema.StrictRefines | services/orchestrator/src/orchestrator/openai_backend.py:203-211 | whatever the strict form accepts, the schema accepts |
| JsonSchema.BeyondPropertiesFails | services/orchestrator/src/orchestrator/openai_backend.py:190-200 | where required names a non-property, every object the strict form accepts is rejected by the schema |
| JsonSchema.StrictIsIdempotent | services/orchestrator/src/orchestrator/openai_backend.py:190-200 | rewriting twice is rewriting once |
| JsonSchema.StrictIsStrict | services/orchestrator/src/orchestrator/openai_backend.py:190-200 | at every level with properties, all are required and nothing else is allowed |
| JsonSchema.StrictKeyword | services/orchestrator/src/orchestrator/openai_backend.py:190-200 | every keyword of the strict form: properties are rewritten, required names them all, additionalProperties is false, an object under items is rewritten, and every other keyword keeps its value |
| JsonSchema.OneTypeEach | services/orchestrator/src/orchestrator/ollama_backend.py:140-265 | every value has exactly the type name it should, an integer being a number without a fraction |
| PlanParsing.RequiredMembers | services/orchestrator/src/orchestrator/ollama_backend.py:140-265 | which members of a plan, a criterion, a subtask and a diff cannot be missing, and that all others can |
| PlanParsing.ObjectMeans | services/orchestrator/src/orchestrator/ollama_backend.py:140-255 | an object schema accepts exactly the objects with every required member whose described members pass |
| PlanParsing.AcceptedPlanParses | services/orchestrator/src/orchestrator/ollama_backend.py:295-341 | every answer the plan schema accepts is parsed without error into the plan it spells out, order and fields kept |
| PlanParsing.AcceptedDiffParses | services/orchestrator/src/orchestrator/ollama_backend.py:344-358 | every answer the diff schema accepts is parsed without error into the diff it spells out |
| PlanParsing.LooseDiffs | services/orchestrator/src/orchestrator/ollama_backend.py:344-358 | which diff answers are parsed at all, beyond those the schema accepts, and what they become: a text for the files is taken apart, a fraction of a line cut off |
| PlanParsing.OptionalLists | services/orchestrator/src/orchestrator/ollama_backend.py:295-341 | an optional list is empty if it is absent in any sense, what it lists if it lists something, and otherwise refused |
| PlanParsing.PlanIsWithin | services/orchestrator/src/orchestrator/ollama_backend.py:190-253 | the plan schema keeps required within properties at every level |
| PlanParsing.DiffIsWithin | services/orchestrator/src/orchestrator/ollama_backend.py:256-265 | so does the diff schema |
| PlanParsing.StrictAnswersParse | services/orchestrator/src/orchestrator/openai_backend.py:203-211 | answers constrained by the strict schemas are parsed too |
| PlanRoundTrip.PlanRoundTrips | services/orchestrator/src/orchestrator/ollama_backend.py:295-341 | a plan passes the strict schema if and only if its size and risk tier are listed ones, and is then read back as itself |
| PlanRoundTrip.StorableIff | services/orchestrator/src/orchestrator/plan_artifact.py:100-147 | a plan can be stored if and only if its size and risk resolve to a budget none of whose four numbers is negative, it passes the answer schema, and none of the texts the artifact schema requires is empty |
| PlanRoundTrip.AcceptedButRefused | services/orchestrator/src/orchestrator/core.py:206-242 | an XL plan passes the answer schema and is refused for want of a budget |
| Failover.CallOneRegion | services/orchestrator/src/orchestrator/bedrock_backend.py:405-522 | the first reply that is not transient within the budget decides; otherwise the pair is throttled; the sleeps add up to backoff times (2^k - 1) for k sleeps |
| Failover.YieldsOne | services/orchestrator/src/orchestrator/bedrock_backend.py:405-522 | that outcome is unique, and is "throttled" exactly when every reply in the budget is transient |
| Failover.YieldsIff | services/orchestrator/src/orchestrator/bedrock_backend.py:405-522 | success, denial or another error comes exactly from the first reply that is not a timeout, a throttling or a lost connection, and throttled means there is none within the budget |
| Failover.SleepsDouble | services/orchestrator/src/orchestrator/bedrock_backend.py:405-522 | the first sleep is the backoff and every further one twice the one before |
| Failover.OthersKeepOrder | services/orchestrator/src/orchestrator/bedrock_backend.py:590-590 | the fallback models keep their order and only the primary one is dropped |
| Failover.AllPairsAre | services/orchestrator/src/orchestrator/bedrock_backend.py:589-596 | the list holds, model by model, the primary model first, each with the first region and then the others |
| Failover.AttemptAt | services/orchestrator/src/orchestrator/bedrock_backend.py:589-596 | the list of pairs is model-major, region-minor |
| Failover.PairsAreDistinctIff | services/orchestrator/src/orchestrator/bedrock_backend.py:589-596 | no pair is listed twice if and only if models and regions are distinct |
| Failover.RepeatedFallbackIsTriedTwice | services/orchestrator/src/orchestrator/bedrock_backend.py:590-590 | a fallback model named twice is listed twice; only repeats of the primary are dropped |
| Failover.OrderIsCyclic | services/orchestrator/src/orchestrator/bedrock_backend.py:598-599 | the pairs are visited in cyclic order from the start, each once |
| Failover.CallConverse | services/orchestrator/src/orchestrator/bedrock_backend.py:525-631 | over the list of all pairs of the configured models and regions: stops at the first pair that does not exhaust its budget and says which it was; a success makes that pair the sticky one, a failure leaves it; total sleep is at most N * backoff * (2^(max_retries - 1) - 1) |
| Failover.NextStart | services/orchestrator/src/orchestrator/bedrock_backend.py:598-623 | the next call starts at the pair that answered; any other outcome leaves the start; an index out of range counts round the list |
| Failover.RegionsBeforeModels | services/orchestrator/src/orchestrator/bedrock_backend.py:589-603 | from the first pair, every region of every earlier model is exhausted before a pair of a later model is tried |
| Failover.WrapsOnlyWhenExhausted | services/orchestrator/src/orchestrator/bedrock_backend.py:598-623 | a call that answers before its start has exhausted every pair from the start to the end |
| Failover.NeverClimbsBack | services/orchestrator/src/orchestrator/bedrock_backend.py:621-623 | over any session the sticky index is lower than at first only if some call exhausted every pair from its start to the end |
| RateLimiting.RateLimiter.Check | services/index-server/src/index_server/ratelimit.py:26-38 | allowed exactly when a window opens or has room; a refusal changes nothing and carries the hint |
| RateLimiting.RateLimiter.Reset | services/index-server/src/index_server/ratelimit.py:40-41 | every window is forgotten |
| RateLimiting.AcceptedIff | services/index-server/src/index_server/ratelimit.py:26-38 | over every run a call is accepted exactly if every window opened before it is over, or fewer than limit calls were accepted since the last was opened |
| RateLimiting.AtMostTwiceTheLimitLessOne | services/index-server/src/index_server/ratelimit.py:26-38 | every stretch of window_seconds of every run holds at most 2*limit - 1 accepted calls of a tenant |
| RateLimiting.TheBoundIsReached | services/index-server/src/index_server/ratelimit.py:26-38 | for every limit some run reaches that bound |
| RateLimiting.LimitHoldsIffOne | services/index-server/src/index_server/ratelimit.py:1-6 | "at most limit per window_seconds" holds of every stretch if and only if the limit is one |
| RateLimiting.RetryAfterIsTight | services/index-server/src/index_server/ratelimit.py:37-38 | the hint reaches past the end of the window and overshoots it by at most one second |
| RateLimiting.RetryIsAdmitted | services/index-server/src/index_server/ratelimit.py:26-38 | a call after that wait opens a window |
| RateLimiting.TenantsAreSeparate | services/index-server/src/index_server/ratelimit.py:29-36 | a call touches no other tenant's window |
| BusinessCalendar.AddBusinessDays | services/gates/src/gates/business_calendar.py:25-39 | ends for every finite holiday set, on the n-th business day; nothing exactly for a negative count; the time of day is kept |
| BusinessCalendar.NthIsNth | services/gates/src/gates/business_calendar.py:25-39 | exactly n business days lie after the start up to and including it |
| BusinessCalendar.NthIsUnique | services/gates/src/gates/business_calendar.py:25-39 | it is the only such business day |
| BusinessCalendar.NthCounts | services/gates/src/gates/business_calendar.py:18-39 | said of the calendar alone: the result is neither of a weekend nor a holiday, and n such days lead up to it |
| BusinessCalendar.FractionsAreDropped | services/gates/src/gates/business_calendar.py:25-47 | a fraction of a day is dropped, and from the deadline on, to the time of day, there is a breach |
| BusinessCalendar.WeekendsCrossed | services/gates/src/gates/business_calendar.py:25-39 | with weekends only, elapsed days lie between n + 2*floor((n-1)/5) and n + 2*ceil(n/5) |
| BusinessCalendar.FiveMoreIsAWeek | services/gates/src/gates/business_calendar.py:25-39 | five more business days are seven more days if and only if the count starts from a weekday |
| BusinessCalendar.BreachIsMonotone | services/gates/src/gates/business_calendar.py:42-47 | a breach stays a breach later, for fewer days and for fewer holidays |
| BusinessCalendar.ImmediateDeadline | services/gates/src/gates/business_calendar.py:25-47 | a gate is in breach when it opens exactly if the grace period is under one whole day |
| Batching.StepKeepsInv | services/gates/src/gates/batching.py:74-125 | open batches hold 1 to 4 stories of one repository, size-closed ones 5, age-closed ones 1 to 4 and a day |
| Batching.StoriesAreConserved | services/gates/src/gates/batching.py:74-125 | over every run the closed batches of a repository followed by its open one hold exactly its stories, each once and in order |
| Batching.ClosedForever | services/gates/src/gates/batching.py:117-125 | a closed batch is never changed or dropped |
| Batching.SubmittedClosesIff | services/gates/src/gates/batching.py:74-103 | a story closes its batch exactly if it is the fifth or comes a day or more after the first, at that moment, for size exactly if it is the fifth; otherwise it is the last of the open batch |
| Batching.BatchManager.SubmitStory | services/gates/src/gates/batching.py:74-103 | the story enters its repository's batch as SubmittedClosesIff says; other repositories are untouched; a tripped checkpoint changes nothing |
| Batching.BatchManager.SweepAgeBasedClosures | services/gates/src/gates/batching.py:105-121 | exactly the batches a day old are closed |
| Gates.ClearedIff | services/gates/src/gates/self_approval.py:85-146 | cleared exactly when the actor is the authority, is not the trigger, and at a change review owns every touched file |
| Gates.ReasonsAre | services/gates/src/gates/self_approval.py:85-146 | each reason is given exactly for the rule it names |
| Gates.UnsatisfiedInOrder | services/gates/src/gates/self_approval.py:85-146 | the files nobody present owns are named one by one, in order |
| Gates.UnclearableIff | services/gates/src/gates/self_approval.py:85-146 | nobody can clear a plan gate if and only if its authority is the trigger |
| Gates.StepKeepsInv | services/gates/src/gates/escalation.py:69-147 | every step of opening, deciding and sweeping keeps the gate invariant |
| Gates.OnceOnly | services/gates/src/gates/escalation.py:118-147 | over every interleaving a gate escalates at most once and clears at most once |
| Gates.ActionedIsFinal | services/gates/src/gates/escalation.py:132-134 | an actioned gate never escalates or changes again |
| Gates.EscalatesIff | services/gates/src/gates/escalation.py:118-147 | a step escalates exactly the gate it looks at if nobody acted on it, it has not escalated and its deadline has passed; a sweep starts out with every gate that waits |
| Gates.ClearedByTheRightActor | services/gates/src/gates/gate_service.py:98-149 | whoever cleared a gate is not its trigger, and is the default approver, or after escalation that or the backup (ClearedAroundEscalationIff says which) |
| Gates.OpenIffUnactioned | services/gates/src/gates/gate_service.py:94-142 | with no call in progress a gate is open in the service exactly if the tracker has it unactioned |
| Gates.ClearedAroundEscalationIff | services/gates/src/gates/gate_service.py:118-142 | where default approver and backup differ, over every interleaving an escalated gate is cleared by somebody other than its backup if and only if the escalation took effect between that decision reading the authority and judging |
| Gates.ClearanceComesFrom | services/gates/src/gates/gate_service.py:118-142 | every clearance of a run comes from a decision that read the authority and later judged, so the condition speaks about all of them |
| Gates.EscalationRace | services/gates/src/gates/gate_service.py:118-142 | a run in which the default approver clears a gate that has already escalated |
| GateService.EscalationTracker.MarkActioned | services/gates/src/gates/escalation.py:93-107 | succeeds exactly for a known, unactioned gate, and only sets its flag |
| GateService.EscalationTracker.CurrentAuthority | services/gates/src/gates/escalation.py:109-116 | the default approver, or the backup once escalated |
| GateService.GatesService.Decide | services/gates/src/gates/gate_service.py:98-149 | cleared exactly when the rules allow it for the authority of the moment; then the gate is gone for good, otherwise nothing changes |
| GateService.GatesService.CheckEscalations | services/gates/src/gates/escalation.py:118-147 | escalates exactly the gates nobody acted on, not escalated yet, whose grace period has passed; fails exactly if one of those has a negative grace period |
| Adf.JoinSplit | services/issue-tracker/src/issue_tracker/adf.py:24-34 | joining the lines of a text gives the text |
| Adf.SplitJoin | services/issue-tracker/src/issue_tracker/adf.py:50-54 | splitting joined lines gives the lines |
| Adf.TextToAdf | services/issue-tracker/src/issue_tracker/adf.py:18-36 | one paragraph per line, empty for an empty line |
| Adf.AdfToText | services/issue-tracker/src/issue_tracker/adf.py:39-54 | the lines of the paragraphs, joined; other nodes skipped; strings as they are; nothing for nothing |
| Adf.TextInPieces | services/issue-tracker/src/issue_tracker/adf.py:39-54 | parts are joined as they stand; one without a text adds nothing |
| Adf.LinesInPieces | services/issue-tracker/src/issue_tracker/adf.py:39-54 | nodes that are no paragraphs leave no trace; the paragraphs give their texts in order |
| Adf.TextRoundTrip | services/issue-tracker/src/issue_tracker/adf.py:18-54 | every text survives the way there and back; a plain string reads as itself and nothing as the empty text |
| Adf.DocRoundTripIff | services/issue-tracker/src/issue_tracker/adf.py:18-54 | a document survives the way back and there if and only if it is canonical |
| Adf.WrittenIffCanonical | services/issue-tracker/src/issue_tracker/adf.py:18-36 | canonical documents are exactly those the writer produces |

## Left out

- Orchestration.Orchestrator.Drive: without the assumption on the clock, empty answers to parallel calls could come for ever; the clock the code reads is the wall clock, which can be set back.
- RunTheorems.ParallelCallsAreSafe: distinctness and independence need unique subtask ids, which nothing in the code checks.
- RunWorker.Worker.ReplyMeetsItsQuestionIff: speaks of the trigger asked about, because ids of questions are left out; when an answer about the same trigger was cut off in between, the same may have been asked again.
- RunWorker.DecisionsComeFromReplies: speaks of the calls since the worker came in; a person calling the orchestrator beside the worker is left out.
- RunWorker.Worker.CheckPendingDecision: does not promise a record after every failed poll, because a poll can die between dropping the record and marking the issue. One issue and one run; a comment is given as its trimmed, lower-cased word without final punctuation.
- RunWorker.Worker.AutoDecision: the level is given; reading it from the environment is not modelled.
- JsonSchema.StrictIsExact: covers the keywords type, enum, properties, required, additionalProperties and items; the rewriting in place of a deep copy is modelled on values, so sharing inside the copy is not captured. Equality of enum values compares object members in order.
- PlanParsing.AcceptedDiffParses: numbers are reals, so an integer too large for a floating-point number is not modelled.
- Gates.StepKeepsInv: a gate id is opened at most once; opening it again would reset its flags. Holiday sets are empty here, as in the tracker.
- GateService.GatesService.OpenGate: asks for an id that was never used, for the same reason.
- Failover.CallConverse: time spent in calls is not counted, only sleeps; the backoff is not negative.
- RateLimiting.RateLimiter.Check: the clock never goes back, as the monotonic clock it reads promises.
- Adf.DocRoundTripIff: a missing member and an empty list are the same.
- BusinessCalendar.AddBusinessDays: dates are unbounded, and the time of day is opaque.
- Reason strings, audit records, alerts, cost metrics, uuids, timestamps and the run's attempt and stage history do not influence the modelled state.
- Starting a new story from the issue tracker, and work on several issues in one poll.
- Authentication, tenant resolution and the HTTP, git, container and provisioning layers around these components.
- The schema annotations ("description") and prompts sent to models.
- Two processes driving the same run at the same time.
