/** The stage vocabulary of a run and the registry's legal-transition table. */
module Stages {

  datatype Stage =
    | Intake
    | Research
    | PlanAuthoring
    | PlanApprovalGate
    | Implementation
    | Verification
    | ChangeReviewGate
    | Packaging
    | Retrospective
    | Completed
    | Abandoned

  predicate Terminal(s: Stage) {
    s.Completed? || s.Abandoned?
  }

  /** Before a human has ever approved a plan. */
  predicate BeforeApproval(s: Stage) {
    s.Intake? || s.Research? || s.PlanAuthoring? || s.PlanApprovalGate?
  }

  /** The two stages in which work is done and checkpoints can be raised. */
  predicate Working(s: Stage) {
    s.Implementation? || s.Verification?
  }

  /** The stages reached only through an approved change review. */
  predicate Shipping(s: Stage) {
    s.Packaging? || s.Retrospective? || s.Completed?
  }

  predicate LegalTransition(current: Stage, next: Stage) {
    match current
    case Intake => next.Research? || next.Abandoned?
    case Research => next.PlanAuthoring? || next.Abandoned?
    case PlanAuthoring => next.PlanApprovalGate? || next.Abandoned?
    case PlanApprovalGate => next.Implementation? || next.PlanAuthoring? || next.Abandoned?
    case Implementation => next.Verification? || next.Abandoned?
    case Verification => next.ChangeReviewGate? || next.Implementation? || next.Abandoned?
    case ChangeReviewGate => next.Packaging? || next.Implementation? || next.Abandoned?
    case Packaging => next.Retrospective? || next.Abandoned?
    case Retrospective => next.Completed? || next.Abandoned?
    case Completed => false
    case Abandoned => false
  }

  /** The way of a run from intake to completion. */
  const WAY: seq<Stage> := [
    Intake, Research, PlanAuthoring, PlanApprovalGate, Implementation, Verification, ChangeReviewGate, Packaging,
    Retrospective, Completed]

  /**
   * The table: one stage on along the way; back to authoring from the plan gate, and back to implementation
   * from verification and the change review; abandoned from every stage that is not an end; and nothing else.
   */
  lemma EdgesOfTheWay(current: Stage, next: Stage)
    ensures LegalTransition(current, next) <==>
              || (exists i | 0 <= i < 9 :: WAY[i] == current && WAY[i + 1] == next)
              || (current == PlanApprovalGate && next == PlanAuthoring)
              || (current in [Verification, ChangeReviewGate] && next == Implementation)
              || (next == Abandoned && current !in [Completed, Abandoned])
    ensures Terminal(current) <==> forall s :: !LegalTransition(current, s)
  {
    if LegalTransition(current, next) && !next.Abandoned? && !next.PlanAuthoring? && !next.Implementation? {
      var i := match current
        case Intake => 0 case Research => 1 case PlanAuthoring => 2 case PlanApprovalGate => 3 case Implementation => 4
        case Verification => 5 case ChangeReviewGate => 6 case Packaging => 7 case _ => 8;
      assert WAY[i] == current && WAY[i + 1] == next;
    }
    assert WAY[1] == Research && WAY[2] == PlanAuthoring && WAY[3] == PlanApprovalGate && WAY[4] == Implementation;
    if !Terminal(current) {
      assert LegalTransition(current, Abandoned);
    }
  }
}
