/** Budgets and the four checkpoint kinds: size, risk, time/cost, stuck. */
module Checkpoints {
  import opened Common
  import opened Sets

  datatype Budget = Budget(
    storySize: string,
    wallClockMinutes: real,
    costCeilingUsd: real,
    sizeCheckpointLines: int,
    sizeCheckpointFiles: int
  )

  /** A size that is missing here, or mapped to nothing in the source, is not runnable. */
  type Budgets = map<string, Budget>

  datatype BudgetError = XLNotRunnable | UnknownSize

  const STORY_SIZES: seq<string> := ["S", "M", "L", "XL"]

  const DEFAULT_BUDGETS: Budgets := map[
    "S" := Budget("S", 30.0, 5.0, 150, 5),
    "M" := Budget("M", 120.0, 20.0, 400, 15),
    "L" := Budget("L", 360.0, 60.0, 800, 30)
  ]

  const STUCK_RETRY_BUDGET: nat := 3
  const SINGLE_FILE_LINE_MULTIPLIER: int := 3
  const TIME_COST_WARNING_FRACTION: real := 0.8

  function NextSizeClass(size: string): Result<string, BudgetError> {
    if size == "S" then Success("M")
    else if size == "M" then Success("L")
    else if size == "L" || size == "XL" then Success("XL")
    else Failure(UnknownSize)
  }

  function ResolveBudget(size: string, highRisk: bool, budgets: Budgets): Result<Budget, BudgetError> {
    var bumped :- if highRisk then NextSizeClass(size) else Success(size);
    if bumped in budgets then Success(budgets[bumped]) else Failure(XLNotRunnable)
  }

  /** No two of the four sizes are the same string. */
  lemma SizesDiffer()
    ensures forall i, j | 0 <= i < j < 4 :: STORY_SIZES[i] != STORY_SIZES[j]
  {
    assert "S"[0] != "M"[0] && "S"[0] != "L"[0] && "M"[0] != "L"[0] && |"XL"| == 2;
  }

  /**
   * The high-risk flag moves a size one place up the list, and leaves the largest where it is; a size is
   * then looked up as it stands, and one that is not in the list cannot be moved.
   */
  lemma FlagIsOnePlaceUp(i: nat, size: string, budgets: Budgets)
    requires i < 4
    ensures |STORY_SIZES| == 4
    ensures ResolveBudget(STORY_SIZES[i], true, budgets)
         == ResolveBudget(STORY_SIZES[if i < 3 then i + 1 else 3], false, budgets)
    ensures size in budgets ==> ResolveBudget(size, false, budgets) == Success(budgets[size])
    ensures size !in budgets ==> ResolveBudget(size, false, budgets) == Failure(XLNotRunnable)
    ensures size !in STORY_SIZES ==> ResolveBudget(size, true, budgets) == Failure(UnknownSize)
  {
    SizesDiffer();
    assert size !in STORY_SIZES ==> size != STORY_SIZES[0] && size != STORY_SIZES[1] && size != STORY_SIZES[2] && size != STORY_SIZES[3];
  }

  /** With the shipped budgets, these five combinations run, each on the budget given here, and nothing else does. */
  lemma DefaultRunnable(size: string, highRisk: bool)
    ensures ResolveBudget(size, highRisk, DEFAULT_BUDGETS).Success? <==>
            (size in ["S", "M"] || (size == "L" && !highRisk))
    ensures ResolveBudget(size, highRisk, DEFAULT_BUDGETS) == Failure(UnknownSize) <==>
            highRisk && size !in STORY_SIZES
    ensures size == "S" && !highRisk ==>
              ResolveBudget(size, highRisk, DEFAULT_BUDGETS) == Success(Budget("S", 30.0, 5.0, 150, 5))
    ensures (size == "S" && highRisk) || (size == "M" && !highRisk) ==>
              ResolveBudget(size, highRisk, DEFAULT_BUDGETS) == Success(Budget("M", 120.0, 20.0, 400, 15))
    ensures (size == "M" && highRisk) || (size == "L" && !highRisk) ==>
              ResolveBudget(size, highRisk, DEFAULT_BUDGETS) == Success(Budget("L", 360.0, 60.0, 800, 30))
  {
    SizesDiffer();
    assert STORY_SIZES[0] == "S" && STORY_SIZES[1] == "M" && STORY_SIZES[2] == "L" && STORY_SIZES[3] == "XL";
  }

  /** The details of a trigger are its signature: two occurrences are the same violation iff equal. */
  datatype Trigger =
    | Size(lines: int, files: nat, thresholdLines: int, thresholdFiles: int)
    | Risk(outOfScope: set<string>)
    | TimeCost(elapsed: real, spend: real, budgetMinutes: real, budgetCost: real, hardStop: bool)
    | Stuck(failures: nat, retryBudget: nat)

  function CheckSize(files: set<string>, lines: int, budget: Budget): Option<Trigger> {
    var threshold :=
      if |files| <= 1 then budget.sizeCheckpointLines * SINGLE_FILE_LINE_MULTIPLIER else budget.sizeCheckpointLines;
    if lines > threshold || |files| > budget.sizeCheckpointFiles then
      Some(Size(lines, |files|, threshold, budget.sizeCheckpointFiles))
    else
      None
  }

  function CheckRisk(files: set<string>, inScope: set<string>): Option<Trigger> {
    if files - inScope != {} then Some(Risk(files - inScope)) else None
  }

  function CheckTimeCost(elapsed: real, spend: real, budget: Budget): Option<Trigger> {
    if elapsed >= budget.wallClockMinutes * TIME_COST_WARNING_FRACTION ||
       spend >= budget.costCeilingUsd * TIME_COST_WARNING_FRACTION then
      Some(TimeCost(elapsed, spend, budget.wallClockMinutes, budget.costCeilingUsd,
                    elapsed >= budget.wallClockMinutes || spend >= budget.costCeilingUsd))
    else
      None
  }

  function CheckStuck(failures: nat): Option<Trigger> {
    if failures >= STUCK_RETRY_BUDGET then Some(Stuck(failures, STUCK_RETRY_BUDGET)) else None
  }

  /** What a checkpoint evaluation looks at. */
  datatype Measured = Measured(
    files: set<string>,
    lines: int,
    inScope: set<string>,
    elapsed: real,
    spend: real,
    failures: nat
  )

  function OptionToSeq<T>(o: Option<T>): seq<T> {
    match o
    case None => []
    case Some(x) => [x]
  }

  function EvaluateCheckpoints(m: Measured, budget: Budget): seq<Trigger> {
    OptionToSeq(CheckSize(m.files, m.lines, budget))
    + OptionToSeq(CheckRisk(m.files, m.inScope))
    + OptionToSeq(CheckTimeCost(m.elapsed, m.spend, budget))
    + OptionToSeq(CheckStuck(m.failures))
  }

  function Unacknowledged(ts: seq<Trigger>, acked: set<Trigger>): (r: seq<Trigger>)
    ensures forall t :: t in r <==> t in ts && t !in acked
    ensures r != [] ==> exists i :: 0 <= i < |ts| && ts[i] == r[0] && r[0] !in acked && forall j | 0 <= j < i :: ts[j] in acked
  {
    if ts == [] then []
    else (if ts[0] in acked then [] else [ts[0]]) + Unacknowledged(ts[1..], acked)
  }

  function FirstStuck(ts: seq<Trigger>): (r: Option<Trigger>)
    ensures r.Some? ==> r.value in ts && r.value.Stuck?
    ensures r.None? ==> forall t :: t in ts ==> !t.Stuck?
  {
    if ts == [] then None
    else if ts[0].Stuck? then Some(ts[0])
    else FirstStuck(ts[1..])
  }

  /** Every violation that fired is listed, and each is reported with its own numbers. */
  lemma EvaluatedAre(m: Measured, budget: Budget)
    ensures var ts := EvaluateCheckpoints(m, budget);
            forall t :: t in ts <==>
              Some(t) in [CheckSize(m.files, m.lines, budget), CheckRisk(m.files, m.inScope),
                          CheckTimeCost(m.elapsed, m.spend, budget), CheckStuck(m.failures)]
  {
  }

  /** A violation, said of the numbers alone. Fractions of a budget are multiplied out. */
  ghost predicate Fires(t: Trigger, m: Measured, budget: Budget) {
    match t
    case Size(lines, files, thresholdLines, thresholdFiles) =>
      && lines == m.lines && files == |m.files| && thresholdFiles == budget.sizeCheckpointFiles
      && (files >= 2 ==> thresholdLines == budget.sizeCheckpointLines)
      && (files <= 1 ==> thresholdLines == 3 * budget.sizeCheckpointLines)
      && (lines > thresholdLines || files > thresholdFiles)
    case Risk(outOfScope) =>
      && (forall f :: f in outOfScope <==> f in m.files && f !in m.inScope)
      && (exists f :: f in m.files && f !in m.inScope)
    case TimeCost(elapsed, spend, budgetMinutes, budgetCost, hardStop) =>
      && elapsed == m.elapsed && spend == m.spend
      && budgetMinutes == budget.wallClockMinutes && budgetCost == budget.costCeilingUsd
      && (5.0 * elapsed >= 4.0 * budgetMinutes || 5.0 * spend >= 4.0 * budgetCost)
      && (hardStop <==> elapsed >= budgetMinutes || spend >= budgetCost)
    case Stuck(failures, retryBudget) =>
      failures == m.failures && retryBudget == 3 && failures >= 3
  }

  function Rank(t: Trigger): nat {
    match t
    case Size(_, _, _, _) => 0
    case Risk(_) => 1
    case TimeCost(_, _, _, _, _) => 2
    case Stuck(_, _) => 3
  }

  lemma FiresIff(t: Trigger, m: Measured, budget: Budget)
    ensures Fires(t, m, budget) <==>
              match t
              case Size(_, _, _, _) => CheckSize(m.files, m.lines, budget) == Some(t)
              case Risk(_) => CheckRisk(m.files, m.inScope) == Some(t)
              case TimeCost(_, _, _, _, _) => CheckTimeCost(m.elapsed, m.spend, budget) == Some(t)
              case Stuck(_, _) => CheckStuck(m.failures) == Some(t)
  {
    if t.Risk? {
      assert Fires(t, m, budget) ==> t.outOfScope == m.files - m.inScope;
    }
  }

  /**
   * An evaluation lists exactly the violations, each once and with its own numbers, in the order size,
   * risk, time and cost, stuck.
   */
  lemma EvaluationIsExact(m: Measured, budget: Budget)
    ensures var ts := EvaluateCheckpoints(m, budget);
            && (forall t :: t in ts <==> Fires(t, m, budget))
            && (forall i, j | 0 <= i < j < |ts| :: Rank(ts[i]) < Rank(ts[j]))
  {
    hide Fires;
    forall t ensures t in EvaluateCheckpoints(m, budget) <==> Fires(t, m, budget) {
      ListedIff(t, m, budget);
    }
  }

  lemma ListedIff(t: Trigger, m: Measured, budget: Budget)
    ensures t in EvaluateCheckpoints(m, budget) <==> Fires(t, m, budget)
  {
    hide Fires;
    EvaluatedAre(m, budget);
    FiresIff(t, m, budget);
    hide EvaluateCheckpoints;
  }

  /** A check that fired and whose violation nobody has answered. */
  predicate Open(check: Option<Trigger>, acked: set<Trigger>) {
    check.Some? && check.value !in acked
  }

  /** The question presented is the first open one, in the order size, risk, time and cost, stuck. */
  lemma PresentedInOrder(m: Measured, budget: Budget, acked: set<Trigger>)
    ensures var ts := Unacknowledged(EvaluateCheckpoints(m, budget), acked);
            var size, risk := CheckSize(m.files, m.lines, budget), CheckRisk(m.files, m.inScope);
            var time, stuck := CheckTimeCost(m.elapsed, m.spend, budget), CheckStuck(m.failures);
            && (ts == [] <==> !Open(size, acked) && !Open(risk, acked) && !Open(time, acked) && !Open(stuck, acked))
            && (ts != [] ==>
                  Some(ts[0]) == (if Open(size, acked) then size else if Open(risk, acked) then risk
                                  else if Open(time, acked) then time else stuck))
  {
    var size, risk := CheckSize(m.files, m.lines, budget), CheckRisk(m.files, m.inScope);
    var time, stuck := CheckTimeCost(m.elapsed, m.spend, budget), CheckStuck(m.failures);
    var s4 := OptionToSeq(stuck);
    var s3 := OptionToSeq(time) + s4;
    var s2 := OptionToSeq(risk) + s3;
    assert EvaluateCheckpoints(m, budget) == OptionToSeq(size) + s2;
    UnackedOption(size, s2, acked);
    UnackedOption(risk, s3, acked);
    UnackedOption(time, s4, acked);
    UnackedOption(stuck, [], acked);
    assert s4 == OptionToSeq(stuck) + [];
  }

  lemma UnackedOption(check: Option<Trigger>, rest: seq<Trigger>, acked: set<Trigger>)
    ensures Unacknowledged(OptionToSeq(check) + rest, acked)
         == (if Open(check, acked) then [check.value] else []) + Unacknowledged(rest, acked)
  {
    if check.Some? {
      assert ([check.value] + rest)[1..] == rest;
    } else {
      assert OptionToSeq(check) + rest == rest;
    }
  }

  /**
   * The question presented is the violation nobody answered that ranks first; there is none exactly if
   * every violation was answered.
   */
  lemma PresentedRanksFirst(m: Measured, budget: Budget, acked: set<Trigger>)
    ensures var ts := Unacknowledged(EvaluateCheckpoints(m, budget), acked);
            && (ts == [] <==> forall t :: Fires(t, m, budget) ==> t in acked)
            && (ts != [] ==>
                 && Fires(ts[0], m, budget) && ts[0] !in acked
                 && forall t :: Fires(t, m, budget) && t !in acked ==> t == ts[0] || Rank(ts[0]) < Rank(t))
  {
    hide EvaluateCheckpoints, Unacknowledged, Fires, Rank;
    var all := EvaluateCheckpoints(m, budget);
    EvaluationIsExact(m, budget);
    var ts := Unacknowledged(all, acked);
    if ts != [] {
      assert ts[0] in ts;
      var i :| 0 <= i < |all| && all[i] == ts[0] && ts[0] !in acked && forall j | 0 <= j < i :: all[j] in acked;
      forall t | Fires(t, m, budget) && t !in acked ensures t == ts[0] || Rank(ts[0]) < Rank(t) {
        var k :| 0 <= k < |all| && all[k] == t;
        assert k >= i;
      }
    } else {
      assert forall t :: t in all ==> t in acked;
    }
  }

  /** The stuck trigger that a failure count raises, unless that count was already answered. */
  lemma StuckPresented(m: Measured, budget: Budget, acked: set<Trigger>)
    ensures FirstStuck(Unacknowledged(EvaluateCheckpoints(m, budget), acked)) ==
            if m.failures >= STUCK_RETRY_BUDGET && Stuck(m.failures, STUCK_RETRY_BUDGET) !in acked
            then Some(Stuck(m.failures, STUCK_RETRY_BUDGET)) else None
  {
    var ts := EvaluateCheckpoints(m, budget);
    EvaluatedAre(m, budget);
    forall t | t in ts && t.Stuck?
      ensures t == Stuck(m.failures, STUCK_RETRY_BUDGET) && m.failures >= STUCK_RETRY_BUDGET
    {
    }
    if m.failures >= STUCK_RETRY_BUDGET {
      assert CheckStuck(m.failures) == Some(Stuck(m.failures, STUCK_RETRY_BUDGET));
      assert Stuck(m.failures, STUCK_RETRY_BUDGET) in ts;
    }
  }

  // ---- The retry budget --------------------------------------------------

  /** Acknowledged stuck counts above f: the only ones that can still delay a pause. */
  function AckedAbove(f: nat, acked: set<Trigger>): set<Trigger> {
    set t | t in acked && t.Stuck? && t.retryBudget == STUCK_RETRY_BUDGET && t.failures > f
  }

  lemma AckedAboveShrinks(f: nat, acked: set<Trigger>)
    ensures AckedAbove(f + 1, acked) <= AckedAbove(f, acked)
    ensures |AckedAbove(f + 1, acked)| <= |AckedAbove(f, acked)|
    ensures Stuck(f + 1, STUCK_RETRY_BUDGET) in acked ==> |AckedAbove(f + 1, acked)| < |AckedAbove(f, acked)|
  {
    SubsetSize(AckedAbove(f + 1, acked), AckedAbove(f, acked));
    if Stuck(f + 1, STUCK_RETRY_BUDGET) in acked {
      assert Stuck(f + 1, STUCK_RETRY_BUDGET) in AckedAbove(f, acked);
      ProperSubsetSize(AckedAbove(f + 1, acked), AckedAbove(f, acked));
    }
  }

  /** How many more consecutive failures, starting from count f, until one pauses the run. */
  function FailuresLeft(f: nat, acked: set<Trigger>): (k: nat)
    decreases if f < 2 then 2 - f else 0, |AckedAbove(f, acked)|
  {
    AckedAboveShrinks(f, acked);
    if f + 1 >= STUCK_RETRY_BUDGET && Stuck(f + 1, STUCK_RETRY_BUDGET) !in acked then 1
    else 1 + FailuresLeft(f + 1, acked)
  }

  /** FailuresLeft is the first count above f that fires and has not been acknowledged. */
  lemma {:induction false} FailuresLeftIsFirst(f: nat, acked: set<Trigger>)
    ensures var k := FailuresLeft(f, acked);
            && k >= 1
            && f + k >= STUCK_RETRY_BUDGET
            && Stuck(f + k, STUCK_RETRY_BUDGET) !in acked
            && forall n :: f < n < f + k && n >= STUCK_RETRY_BUDGET ==> Stuck(n, STUCK_RETRY_BUDGET) in acked
    decreases if f < 2 then 2 - f else 0, |AckedAbove(f, acked)|
  {
    AckedAboveShrinks(f, acked);
    if !(f + 1 >= STUCK_RETRY_BUDGET && Stuck(f + 1, STUCK_RETRY_BUDGET) !in acked) {
      FailuresLeftIsFirst(f + 1, acked);
    }
  }

  /** Pigeonhole: a streak is at most the plain budget plus one failure per acknowledged stuck count. */
  lemma {:induction false} RetryBudgetBound(f: nat, acked: set<Trigger>)
    ensures FailuresLeft(f, acked) <= (if f < 2 then STUCK_RETRY_BUDGET - f else 1) + |AckedAbove(f, acked)|
    decreases if f < 2 then 2 - f else 0, |AckedAbove(f, acked)|
  {
    AckedAboveShrinks(f, acked);
    if !(f + 1 >= STUCK_RETRY_BUDGET && Stuck(f + 1, STUCK_RETRY_BUDGET) !in acked) {
      RetryBudgetBound(f + 1, acked);
    }
  }

  /** A reset streak pauses at exactly the plain budget iff that count was never acknowledged before. */
  lemma FreshStreakPausesAtBudget(acked: set<Trigger>)
    ensures FailuresLeft(0, acked) == STUCK_RETRY_BUDGET <==> Stuck(STUCK_RETRY_BUDGET, STUCK_RETRY_BUDGET) !in acked
  {
    FailuresLeftIsFirst(0, acked);
    assert Stuck(0 + 3, STUCK_RETRY_BUDGET) == Stuck(STUCK_RETRY_BUDGET, STUCK_RETRY_BUDGET);
    assert FailuresLeft(0, acked) == 2 + FailuresLeft(2, acked);
  }
}
