/**
 * What the clock does to a run: time and cost questions, and what they mean for a backend that
 * answers parallel calls with nothing.
 */
module RunClock {
  import opened Common
  import opened Checkpoints
  import opened Plans
  import opened Scheduling
  import opened RunMachine
  import opened RunInvariants

  // ---- When time and cost are asked about ---------------------------------------

  function Max(a: real, b: real): real {
    if a >= b then a else b
  }

  /** The longest elapsed time anybody has answered for. */
  ghost function LongestAcked(acked: set<Trigger>): (r: real)
    ensures forall t :: t in acked && t.TimeCost? ==> t.elapsed <= r
  {
    if acked == {} then 0.0
    else
      var t :| t in acked;
      var rest := LongestAcked(acked - {t});
      if t.TimeCost? then Max(t.elapsed, rest) else rest
  }

  /** Past this reading every checkpoint evaluation asks something. */
  ghost function QuietUntil(budget: Budget, acked: set<Trigger>): real {
    Max(budget.wallClockMinutes * TIME_COST_WARNING_FRACTION, LongestAcked(acked))
  }

  predicate NothingToAsk(budgets: Budgets, a: PlanArtifact, p: RunProgress, elapsed: real) {
    Triggers(budgets, a, p, elapsed) == []
  }

  /** Time and cost are asked about exactly if the threshold is crossed and this very reading was not answered. */
  lemma TimeCostIsAskedIff(budgets: Budgets, a: PlanArtifact, p: RunProgress, elapsed: real, budget: Budget)
    requires ResolveBudget(a.storySize, a.highRisk, budgets) == Success(budget)
    ensures (exists t :: t in Triggers(budgets, a, p, elapsed) && t.TimeCost?)
       <==> Open(CheckTimeCost(elapsed, p.spend, budget), p.acked)
  {
    EvaluatedAre(Measure(a, p, elapsed), budget);
    if Open(CheckTimeCost(elapsed, p.spend, budget), p.acked) {
      var t := CheckTimeCost(elapsed, p.spend, budget).value;
      assert t in Triggers(budgets, a, p, elapsed) && t.TimeCost?;
    }
  }

  /** Answering a time or cost question does not quiet the next one: it is about that one reading. */
  lemma AnsweringDoesNotQuiet(budgets: Budgets, a: PlanArtifact, p: RunProgress, before: real, later: real, budget: Budget)
    requires ResolveBudget(a.storySize, a.highRisk, budgets) == Success(budget)
    requires CheckTimeCost(before, p.spend, budget).Some? && before < later
    requires later > LongestAcked(p.acked)
    ensures var q := p.(acked := p.acked + {CheckTimeCost(before, p.spend, budget).value});
            && !NothingToAsk(budgets, a, q, later)
            && Open(CheckTimeCost(later, q.spend, budget), q.acked)
  {
    var q := p.(acked := p.acked + {CheckTimeCost(before, p.spend, budget).value});
    TimeCostIsAskedIff(budgets, a, q, later, budget);
  }

  lemma LateReadingsAsk(budgets: Budgets, a: PlanArtifact, p: RunProgress, elapsed: real, budget: Budget)
    requires ResolveBudget(a.storySize, a.highRisk, budgets) == Success(budget)
    ensures elapsed > QuietUntil(budget, p.acked) ==> !NothingToAsk(budgets, a, p, elapsed)
  {
    TimeCostIsAskedIff(budgets, a, p, elapsed, budget);
  }

  // ---- How many quiet readings are left --------------------------------------------

  type Positive = x: real | x > 0.0 witness 1.0

  /** Readings, at least tick apart, that can still come in by the limit. */
  ghost function Reads(limit: real, elapsed: real, tick: Positive): (n: nat)
    ensures n == 0 <==> elapsed > limit
  {
    if elapsed > limit then 0
    else
      DivNonNegative(limit - elapsed, tick);
      ((limit - elapsed) / tick).Floor + 1
  }

  lemma DivNonNegative(x: real, tick: Positive)
    requires x >= 0.0
    ensures x / tick >= 0.0
  {
  }

  lemma DivMonotone(x: real, y: real, tick: Positive)
    requires x <= y
    ensures x / tick <= y / tick
  {
    DivNonNegative(y - x, tick);
    assert (y - x) / tick == y / tick - x / tick;
  }

  lemma DivSub(x: real, y: real, tick: Positive)
    ensures (x - y) / tick == x / tick - y / tick
  {
  }

  lemma DivLessOne(x: real, tick: Positive)
    ensures (x - tick) / tick == x / tick - 1.0
  {
    assert tick / tick == 1.0;
    DivSub(x, tick, tick);
  }

  lemma ReadsFall(limit: real, before: real, now: real, tick: Positive)
    requires now >= before + tick
    ensures Reads(limit, now, tick) <= Reads(limit, before, tick)
    ensures now <= limit ==> Reads(limit, now, tick) < Reads(limit, before, tick)
  {
    if now <= limit {
      DivMonotone(limit - now, limit - before - tick, tick);
      DivLessOne(limit - before, tick);
    }
  }

  // ---- A backend that answers parallel calls with nothing -----------------------------

  /** One round of the drive loop on an empty answer. */
  function Round(tasks: seq<PlannedTask>, p: RunProgress, elapsed: real): seq<Event> {
    [Implement(Batch(tasks), Some([])), ProgressSaved(p), ClockRead(elapsed)]
  }

  function Rounds(tasks: seq<PlannedTask>, p: RunProgress, readings: seq<real>): seq<Event> {
    if readings == [] then [] else Round(tasks, p, readings[0]) + Rounds(tasks, p, readings[1..])
  }

  /** A clock that moves on by at least tick between two readings. */
  predicate Advances(readings: seq<real>, tick: Positive) {
    forall i | 0 <= i < |readings| - 1 :: readings[i + 1] >= readings[i] + tick
  }

  /** An advancing clock leaves only so many quiet readings. */
  lemma {:induction false} FewQuietReadings(budgets: Budgets, a: PlanArtifact, p: RunProgress, readings: seq<real>,
                                            tick: Positive, budget: Budget)
    requires ResolveBudget(a.storySize, a.highRisk, budgets) == Success(budget)
    requires readings != [] && Advances(readings, tick)
    requires forall i | 0 <= i < |readings| :: NothingToAsk(budgets, a, p, readings[i])
    ensures |readings| <= Reads(QuietUntil(budget, p.acked), readings[0], tick)
  {
    var limit := QuietUntil(budget, p.acked);
    LateReadingsAsk(budgets, a, p, readings[0], budget);
    if |readings| > 1 {
      FewQuietReadings(budgets, a, p, readings[1..], tick, budget);
      LateReadingsAsk(budgets, a, p, readings[1], budget);
      ReadsFall(limit, readings[0], readings[1], tick);
    }
  }
}
