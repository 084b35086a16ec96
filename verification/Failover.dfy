/**
 * Calling a model through a list of (model, region) pairs: each pair has its own retry budget with
 * exponential backoff, a pair that exhausts it hands over to the next one, and the pair that answered
 * is where the next call starts.
 */
module Failover {
  import opened Common

  /** What one call of the provider can do. */
  datatype Reply =
    | Answer(response: string)
    | TimedOut
    | Throttling
    | ConnectionFailed
    | AccessDenied
    | OtherError(code: string)

  datatype CallError = Throttled | Denied | Invocation(code: string)

  type Outcome = Result<string, CallError>

  /** Worth another try: a soft timeout, a throttling code, a connection-level failure. */
  predicate Transient(r: Reply) {
    r.TimedOut? || r.Throttling? || r.ConnectionFailed?
  }

  /** What a reply that is not transient comes to. */
  function Settled(r: Reply): Outcome
    requires !Transient(r)
  {
    match r
    case Answer(a) => Success(a)
    case AccessDenied => Failure(Denied)
    case OtherError(c) => Failure(Invocation(c))
  }

  function Pow2(n: nat): (p: nat)
    ensures p >= 1
  {
    if n == 0 then 1 else 2 * Pow2(n - 1)
  }

  lemma {:induction false} Pow2Grows(m: nat, n: nat)
    requires m <= n
    ensures Pow2(m) <= Pow2(n)
    decreases n
  {
    if m < n {
      Pow2Grows(m, n - 1);
    }
  }

  /** The k-th sleep is backoff times 2 to the k, so k sleeps add up to this. */
  function Slept(backoff: real, k: nat): real {
    backoff * (Pow2(k) - 1) as real
  }

  lemma SleptNext(backoff: real, k: nat)
    ensures Slept(backoff, k + 1) == Slept(backoff, k) + backoff * Pow2(k) as real
  {
    var p := Pow2(k) as real;
    assert (Pow2(k + 1) - 1) as real == (p - 1.0) + p;
    assert backoff * ((p - 1.0) + p) == backoff * (p - 1.0) + backoff * p;
  }

  /** The first sleep is the backoff, and every further one twice the one before. */
  lemma SleepsDouble(backoff: real, k: nat)
    ensures Slept(backoff, 0) == 0.0 && Slept(backoff, 1) == backoff
    ensures Slept(backoff, k + 2) - Slept(backoff, k + 1) == 2.0 * (Slept(backoff, k + 1) - Slept(backoff, k))
  {
    assert Pow2(0) == 1 && Pow2(1) == 2;
    SleptNext(backoff, k);
    SleptNext(backoff, k + 1);
    var p := Pow2(k) as real;
    assert Pow2(k + 1) as real == 2.0 * p;
    assert backoff * (2.0 * p) == 2.0 * (backoff * p);
    hide Slept;
  }

  lemma SleptBound(backoff: real, k: nat, m: nat)
    requires backoff >= 0.0 && k <= m
    ensures 0.0 <= Slept(backoff, k) <= Slept(backoff, m)
  {
    Pow2Grows(k, m);
    MulMono(backoff, (Pow2(k) - 1) as real, (Pow2(m) - 1) as real);
  }

  lemma MulMono(a: real, x: real, y: real)
    requires a >= 0.0 && 0.0 <= x <= y
    ensures 0.0 <= a * x <= a * y
  {
    assert a * (y - x) >= 0.0;
  }

  /** Every reply the retry budget allows is transient; with no budget at all this is so at once. */
  ghost predicate Exhausts(replies: nat -> Reply, maxRetries: int) {
    forall k: nat :: k < maxRetries ==> Transient(replies(k))
  }

  /** The first reply that settles the call. */
  ghost predicate SettledAt(replies: nat -> Reply, maxRetries: int, k: nat) {
    k < maxRetries && !Transient(replies(k)) && forall j: nat :: j < k ==> Transient(replies(j))
  }

  /** Same answer whatever the number of transient failures before it. */
  ghost predicate Yields(replies: nat -> Reply, maxRetries: int, r: Outcome) {
    || (r == Failure(Throttled) && Exhausts(replies, maxRetries))
    || (exists k :: SettledAt(replies, maxRetries, k) && r == Settled(replies(k)))
  }

  lemma YieldsOne(replies: nat -> Reply, maxRetries: int, r: Outcome, r': Outcome)
    requires Yields(replies, maxRetries, r) && Yields(replies, maxRetries, r')
    ensures r == r'
    ensures r == Failure(Throttled) <==> Exhausts(replies, maxRetries)
  {
    forall k, k' | SettledAt(replies, maxRetries, k) && SettledAt(replies, maxRetries, k') ensures k == k' {
      FirstIsUnique(replies, maxRetries, k, k');
    }
  }

  /** Replies that are worth another try, named. */
  predicate TryAgain(r: Reply) {
    r == TimedOut || r == Throttling || r == ConnectionFailed
  }

  /** The reply of try k, all before it having been worth another one. */
  ghost predicate ComesFirst(replies: nat -> Reply, maxRetries: int, k: nat, r: Reply) {
    k < maxRetries && replies(k) == r && forall j: nat :: j < k ==> TryAgain(replies(j))
  }

  /**
   * The outcome, said of the replies alone: an answer, a denial or another error comes from the first reply
   * that is not a timeout, a throttling or a lost connection; with none within the budget it is throttled.
   */
  lemma YieldsIff(replies: nat -> Reply, maxRetries: int, r: Outcome)
    ensures Yields(replies, maxRetries, r) <==>
              match r
              case Success(a) => exists k :: ComesFirst(replies, maxRetries, k, Answer(a))
              case Failure(Denied) => exists k :: ComesFirst(replies, maxRetries, k, AccessDenied)
              case Failure(Invocation(c)) => exists k :: ComesFirst(replies, maxRetries, k, OtherError(c))
              case Failure(Throttled) => forall k: nat :: k < maxRetries ==> TryAgain(replies(k))
  {
    if Yields(replies, maxRetries, r) && r != Failure(Throttled) {
      var k :| SettledAt(replies, maxRetries, k) && r == Settled(replies(k));
      assert ComesFirst(replies, maxRetries, k, replies(k));
    }
    forall k, x | ComesFirst(replies, maxRetries, k, x) && !TryAgain(x) ensures SettledAt(replies, maxRetries, k) {
    }
  }

  lemma FirstIsUnique(replies: nat -> Reply, maxRetries: int, k: nat, k': nat)
    requires SettledAt(replies, maxRetries, k) && SettledAt(replies, maxRetries, k')
    ensures k == k'
  {
  }

  /** The retry loop against one region. */
  method CallOneRegion(replies: nat -> Reply, maxRetries: int, backoff: real)
    returns (r: Outcome, attempts: nat, slept: real)
    ensures Yields(replies, maxRetries, r)
    ensures attempts <= if maxRetries > 0 then maxRetries else 0
    ensures attempts == 0 <==> maxRetries <= 0
    ensures r != Failure(Throttled) ==> attempts > 0 && SettledAt(replies, maxRetries, attempts - 1)
    ensures r == Failure(Throttled) ==> attempts == if maxRetries > 0 then maxRetries else 0
    ensures slept == Slept(backoff, if attempts == 0 then 0 else attempts - 1)
  {
    slept, attempts := 0.0, 0;
    while attempts < maxRetries
      invariant attempts <= if maxRetries > 0 then maxRetries else 0
      invariant attempts < maxRetries || maxRetries <= 0
      invariant forall j: nat :: j < attempts ==> Transient(replies(j))
      invariant slept == Slept(backoff, attempts)
      decreases maxRetries - attempts
    {
      var reply := replies(attempts);
      if !Transient(reply) {
        assert SettledAt(replies, maxRetries, attempts);
        r := Settled(reply);
        attempts := attempts + 1;
        return;
      }
      if attempts == maxRetries - 1 {
        attempts := attempts + 1;
        return Failure(Throttled), attempts, slept;
      }
      SleptNext(backoff, attempts);
      slept := slept + backoff * Pow2(attempts) as real;
      attempts := attempts + 1;
    }
    r := Failure(Throttled);
  }

  // ---- The list of pairs -------------------------------------------------------

  datatype Pair = Pair(model: string, region: string)

  /** The fallback models, without the primary one. */
  function Others(primary: string, fallbacks: seq<string>): seq<string> {
    if fallbacks == [] then []
    else (if fallbacks[0] == primary then [] else [fallbacks[0]]) + Others(primary, fallbacks[1..])
  }

  lemma OthersOf(primary: string, m: string, rest: seq<string>)
    ensures Others(primary, [m] + rest) == (if m == primary then [] else [m]) + Others(primary, rest)
  {
    assert ([m] + rest)[1..] == rest;
  }

  lemma OneOther(primary: string, m: string)
    ensures Others(primary, [m]) == if m == primary then [] else [m]
  {
    assert Others(primary, []) == [];
  }

  lemma Assoc(x: seq<string>, y: seq<string>, z: seq<string>)
    ensures (x + y) + z == x + (y + z)
  {
  }

  /** They keep their order, and only the primary one is left out (OneOther): what is left of two lists is what is left of each. */
  lemma {:induction false} OthersKeepOrder(primary: string, a: seq<string>, b: seq<string>)
    ensures Others(primary, a + b) == Others(primary, a) + Others(primary, b)
  {
    if a == [] {
      assert a + b == b;
    } else {
      hide Others;
      var m, rest := a[0], a[1..];
      OthersKeepOrder(primary, rest, b);
      OthersOf(primary, m, rest);
      OthersOf(primary, m, rest + b);
      assert a == [m] + rest && a + b == [m] + (rest + b);
      Assoc(if m == primary then [] else [m], Others(primary, rest), Others(primary, b));
    }
  }

  function ModelIds(primary: string, fallbacks: seq<string>): seq<string> {
    [primary] + Others(primary, fallbacks)
  }

  function PairsOf(model: string, regions: seq<string>): seq<Pair> {
    seq(|regions|, i requires 0 <= i < |regions| => Pair(model, regions[i]))
  }

  /** Model by model, and for each model region by region. */
  function Attempts(models: seq<string>, regions: seq<string>): seq<Pair> {
    if models == [] then [] else Attempts(models[..|models| - 1], regions) + PairsOf(models[|models| - 1], regions)
  }

  lemma {:induction false} AttemptAt(models: seq<string>, regions: seq<string>, m: nat, r: nat)
    requires m < |models| && r < |regions|
    ensures |Attempts(models, regions)| == |models| * |regions|
    ensures m * |regions| + r < |models| * |regions|
    ensures Attempts(models, regions)[m * |regions| + r] == Pair(models[m], regions[r])
    decreases |models|
  {
    var n := |models| - 1;
    var front := Attempts(models[..n], regions);
    AttemptsLength(models[..n], regions);
    assert (n + 1) * |regions| == n * |regions| + |regions|;
    if m < n {
      AttemptAt(models[..n], regions, m, r);
    } else {
      assert m * |regions| == n * |regions|;
    }
  }

  lemma {:induction false} AttemptsLength(models: seq<string>, regions: seq<string>)
    ensures |Attempts(models, regions)| == |models| * |regions|
  {
    if models != [] {
      var n := |models| - 1;
      AttemptsLength(models[..n], regions);
      assert (n + 1) * |regions| == n * |regions| + |regions|;
    }
  }

  predicate Distinct<T(==)>(s: seq<T>) {
    forall i, j | 0 <= i < j < |s| :: s[i] != s[j]
  }

  lemma {:induction false} MulSteps(a: nat, b: nat, n: nat)
    ensures a <= b ==> a * n <= b * n
    ensures a < b ==> a * n + n <= b * n
  {
    if a < b {
      MulSteps(a, b - 1, n);
      assert (b - 1) * n + n == b * n;
    }
  }

  /** Every place in the list is some region of some model. */
  lemma {:induction false} AttemptIs(models: seq<string>, regions: seq<string>, i: nat) returns (m: nat, r: nat)
    requires i < |Attempts(models, regions)|
    ensures m < |models| && r < |regions| && i == m * |regions| + r
    ensures Attempts(models, regions)[i] == Pair(models[m], regions[r])
  {
    var n := |models| - 1;
    var front := Attempts(models[..n], regions);
    AttemptsLength(models[..n], regions);
    if i < |front| {
      m, r := AttemptIs(models[..n], regions, i);
    } else {
      m, r := n, i - |front|;
    }
  }

  /**
   * No pair is listed twice exactly when the regions are distinct and so are the models. Repeats of the
   * primary model among the fallbacks are dropped; other repeats are not.
   */
  lemma PairsAreDistinctIff(models: seq<string>, regions: seq<string>)
    requires models != [] && regions != []
    ensures Distinct(Attempts(models, regions)) <==> Distinct(models) && Distinct(regions)
  {
    hide Attempts;
    var a := Attempts(models, regions);
    if Distinct(models) && Distinct(regions) {
      forall i, j | 0 <= i < j < |a| ensures a[i] != a[j] {
        var m, r := AttemptIs(models, regions, i);
        var m', r' := AttemptIs(models, regions, j);
        assert m != m' || r != r';
      }
    }
    if Distinct(a) {
      forall i, j | 0 <= i < j < |regions| ensures regions[i] != regions[j] {
        RegionsDiffer(models, regions, i, j);
      }
      forall i, j | 0 <= i < j < |models| ensures models[i] != models[j] {
        ModelsDiffer(models, regions, i, j);
      }
    }
  }

  lemma RegionsDiffer(models: seq<string>, regions: seq<string>, i: nat, j: nat)
    requires models != [] && i < j < |regions| && Distinct(Attempts(models, regions))
    ensures regions[i] != regions[j]
  {
    AttemptAt(models, regions, 0, i);
    AttemptAt(models, regions, 0, j);
  }

  lemma ModelsDiffer(models: seq<string>, regions: seq<string>, i: nat, j: nat)
    requires regions != [] && i < j < |models| && Distinct(Attempts(models, regions))
    ensures models[i] != models[j]
  {
    hide Attempts;
    AttemptAt(models, regions, i, 0);
    AttemptAt(models, regions, j, 0);
    MulSteps(i, j, |regions|);
  }

  // ---- One call over all pairs ---------------------------------------------------

  /** range(start, n) followed by range(start). */
  function Order(start: nat, n: nat): (order: seq<nat>)
    requires start < n
    ensures |order| == n
    ensures forall p | 0 <= p < n :: order[p] == if p < n - start then start + p else start + p - n
  {
    seq(n - start, i requires 0 <= i => start + i) + seq(start, i requires 0 <= i => i)
  }

  /** Cyclic order from the start, every index exactly once. */
  lemma OrderIsCyclic(start: nat, n: nat, p: nat, q: nat)
    requires start < n && p < n && q < n
    ensures Order(start, n)[p] == (start + p) % n
    ensures Order(start, n)[p] == Order(start, n)[q] <==> p == q
  {
    ModWrap(if p < n - start then start + p else start + p - n, n);
  }

  lemma ModWrap(x: nat, n: nat)
    requires x < n
    ensures x % n == x && (x + n) % n == x
  {
  }

  /** The caller's record of the pair that last answered. */
  class StickyState {
    var index: int

    constructor ()
      ensures index == 0
    {
      index := 0;
    }
  }

  type Oracle = (nat, nat) -> Reply

  function RepliesOf(replies: Oracle, i: nat): nat -> Reply {
    (k: nat) => replies(i, k)
  }

  ghost predicate PairExhausts(replies: Oracle, maxRetries: int, i: nat) {
    Exhausts(RepliesOf(replies, i), maxRetries)
  }

  ghost predicate PairYields(replies: Oracle, maxRetries: int, i: nat, r: Outcome) {
    Yields(RepliesOf(replies, i), maxRetries, r)
  }

  /** The sticky index, whatever it is, brought into range. */
  function StartFrom(sticky: int, n: nat): (start: nat)
    requires n > 0
    ensures start < n
    ensures 0 <= sticky < n ==> start == sticky
  {
    sticky % n
  }

  /** The call stopped at the pair in position p, every pair before it having used up its budget. */
  ghost predicate StoppedAt(replies: Oracle, maxRetries: int, start: nat, n: nat, p: nat, r: Outcome)
    requires start < n
  {
    && p < n && r != Failure(Throttled) && PairYields(replies, maxRetries, Order(start, n)[p], r)
    && forall q | 0 <= q < p :: PairExhausts(replies, maxRetries, Order(start, n)[q])
  }

  /** Where a call starts and, if it succeeds, where the next one will. */
  datatype CallRecord = CallRecord(start: nat, stopped: Option<nat>, outcome: Outcome)

  ghost predicate Describes(c: CallRecord, replies: Oracle, maxRetries: int, n: nat) {
    && c.start < n
    && (match c.stopped
        case Some(p) => StoppedAt(replies, maxRetries, c.start, n, p, c.outcome)
        case None => c.outcome == Failure(Throttled) && forall i: nat | i < n :: PairExhausts(replies, maxRetries, i))
  }

  /** The index a call leaves behind. */
  function StickyAfter(c: CallRecord, n: nat, before: int): int
    requires c.start < n && (c.stopped.Some? ==> c.stopped.value < n)
  {
    if c.outcome.Success? && c.stopped.Some? then Order(c.start, n)[c.stopped.value] else before
  }

  function Times(k: nat, x: real): real {
    k as real * x
  }

  lemma TimesZero(x: real)
    ensures Times(0, x) == 0.0
  {
  }

  lemma AddOne(budget: real, k: nat, n: nat)
    requires budget >= 0.0 && k < n
    ensures 0.0 <= Times(k, budget) + budget == Times(k + 1, budget) <= Times(n, budget)
  {
    assert (k + 1) as real == k as real + 1.0;
    MulMono(budget, (k + 1) as real, n as real);
  }

  /** All pairs of one configuration: the primary model and region first. */
  function AllPairs(primary: string, fallbacks: seq<string>, region: string, otherRegions: seq<string>): (r: seq<Pair>)
    ensures |r| > 0 && r[0] == Pair(primary, region)
  {
    var models, regions := ModelIds(primary, fallbacks), [region] + otherRegions;
    AttemptAt(models, regions, 0, 0);
    Attempts(models, regions)
  }

  /** The list of a configuration: the primary model and then the others, each in the first region and then in the others. */
  lemma AllPairsAre(primary: string, fallbacks: seq<string>, region: string, otherRegions: seq<string>, m: nat, r: nat)
    requires m <= |Others(primary, fallbacks)| && r <= |otherRegions|
    ensures var pairs, regions := AllPairs(primary, fallbacks, region, otherRegions), 1 + |otherRegions|;
            && |pairs| == (1 + |Others(primary, fallbacks)|) * regions
            && m * regions + r < |pairs|
            && pairs[m * regions + r] == Pair(if m == 0 then primary else Others(primary, fallbacks)[m - 1],
                                              if r == 0 then region else otherRegions[r - 1])
  {
    hide Attempts, Others;
    AttemptAt(ModelIds(primary, fallbacks), [region] + otherRegions, m, r);
  }

  /** The reply i of the oracle is what the pair at place i of the list answers. */
  method CallConverse(primary: string, fallbacks: seq<string>, region: string, otherRegions: seq<string>,
                      replies: Oracle, maxRetries: int, backoff: real, sticky: StickyState?)
    returns (c: CallRecord, answered: Option<Pair>, slept: real)
    requires backoff >= 0.0
    modifies sticky
    ensures var pairs := AllPairs(primary, fallbacks, region, otherRegions);
            var n := |pairs|;
            && Describes(c, replies, maxRetries, n)
            && (c.start == if sticky == null then 0 else StartFrom(old(sticky.index), n))
            && (c.stopped.Some? ==> c.stopped.value < n && answered == Some(pairs[Order(c.start, n)[c.stopped.value]]))
            && (c.stopped.None? ==> answered.None?)
            && (sticky != null ==> sticky.index == StickyAfter(c, n, old(sticky.index)))
            && 0.0 <= slept <= Times(n, Slept(backoff, if maxRetries <= 1 then 0 else maxRetries - 1))
  {
    hide Slept, Pow2, Yields, Times, Order, StartFrom, Attempts, ModelIds, AllPairs;
    var pairs := AllPairs(primary, fallbacks, region, otherRegions);
    var n := |pairs|;
    var start := if sticky == null then 0 else StartFrom(sticky.index, n);
    var order := Order(start, n);
    TimesZero(Slept(backoff, if maxRetries <= 1 then 0 else maxRetries - 1));
    SleptBound(backoff, 0, if maxRetries <= 1 then 0 else maxRetries - 1);
    var budget := Slept(backoff, if maxRetries <= 1 then 0 else maxRetries - 1);
    slept := 0.0;
    var position := 0;
    while position < n
      invariant position <= n
      invariant sticky != null ==> sticky.index == old(sticky.index)
      invariant forall q | 0 <= q < position :: PairExhausts(replies, maxRetries, order[q])
      invariant 0.0 <= slept <= Times(position, budget)
    {
      var i := order[position];
      var r, attempts, more := CallOneRegion(RepliesOf(replies, i), maxRetries, backoff);
      SleptBound(backoff, if attempts == 0 then 0 else attempts - 1, if maxRetries <= 1 then 0 else maxRetries - 1);
      AddOne(budget, position, n);
      slept := slept + more;
      if r != Failure(Throttled) {
        if r.Success? && sticky != null {
          sticky.index := i;
        }
        c, answered := CallRecord(start, Some(position), r), Some(pairs[i]);
        return;
      }
      YieldsOne(RepliesOf(replies, i), maxRetries, r, r);
      position := position + 1;
    }
    EveryPairTried(replies, maxRetries, start, n);
    c, answered := CallRecord(start, None, Failure(Throttled)), None;
  }

  lemma EveryPairTried(replies: Oracle, maxRetries: int, start: nat, n: nat)
    requires start < n && forall q | 0 <= q < n :: PairExhausts(replies, maxRetries, Order(start, n)[q])
    ensures forall i: nat | i < n :: PairExhausts(replies, maxRetries, i)
  {
    forall i: nat | i < n ensures PairExhausts(replies, maxRetries, i) {
      var q := if i >= start then i - start else i - start + n;
      assert Order(start, n)[q] == i;
    }
  }

  // ---- What the order guarantees ---------------------------------------------------

  /** A call that wraps round has used up every pair from its start to the end of the list. */
  lemma WrapsOnlyWhenExhausted(c: CallRecord, replies: Oracle, maxRetries: int, n: nat, before: int)
    requires Describes(c, replies, maxRetries, n) && StartFrom(before, n) == c.start
    requires c.stopped.Some? && Order(c.start, n)[c.stopped.value] < c.start
    ensures forall i | c.start <= i < n :: PairExhausts(replies, maxRetries, i)
  {
    var p := c.stopped.value;
    forall i | c.start <= i < n ensures PairExhausts(replies, maxRetries, i) {
      assert Order(c.start, n)[i - c.start] == i;
    }
  }

  /** Starting at the first pair, a pair of a later model is tried only after every region of every earlier one. */
  lemma RegionsBeforeModels(c: CallRecord, replies: Oracle, maxRetries: int, models: seq<string>, regions: seq<string>,
                            m: nat, r: nat, m': nat, r': nat)
    requires m < m' < |models| && r < |regions| && r' < |regions|
    requires Describes(c, replies, maxRetries, |Attempts(models, regions)|) && c.start == 0
    requires c.stopped.Some? && c.stopped.value == m' * |regions| + r'
    ensures m * |regions| + r < m' * |regions| + r' < |Attempts(models, regions)|
    ensures Attempts(models, regions)[m * |regions| + r] == Pair(models[m], regions[r])
    ensures Attempts(models, regions)[m' * |regions| + r'] == Pair(models[m'], regions[r'])
    ensures PairExhausts(replies, maxRetries, m * |regions| + r)
  {
    hide Attempts, PairExhausts, PairYields;
    MulSteps(m, m', |regions|);
    AttemptAt(models, regions, m, r);
    AttemptAt(models, regions, m', r');
    assert Order(0, |Attempts(models, regions)|)[m * |regions| + r] == m * |regions| + r;
  }

  /**
   * The next call starts at the pair that answered, and any other outcome leaves the start where it was. An
   * index out of range counts round the list.
   */
  lemma NextStart(c: CallRecord, replies: Oracle, maxRetries: int, n: nat, before: int)
    requires Describes(c, replies, maxRetries, n)
    ensures c.outcome.Success? ==>
              c.stopped.Some? && c.stopped.value < n && StartFrom(StickyAfter(c, n, before), n) == (c.start + c.stopped.value) % n
    ensures c.outcome.Failure? ==> StickyAfter(c, n, before) == before
    ensures StartFrom(before + n, n) == StartFrom(before, n)
  {
    ModWrap(StartFrom(before, n), n);
    if c.stopped.Some? {
      OrderIsCyclic(c.start, n, c.stopped.value, 0);
    }
    ShiftedMod(before, n);
  }

  lemma ShiftedMod(x: int, n: nat)
    requires n > 0
    ensures (x + n) % n == x % n
  {
    var q, r := x / n, x % n;
    assert x + n == (q + 1) * n + r;
    UniqueMod(x + n, n, q + 1, r);
  }

  lemma UniqueMod(x: int, n: nat, q: int, r: int)
    requires n > 0 && x == q * n + r && 0 <= r < n
    ensures x % n == r
  {
    var d := x / n - q;
    assert d * n == r - x % n;
  }

  // ---- Over many calls ---------------------------------------------------------------

  datatype Made = Made(record: CallRecord, replies: Oracle)

  /** A sequence of calls by one owner of the sticky state, each answered in its own way. */
  ghost predicate Session(calls: seq<Made>, maxRetries: int, n: nat, first: int) {
    n > 0 && (calls == [] || (
      var last := calls[|calls| - 1];
      && Session(calls[..|calls| - 1], maxRetries, n, first)
      && Describes(last.record, last.replies, maxRetries, n)
      && last.record.start == StartFrom(Sticky(calls[..|calls| - 1], n, first), n)))
  }

  /** The sticky index after these calls. */
  ghost function Sticky(calls: seq<Made>, n: nat, first: int): int {
    if calls == [] then first
    else
      var last := calls[|calls| - 1].record;
      var before := Sticky(calls[..|calls| - 1], n, first);
      if last.start < n && (last.stopped.Some? ==> last.stopped.value < n) then StickyAfter(last, n, before) else before
  }

  ghost predicate UsedUpToTheEnd(call: Made, maxRetries: int, n: nat) {
    forall i | call.record.start <= i < n :: PairExhausts(call.replies, maxRetries, i)
  }

  /**
   * A session never goes back up the list by itself: if its index is lower after some calls than it was,
   * one of those calls used up every pair from where it started to the end of the list.
   */
  lemma {:induction false} NeverClimbsBack(calls: seq<Made>, maxRetries: int, n: nat, first: int)
    requires Session(calls, maxRetries, n, first) && 0 <= first < n
    ensures 0 <= Sticky(calls, n, first) < n
    ensures Sticky(calls, n, first) < first ==>
              exists k :: 0 <= k < |calls| && UsedUpToTheEnd(calls[k], maxRetries, n)
  {
    hide StartFrom, PairExhausts, StoppedAt;
    if calls != [] {
      var m := |calls| - 1;
      var last := calls[m];
      NeverClimbsBack(calls[..m], maxRetries, n, first);
      var before := Sticky(calls[..m], n, first);
      if before < first {
        var k :| 0 <= k < m && UsedUpToTheEnd(calls[..m][k], maxRetries, n);
        assert UsedUpToTheEnd(calls[k], maxRetries, n);
      } else if Sticky(calls, n, first) < first {
        WrapsOnlyWhenExhausted(last.record, last.replies, maxRetries, n, before);
        assert UsedUpToTheEnd(calls[m], maxRetries, n);
      }
    }
  }

  /** A fallback model named twice puts the same pair in the list twice, so one call can exhaust it twice. */
  lemma RepeatedFallbackIsTriedTwice()
    ensures Attempts(ModelIds("a", ["b", "a", "b"]), ["x"]) == [Pair("a", "x"), Pair("b", "x"), Pair("b", "x")]
  {
    RepeatedModel();
    hide ModelIds, Others;
    var r := ["x"];
    assert ["a", "b", "b"][..2] == ["a", "b"] && ["a", "b"][..1] == ["a"] && ["a"][..0] == [];
    assert PairsOf("a", r) == [Pair("a", "x")] && PairsOf("b", r) == [Pair("b", "x")];
    hide PairsOf;
    assert Attempts([], r) == [];
    assert Attempts(["a"], r) == [Pair("a", "x")];
    assert Attempts(["a", "b"], r) == [Pair("a", "x"), Pair("b", "x")];
  }

  lemma RepeatedModel()
    ensures ModelIds("a", ["b", "a", "b"]) == ["a", "b", "b"]
  {
    assert Others("a", ["b"]) == ["b"];
    assert Others("a", ["a", "b"]) == ["b"];
  }
}
