/**
 * Coalescing of concurrent capacity requests: one provider call in flight per tenant, everyone else
 * waits for its outcome. Callers are threads; each step is one locked section, one call of the
 * provider, or one write to the shared future, and steps of different callers interleave freely.
 */
module SingleFlight {
  import opened Common

  type Tenant = string

  /** What the provider did: returned an answer, or raised. Both are handed to every follower. */
  datatype Outcome = Returned(answer: string) | Raised(error: string)

  datatype Pc =
    | Entering
    | Leading(pending: nat)
    | InCall(pending: nat)
    | Popping(pending: nat, outcome: Outcome)
    | Setting(pending: nat, outcome: Outcome)
    | Signalling(pending: nat, outcome: Outcome)
    | Waiting(pending: nat)
    | Done(pending: nat, outcome: Outcome)

  /** A one-shot future: first the outcome is stored, then the event is set. The leader is who installed it. */
  datatype Pending = Pending(tenant: Tenant, leader: nat, outcome: Option<Outcome>, signalled: bool)

  /** Caller i asks for tenants[i]; inflight maps a tenant to its pending request. */
  datatype State = State(pcs: seq<Pc>, inflight: map<Tenant, nat>, pendings: seq<Pending>)

  /** One step of one caller; the outcome is used when that step is the provider's answer. */
  datatype Step = Step(caller: nat, outcome: Outcome)

  function Initial(tenants: seq<Tenant>): State {
    State(seq(|tenants|, _ => Entering), map[], [])
  }

  /** The locked lookup: join the pending request of this tenant, or install a new one and lead. */
  function EnterStep(tenants: seq<Tenant>, s: State, i: nat): State
    requires i < |tenants| == |s.pcs|
  {
    var t := tenants[i];
    if t in s.inflight then s.(pcs := s.pcs[i := Waiting(s.inflight[t])])
    else
      var p := |s.pendings|;
      State(s.pcs[i := Leading(p)], s.inflight[t := p], s.pendings + [Pending(t, i, None, false)])
  }

  /** The next state, or None when the caller cannot move: it is done, or waits for the event. */
  function Next(tenants: seq<Tenant>, s: State, e: Step): Option<State> {
    var i := e.caller;
    if i >= |tenants| || |s.pcs| != |tenants| then None
    else
      match s.pcs[i]
      case Entering => Some(EnterStep(tenants, s, i))
      case Leading(p) => Some(s.(pcs := s.pcs[i := InCall(p)]))
      case InCall(p) => Some(s.(pcs := s.pcs[i := Popping(p, e.outcome)]))
      case Popping(p, o) => Some(s.(pcs := s.pcs[i := Setting(p, o)], inflight := s.inflight - {tenants[i]}))
      case Setting(p, o) =>
        if p < |s.pendings| then
          Some(s.(pcs := s.pcs[i := Signalling(p, o)], pendings := s.pendings[p := s.pendings[p].(outcome := Some(o))]))
        else None
      case Signalling(p, o) =>
        if p < |s.pendings| then
          Some(s.(pcs := s.pcs[i := Done(p, o)], pendings := s.pendings[p := s.pendings[p].(signalled := true)]))
        else None
      case Waiting(p) =>
        if p < |s.pendings| && s.pendings[p].signalled && s.pendings[p].outcome.Some? then
          Some(s.(pcs := s.pcs[i := Done(p, s.pendings[p].outcome.value)]))
        else None
      case Done(_, _) => None
  }

  function Exec(tenants: seq<Tenant>, log: seq<Step>): Option<State> {
    if log == [] then Some(Initial(tenants))
    else
      var before := Exec(tenants, log[..|log| - 1]);
      if before.None? then None else Next(tenants, before.value, log[|log| - 1])
  }

  /** Any interleaving of any number of callers, stopped anywhere. */
  predicate Schedule(tenants: seq<Tenant>, log: seq<Step>) {
    Exec(tenants, log).Some?
  }

  // ---- The invariant ---------------------------------------------------------

  /** The request is registered: nobody may start another one for the tenant. */
  predicate Registered(pc: Pc) {
    pc.Leading? || pc.InCall? || pc.Popping?
  }

  predicate LeaderOnly(pc: Pc) {
    Registered(pc) || pc.Setting? || pc.Signalling?
  }

  /** How far the future of a pending request is, by its leader's place. */
  predicate FutureMatches(q: Pending, pc: Pc) {
    match pc
    case Signalling(_, o) => q.outcome == Some(o) && !q.signalled
    case Done(_, o) => q.outcome == Some(o) && q.signalled
    case _ => LeaderOnly(pc) && q.outcome.None? && !q.signalled
  }

  ghost predicate CallerOk(tenants: seq<Tenant>, s: State, i: nat)
    requires i < |tenants| == |s.pcs|
  {
    var pc := s.pcs[i];
    pc.Entering? || (
      && pc.pending < |s.pendings|
      && s.pendings[pc.pending].tenant == tenants[i]
      && (LeaderOnly(pc) ==> s.pendings[pc.pending].leader == i)
      && (Registered(pc) ==> tenants[i] in s.inflight && s.inflight[tenants[i]] == pc.pending)
      && (pc.Done? ==> s.pendings[pc.pending].outcome == Some(pc.outcome)))
  }

  ghost predicate PendingOk(tenants: seq<Tenant>, s: State, p: nat)
    requires p < |s.pendings| && |tenants| == |s.pcs|
  {
    var q := s.pendings[p];
    && q.leader < |tenants| && tenants[q.leader] == q.tenant
    && !s.pcs[q.leader].Entering? && s.pcs[q.leader].pending == p
    && FutureMatches(q, s.pcs[q.leader])
  }

  ghost predicate InflightOk(s: State, t: Tenant)
    requires t in s.inflight
  {
    var p := s.inflight[t];
    && p < |s.pendings| && s.pendings[p].tenant == t
    && s.pendings[p].leader < |s.pcs| && Registered(s.pcs[s.pendings[p].leader])
  }

  ghost predicate Inv(tenants: seq<Tenant>, s: State) {
    && |s.pcs| == |tenants|
    && (forall i | 0 <= i < |tenants| :: CallerOk(tenants, s, i))
    && (forall p | 0 <= p < |s.pendings| :: PendingOk(tenants, s, p))
    && (forall t | t in s.inflight :: InflightOk(s, t))
  }

  lemma CallerKept(tenants: seq<Tenant>, s: State, e: Step, j: nat)
    requires Inv(tenants, s) && Next(tenants, s, e).Some? && j < |tenants|
    ensures |Next(tenants, s, e).value.pcs| == |tenants| && CallerOk(tenants, Next(tenants, s, e).value, j)
  {
    var i := e.caller;
    assert CallerOk(tenants, s, i) && CallerOk(tenants, s, j);
    if !s.pcs[i].Entering? {
      assert PendingOk(tenants, s, s.pcs[i].pending);
    } else if tenants[i] in s.inflight {
      assert InflightOk(s, tenants[i]);
    }
  }

  lemma PendingKept(tenants: seq<Tenant>, s: State, e: Step, p: nat)
    requires Inv(tenants, s) && Next(tenants, s, e).Some? && p < |Next(tenants, s, e).value.pendings|
    ensures |Next(tenants, s, e).value.pcs| == |tenants| && PendingOk(tenants, Next(tenants, s, e).value, p)
  {
    var i := e.caller;
    assert CallerOk(tenants, s, i);
    if p < |s.pendings| {
      assert PendingOk(tenants, s, p);
      if !s.pcs[i].Entering? {
        assert PendingOk(tenants, s, s.pcs[i].pending);
      }
    }
  }

  lemma InflightKept(tenants: seq<Tenant>, s: State, e: Step, t: Tenant)
    requires Inv(tenants, s) && Next(tenants, s, e).Some? && t in Next(tenants, s, e).value.inflight
    ensures InflightOk(Next(tenants, s, e).value, t)
  {
    var i := e.caller;
    assert CallerOk(tenants, s, i);
    if t in s.inflight {
      assert InflightOk(s, t);
      assert PendingOk(tenants, s, s.inflight[t]);
    }
  }

  lemma StepKeepsInv(tenants: seq<Tenant>, s: State, e: Step)
    requires Inv(tenants, s) && Next(tenants, s, e).Some?
    ensures Inv(tenants, Next(tenants, s, e).value)
  {
    hide CallerOk, PendingOk, InflightOk;
    var s' := Next(tenants, s, e).value;
    forall j | 0 <= j < |tenants| ensures CallerOk(tenants, s', j) {
      CallerKept(tenants, s, e, j);
    }
    forall p | 0 <= p < |s'.pendings| ensures PendingOk(tenants, s', p) {
      PendingKept(tenants, s, e, p);
    }
    forall t | t in s'.inflight ensures InflightOk(s', t) {
      InflightKept(tenants, s, e, t);
    }
  }

  lemma {:induction false} ScheduleKeepsInv(tenants: seq<Tenant>, log: seq<Step>)
    requires Schedule(tenants, log)
    ensures Inv(tenants, Exec(tenants, log).value)
  {
    if log != [] {
      ScheduleKeepsInv(tenants, log[..|log| - 1]);
      StepKeepsInv(tenants, Exec(tenants, log[..|log| - 1]).value, log[|log| - 1]);
    }
  }

  /** The state after the first n steps. */
  function At(tenants: seq<Tenant>, log: seq<Step>, n: nat): State
    requires Schedule(tenants, log) && n <= |log|
  {
    PrefixRuns(tenants, log, n);
    Exec(tenants, log[..n]).value
  }

  lemma {:induction false} PrefixRuns(tenants: seq<Tenant>, log: seq<Step>, n: nat)
    requires Schedule(tenants, log) && n <= |log|
    ensures Schedule(tenants, log[..n])
    decreases |log|
  {
    if n == |log| {
      assert log[..n] == log;
    } else {
      PrefixRuns(tenants, log[..|log| - 1], n);
      assert log[..|log| - 1][..n] == log[..n];
    }
  }

  lemma StepAt(tenants: seq<Tenant>, log: seq<Step>, n: nat)
    requires Schedule(tenants, log) && n < |log|
    ensures Next(tenants, At(tenants, log, n), log[n]) == Some(At(tenants, log, n + 1))
    ensures Inv(tenants, At(tenants, log, n)) && Inv(tenants, At(tenants, log, n + 1))
  {
    PrefixRuns(tenants, log, n);
    PrefixRuns(tenants, log, n + 1);
    ScheduleKeepsInv(tenants, log[..n]);
    ScheduleKeepsInv(tenants, log[..n + 1]);
    assert log[..n + 1][..n] == log[..n];
  }

  // ---- Safety over every interleaving ------------------------------------------

  /** Provider calls for one tenant never overlap. */
  lemma OneCallPerTenant(tenants: seq<Tenant>, log: seq<Step>, i: nat, j: nat)
    requires Schedule(tenants, log) && i < |tenants| && j < |tenants| && tenants[i] == tenants[j]
    requires |Exec(tenants, log).value.pcs| == |tenants|
    requires Exec(tenants, log).value.pcs[i].InCall? && Exec(tenants, log).value.pcs[j].InCall?
    ensures i == j
  {
    ScheduleKeepsInv(tenants, log);
    var s := Exec(tenants, log).value;
    assert CallerOk(tenants, s, i) && CallerOk(tenants, s, j);
  }

  /** A leader's pop takes out its own entry, and no other tenant's. */
  lemma PopRemovesOwnEntry(tenants: seq<Tenant>, log: seq<Step>, n: nat)
    requires Schedule(tenants, log) && n < |log|
    requires log[n].caller < |At(tenants, log, n).pcs| && At(tenants, log, n).pcs[log[n].caller].Popping?
    ensures var s, s', i := At(tenants, log, n), At(tenants, log, n + 1), log[n].caller;
            && i < |tenants| && tenants[i] in s.inflight && s.inflight[tenants[i]] == s.pcs[i].pending
            && s'.inflight == s.inflight - {tenants[i]}
  {
    StepAt(tenants, log, n);
    assert CallerOk(tenants, At(tenants, log, n), log[n].caller);
  }

  /** A future is set once: it is empty before, and keeps its outcome for ever after. */
  lemma SetOnce(tenants: seq<Tenant>, log: seq<Step>, n: nat)
    requires Schedule(tenants, log) && n < |log|
    requires log[n].caller < |At(tenants, log, n).pcs| && At(tenants, log, n).pcs[log[n].caller].Setting?
    ensures var s, i := At(tenants, log, n), log[n].caller;
            s.pcs[i].pending < |s.pendings| && s.pendings[s.pcs[i].pending].outcome.None?
  {
    StepAt(tenants, log, n);
    var s, i := At(tenants, log, n), log[n].caller;
    assert CallerOk(tenants, s, i);
    assert PendingOk(tenants, s, s.pcs[i].pending);
  }

  lemma OutcomeKept(tenants: seq<Tenant>, s: State, e: Step, p: nat)
    requires Inv(tenants, s) && Next(tenants, s, e).Some?
    requires p < |s.pendings| && s.pendings[p].outcome.Some?
    ensures p < |Next(tenants, s, e).value.pendings|
    ensures Next(tenants, s, e).value.pendings[p].outcome == s.pendings[p].outcome
  {
    assert CallerOk(tenants, s, e.caller);
    assert PendingOk(tenants, s, p);
  }

  lemma {:induction false} OutcomeStays(tenants: seq<Tenant>, log: seq<Step>, n: nat, m: nat, p: nat)
    requires Schedule(tenants, log) && n <= m <= |log|
    requires p < |At(tenants, log, n).pendings|
    requires At(tenants, log, n).pendings[p].outcome.Some?
    ensures p < |At(tenants, log, m).pendings|
    ensures At(tenants, log, m).pendings[p].outcome == At(tenants, log, n).pendings[p].outcome
    decreases m
  {
    hide Inv, Next, Exec;
    if n < m {
      OutcomeStays(tenants, log, n, m - 1, p);
      StepAt(tenants, log, m - 1);
      OutcomeKept(tenants, At(tenants, log, m - 1), log[m - 1], p);
    }
  }

  // ---- Whose outcome a caller gets ---------------------------------------------

  /** At step e caller i came in. */
  predicate EntersAt(tenants: seq<Tenant>, log: seq<Step>, i: nat, e: nat)
    requires Schedule(tenants, log)
  {
    && e < |log| && log[e].caller == i
    && i < |At(tenants, log, e).pcs| && At(tenants, log, e).pcs[i].Entering?
  }

  /** At step k the provider answered caller j with o, in the call made for pending request p. */
  predicate AnsweredAt(tenants: seq<Tenant>, log: seq<Step>, j: nat, p: nat, o: Outcome, k: nat)
    requires Schedule(tenants, log)
  {
    && k < |log| && log[k] == Step(j, o)
    && j < |At(tenants, log, k).pcs| && At(tenants, log, k).pcs[j] == InCall(p)
  }

  /** At step x caller j retired pending request p. */
  predicate RetiredAt(tenants: seq<Tenant>, log: seq<Step>, j: nat, p: nat, x: nat)
    requires Schedule(tenants, log)
  {
    && x < |log| && log[x].caller == j && j < |At(tenants, log, x).pcs|
    && At(tenants, log, x).pcs[j].Popping? && At(tenants, log, x).pcs[j].pending == p
  }

  /** Every caller only ever moves forward through the protocol. */
  function Rank(pc: Pc): nat {
    match pc
    case Entering => 0
    case Leading(_) => 1
    case Waiting(_) => 1
    case InCall(_) => 2
    case Popping(_, _) => 3
    case Setting(_, _) => 4
    case Signalling(_, _) => 5
    case Done(_, _) => 6
  }

  /** The place of caller i after the first n steps. */
  function PcAt(tenants: seq<Tenant>, log: seq<Step>, n: nat, i: nat): (pc: Pc)
    requires Schedule(tenants, log) && n <= |log| && i < |tenants|
  {
    PrefixRuns(tenants, log, n);
    ScheduleKeepsInv(tenants, log[..n]);
    At(tenants, log, n).pcs[i]
  }

  lemma CallerIsKnown(tenants: seq<Tenant>, s: State, e: Step)
    requires Next(tenants, s, e).Some?
    ensures e.caller < |tenants|
  {
  }

  /** A step moves one caller forward, and never changes what a pending request is for. */
  lemma StepMoves(tenants: seq<Tenant>, s: State, e: Step, i: nat)
    requires Inv(tenants, s) && Next(tenants, s, e).Some? && i < |tenants|
    ensures var s' := Next(tenants, s, e).value;
            && e.caller < |s.pcs| == |s'.pcs| == |tenants|
            && s'.pcs == s.pcs[e.caller := s'.pcs[e.caller]]
            && Rank(s.pcs[e.caller]) < Rank(s'.pcs[e.caller])
            && Rank(s.pcs[i]) <= Rank(s'.pcs[i])
            && |s.pendings| <= |s'.pendings|
            && (forall p | 0 <= p < |s.pendings| ::
                  s'.pendings[p].leader == s.pendings[p].leader && s'.pendings[p].tenant == s.pendings[p].tenant)
  {
  }

  lemma {:induction false} RankGrows(tenants: seq<Tenant>, log: seq<Step>, n: nat, m: nat, i: nat)
    requires Schedule(tenants, log) && n <= m <= |log| && i < |tenants|
    ensures Rank(PcAt(tenants, log, n, i)) <= Rank(PcAt(tenants, log, m, i))
    decreases m
  {
    hide Inv, Next, Exec, Rank;
    if n < m {
      RankGrows(tenants, log, n, m - 1, i);
      StepAt(tenants, log, m - 1);
      StepMoves(tenants, At(tenants, log, m - 1), log[m - 1], i);
    }
  }

  lemma {:induction false} LeaderStays(tenants: seq<Tenant>, log: seq<Step>, n: nat, m: nat, p: nat)
    requires Schedule(tenants, log) && n <= m <= |log| && p < |At(tenants, log, n).pendings|
    ensures p < |At(tenants, log, m).pendings|
    ensures At(tenants, log, m).pendings[p].leader == At(tenants, log, n).pendings[p].leader
    ensures At(tenants, log, m).pendings[p].tenant == At(tenants, log, n).pendings[p].tenant
    decreases m
  {
    hide Inv, Next, Exec, Rank;
    if n < m {
      LeaderStays(tenants, log, n, m - 1, p);
      StepAt(tenants, log, m - 1);
      CallerIsKnown(tenants, At(tenants, log, m - 1), log[m - 1]);
      StepMoves(tenants, At(tenants, log, m - 1), log[m - 1], log[m - 1].caller);
    }
  }

  /** What a caller's place says about its request, at any moment. */
  lemma RequestOf(tenants: seq<Tenant>, log: seq<Step>, n: nat, i: nat)
    requires Schedule(tenants, log) && n <= |log| && i < |tenants| && !PcAt(tenants, log, n, i).Entering?
    ensures var s, pc := At(tenants, log, n), PcAt(tenants, log, n, i);
            && pc.pending < |s.pendings| && s.pendings[pc.pending].tenant == tenants[i]
            && (pc.Waiting? ==> s.pendings[pc.pending].leader != i)
            && (LeaderOnly(pc) ==> s.pendings[pc.pending].leader == i)
            && (pc.Done? ==> s.pendings[pc.pending].outcome == Some(pc.outcome))
            && var q := s.pendings[pc.pending];
            && q.leader < |tenants| && tenants[q.leader] == tenants[i]
            && var l := PcAt(tenants, log, n, q.leader);
            && !l.Entering? && l.pending == pc.pending && FutureMatches(q, l)
  {
    var s := At(tenants, log, n);
    PrefixRuns(tenants, log, n);
    ScheduleKeepsInv(tenants, log[..n]);
    assert CallerOk(tenants, s, i);
    assert PendingOk(tenants, s, s.pcs[i].pending);
  }

  lemma AllStartEntering(tenants: seq<Tenant>, log: seq<Step>, i: nat)
    requires Schedule(tenants, log) && i < |tenants|
    ensures PcAt(tenants, log, 0, i) == Entering
  {
    assert log[..0] == [];
  }

  /** The step that took caller i to where it is. */
  lemma {:induction false} CameFrom(tenants: seq<Tenant>, log: seq<Step>, n: nat, i: nat) returns (m: nat)
    requires Schedule(tenants, log) && n <= |log| && i < |tenants| && !PcAt(tenants, log, n, i).Entering?
    ensures m < n && log[m].caller == i && PcAt(tenants, log, m + 1, i) == PcAt(tenants, log, n, i)
    ensures PcAt(tenants, log, m, i) != PcAt(tenants, log, n, i)
    decreases n
  {
    AllStartEntering(tenants, log, i);
    StepAt(tenants, log, n - 1);
    if PcAt(tenants, log, n - 1, i) == PcAt(tenants, log, n, i) {
      m := CameFrom(tenants, log, n - 1, i);
    } else {
      m := n - 1;
    }
  }

  /** When caller i came in; it has held the same pending request ever since. */
  lemma {:induction false} EntryOf(tenants: seq<Tenant>, log: seq<Step>, n: nat, i: nat) returns (e: nat)
    requires Schedule(tenants, log) && n <= |log| && i < |tenants| && !PcAt(tenants, log, n, i).Entering?
    ensures e < n && EntersAt(tenants, log, i, e) && !PcAt(tenants, log, e + 1, i).Entering?
    ensures PcAt(tenants, log, e + 1, i).pending == PcAt(tenants, log, n, i).pending
    decreases n
  {
    var m := CameFrom(tenants, log, n, i);
    StepAt(tenants, log, m);
    if PcAt(tenants, log, m, i).Entering? {
      e := m;
    } else {
      e := EntryOf(tenants, log, m, i);
    }
  }

  /** When the leader of a request got its answer, and when it then retired the request. */
  lemma {:induction false} RetirementOf(tenants: seq<Tenant>, log: seq<Step>, n: nat, j: nat) returns (k: nat, x: nat)
    requires Schedule(tenants, log) && n <= |log| && j < |tenants|
    requires var pc := PcAt(tenants, log, n, j);
             && !pc.Entering? && pc.pending < |At(tenants, log, n).pendings|
             && At(tenants, log, n).pendings[pc.pending].leader == j
             && (pc.Setting? || pc.Signalling? || pc.Done?)
    ensures var pc := PcAt(tenants, log, n, j);
            k < x < n && AnsweredAt(tenants, log, j, pc.pending, pc.outcome, k) && RetiredAt(tenants, log, j, pc.pending, x)
    decreases n
  {
    var m := CameFrom(tenants, log, n, j);
    StepAt(tenants, log, m);
    RequestOf(tenants, log, m, j);
    LeaderStays(tenants, log, m, n, PcAt(tenants, log, m, j).pending);
    if PcAt(tenants, log, n, j).Setting? {
      x := m;
      k := CameFrom(tenants, log, m, j);
      StepAt(tenants, log, k);
    } else {
      k, x := RetirementOf(tenants, log, m, j);
    }
  }

  /** The call of j that gave o answered request p, which was retired only after i had come in. */
  predicate Serves(tenants: seq<Tenant>, log: seq<Step>, i: nat, j: nat, p: nat, o: Outcome, e: nat, k: nat, x: nat)
    requires Schedule(tenants, log)
  {
    && j < |tenants| && i < |tenants| && tenants[j] == tenants[i] && e < x && k < x
    && EntersAt(tenants, log, i, e) && AnsweredAt(tenants, log, j, p, o, k) && RetiredAt(tenants, log, j, p, x)
  }

  /** When i came in, its request had not been retired. */
  lemma JoinedInTime(tenants: seq<Tenant>, log: seq<Step>, i: nat, j: nat, e: nat, x: nat)
    requires Schedule(tenants, log) && i < |tenants| && j < |tenants| && x < |log|
    requires EntersAt(tenants, log, i, e) && !PcAt(tenants, log, e + 1, i).Entering?
    requires var p := PcAt(tenants, log, e + 1, i).pending;
             && RetiredAt(tenants, log, j, p, x)
             && p < |At(tenants, log, e + 1).pendings| && At(tenants, log, e + 1).pendings[p].leader == j
    ensures e < x
  {
    StepAt(tenants, log, e);
    StepAt(tenants, log, x);
    if x <= e {
      if j == i {
        RankGrows(tenants, log, x, e, i);
      } else {
        var s := At(tenants, log, e);
        assert tenants[i] in s.inflight && InflightOk(s, tenants[i]);
        RankGrows(tenants, log, x + 1, e, j);
      }
    }
  }

  /** Every caller gets the outcome of a call made for its own tenant that was not retired when it came in. */
  lemma OutcomeIsFresh(tenants: seq<Tenant>, log: seq<Step>, i: nat)
    requires Schedule(tenants, log) && i < |tenants| && PcAt(tenants, log, |log|, i).Done?
    ensures var pc := PcAt(tenants, log, |log|, i);
            exists j, e, k, x :: Serves(tenants, log, i, j, pc.pending, pc.outcome, e, k, x)
  {
    hide Next, Exec, Inv;
    var n := |log|;
    var pc := PcAt(tenants, log, n, i);
    RequestOf(tenants, log, n, i);
    var q := At(tenants, log, n).pendings[pc.pending];
    var j := q.leader;
    RequestOf(tenants, log, n, j);
    var k, x := RetirementOf(tenants, log, n, j);
    var e := EntryOf(tenants, log, n, i);
    RequestOf(tenants, log, e + 1, i);
    LeaderStays(tenants, log, e + 1, n, pc.pending);
    JoinedInTime(tenants, log, i, j, e, x);
    assert Serves(tenants, log, i, j, pc.pending, pc.outcome, e, k, x);
  }

  // ---- Nobody is left waiting ---------------------------------------------------

  predicate CanMove(tenants: seq<Tenant>, s: State, i: nat, o: Outcome) {
    Next(tenants, s, Step(i, o)).Some?
  }

  predicate HeldUp(s: State, pc: Pc) {
    && pc.Waiting? && pc.pending < |s.pendings|
    && s.pendings[pc.pending].leader < |s.pcs| && LeaderOnly(s.pcs[s.pendings[pc.pending].leader])
  }

  /** A caller is blocked only while the leader of its request is still on its way, and that leader can move. */
  lemma BlockedOnlyByALeader(tenants: seq<Tenant>, log: seq<Step>, i: nat, o: Outcome)
    requires Schedule(tenants, log) && i < |tenants|
    ensures var s, pc := At(tenants, log, |log|), PcAt(tenants, log, |log|, i);
            (!CanMove(tenants, s, i, o) && !pc.Done?) <==> HeldUp(s, pc)
    ensures var s, pc := At(tenants, log, |log|), PcAt(tenants, log, |log|, i);
            HeldUp(s, pc) ==> CanMove(tenants, s, s.pendings[pc.pending].leader, o)
  {
    PrefixRuns(tenants, log, |log|);
    ScheduleKeepsInv(tenants, log[..|log|]);
    if !PcAt(tenants, log, |log|, i).Entering? {
      RequestOf(tenants, log, |log|, i);
      RequestOf(tenants, log, |log|, At(tenants, log, |log|).pendings[PcAt(tenants, log, |log|, i).pending].leader);
    }
  }

  function TotalRank(pcs: seq<Pc>): nat {
    if pcs == [] then 0 else TotalRank(pcs[..|pcs| - 1]) + Rank(pcs[|pcs| - 1])
  }

  lemma {:induction false} RankSum(pcs: seq<Pc>, i: nat, pc: Pc)
    requires i < |pcs|
    ensures TotalRank(pcs[i := pc]) == TotalRank(pcs) - Rank(pcs[i]) + Rank(pc)
    ensures TotalRank(pcs) <= 6 * |pcs|
  {
    var n := |pcs| - 1;
    if i < n {
      assert pcs[i := pc][..n] == pcs[..n][i := pc];
      RankSum(pcs[..n], i, pc);
    } else {
      assert pcs[i := pc][..n] == pcs[..n];
      if n > 0 {
        RankSum(pcs[..n], 0, pcs[0]);
      }
    }
  }

  lemma {:induction false} NobodyMovedYet(n: nat)
    ensures TotalRank(seq(n, _ => Entering)) == 0
  {
    if n > 0 {
      assert seq(n, _ => Entering)[..n - 1] == seq(n - 1, _ => Entering);
      NobodyMovedYet(n - 1);
    }
  }

  /** No interleaving runs for ever: each caller takes at most six steps. */
  lemma {:induction false} SchedulesEnd(tenants: seq<Tenant>, log: seq<Step>)
    requires Schedule(tenants, log)
    ensures |log| <= TotalRank(Exec(tenants, log).value.pcs) <= 6 * |tenants|
  {
    hide Inv, Next, Rank;
    if log == [] {
      NobodyMovedYet(|tenants|);
    } else {
      var s, e := Exec(tenants, log[..|log| - 1]).value, log[|log| - 1];
      var s' := Exec(tenants, log).value;
      SchedulesEnd(tenants, log[..|log| - 1]);
      ScheduleKeepsInv(tenants, log[..|log| - 1]);
      CallerIsKnown(tenants, s, e);
      StepMoves(tenants, s, e, e.caller);
      RankSum(s.pcs, e.caller, s'.pcs[e.caller]);
      RankSum(s'.pcs, e.caller, s'.pcs[e.caller]);
    }
  }

  /** An interleaving that cannot go on has served everybody. */
  lemma NoDeadlock(tenants: seq<Tenant>, log: seq<Step>, o: Outcome)
    requires Schedule(tenants, log)
    requires forall i | 0 <= i < |tenants| :: !CanMove(tenants, At(tenants, log, |log|), i, o)
    ensures forall i | 0 <= i < |tenants| :: PcAt(tenants, log, |log|, i).Done?
  {
    hide Next, Exec, Inv;
    forall i | 0 <= i < |tenants| ensures PcAt(tenants, log, |log|, i).Done? {
      BlockedOnlyByALeader(tenants, log, i, o);
      if !PcAt(tenants, log, |log|, i).Entering? {
        RequestOf(tenants, log, |log|, i);
      }
    }
  }

  /** A burst for one tenant that comes in before anything is retired makes one request, and so one call. */
  lemma BurstIsOneRequest(tenants: seq<Tenant>, log: seq<Step>, i: nat, j: nat)
    requires Schedule(tenants, log) && i < |tenants| && j < |tenants| && tenants[i] == tenants[j]
    requires forall k | 0 <= k < |tenants| && tenants[k] == tenants[i] :: Rank(PcAt(tenants, log, |log|, k)) <= 3
    requires !PcAt(tenants, log, |log|, i).Entering? && !PcAt(tenants, log, |log|, j).Entering?
    ensures PcAt(tenants, log, |log|, i).pending == PcAt(tenants, log, |log|, j).pending
  {
    RequestOf(tenants, log, |log|, i);
    RequestOf(tenants, log, |log|, j);
    var s := At(tenants, log, |log|);
    PrefixRuns(tenants, log, |log|);
    assert log[..|log|] == log;
    ScheduleKeepsInv(tenants, log);
    assert CallerOk(tenants, s, s.pendings[s.pcs[i].pending].leader);
    assert CallerOk(tenants, s, s.pendings[s.pcs[j].pending].leader);
  }
}
