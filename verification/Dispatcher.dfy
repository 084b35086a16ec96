/**
 * The job dispatcher: an accepted trigger gets capacity and becomes a run, or waits in its tenant's
 * queue and is retried. Webhooks and retries run on threads of their own; a step below is one locked
 * section or one outside call, so steps of different triggers interleave in any order.
 */
module Dispatching {
  import opened Common

  type Tenant = string

  datatype Trigger = Trigger(tenant: Tenant, jiraKey: string, repository: string)

  datatype DispatchedRun = DispatchedRun(trigger: Trigger, capacityClass: string)

  /** How the capacity request of one trigger came out. Only an available answer names a class, and it may not. */
  datatype Capacity = Available(capacityClass: Option<string>) | Unavailable(reason: string) | CapacityRaised

  datatype State = State(
    queues: map<Tenant, seq<Trigger>>,
    runs: seq<DispatchedRun>,
    inHand: multiset<Trigger>,
    accepted: multiset<Trigger>,
    lost: multiset<Trigger>,
    enqueued: map<Tenant, seq<Trigger>>,
    taken: map<Tenant, seq<Trigger>>)

  const INITIAL := State(map[], [], multiset{}, multiset{}, multiset{}, map[], map[])

  datatype Event =
    | Accepted(trigger: Trigger)
    | Taken(tenant: Tenant)
    | Settled(trigger: Trigger, capacity: Capacity, registryOk: bool)

  function Get(m: map<Tenant, seq<Trigger>>, t: Tenant): seq<Trigger> {
    if t in m then m[t] else []
  }

  /** Enqueued at the tail of its own tenant's queue. */
  function Enqueue(s: State, x: Trigger): State {
    s.(queues := s.queues[x.tenant := Get(s.queues, x.tenant) + [x]],
       enqueued := s.enqueued[x.tenant := Get(s.enqueued, x.tenant) + [x]])
  }

  /** Nothing at all happens on an empty queue; otherwise the oldest trigger is popped. */
  function Take(s: State, t: Tenant): State {
    var q := Get(s.queues, t);
    if q == [] then s
    else s.(queues := s.queues[t := q[1..]], inHand := s.inHand + multiset{q[0]},
            taken := s.taken[t := Get(s.taken, t) + [q[0]]])
  }

  /** The end of a dispatch; None if the trigger was not in hand. */
  function Settle(s: State, x: Trigger, capacity: Capacity, registryOk: bool): Option<State> {
    if x !in s.inHand then None
    else
      var s' := s.(inHand := s.inHand - multiset{x});
      match capacity
      case Unavailable(_) => Some(Enqueue(s', x))
      case Available(Some(c)) =>
        if registryOk then Some(s'.(runs := s.runs + [DispatchedRun(x, c)]))
        else Some(s'.(lost := s.lost + multiset{x}))
      case _ => Some(s'.(lost := s.lost + multiset{x}))
  }

  function Next(s: State, e: Event): Option<State> {
    match e
    case Accepted(x) => Some(s.(inHand := s.inHand + multiset{x}, accepted := s.accepted + multiset{x}))
    case Taken(t) => Some(Take(s, t))
    case Settled(x, c, ok) => Settle(s, x, c, ok)
  }

  function Exec(log: seq<Event>): Option<State> {
    if log == [] then Some(INITIAL)
    else
      var before := Exec(log[..|log| - 1]);
      if before.None? then None else Next(before.value, log[|log| - 1])
  }

  /** A step that raised with a trigger in hand. */
  predicate Raises(e: Event) {
    e.Settled? && !e.capacity.Unavailable? && !(e.capacity.Available? && e.capacity.capacityClass.Some? && e.registryOk)
  }

  predicate TenantOf(e: Event, t: Tenant) {
    match e
    case Accepted(x) => x.tenant == t
    case Taken(u) => u == t
    case Settled(x, _, _) => x.tenant == t
  }

  // ---- Conservation ------------------------------------------------------------

  function TriggersOf(runs: seq<DispatchedRun>): multiset<Trigger> {
    if runs == [] then multiset{} else TriggersOf(runs[..|runs| - 1]) + multiset{runs[|runs| - 1].trigger}
  }

  lemma RunAdds(runs: seq<DispatchedRun>, r: DispatchedRun)
    ensures TriggersOf(runs + [r]) == TriggersOf(runs) + multiset{r.trigger}
  {
    assert (runs + [r])[..|runs|] == runs;
  }

  /** Where copies of x are: its own tenant's queue, a dispatch in progress, a created run, or lost. */
  function Held(s: State, x: Trigger): nat {
    multiset(Get(s.queues, x.tenant))[x] + s.inHand[x] + TriggersOf(s.runs)[x] + s.lost[x]
  }

  ghost predicate Conserved(s: State) {
    forall x :: Held(s, x) == s.accepted[x]
  }

  /** The queue of t holds only triggers of t, in the order they were put there. */
  ghost predicate FifoAt(s: State, t: Tenant) {
    && Get(s.enqueued, t) == Get(s.taken, t) + Get(s.queues, t)
    && (forall i | 0 <= i < |Get(s.queues, t)| :: Get(s.queues, t)[i].tenant == t)
  }

  ghost predicate Fifo(s: State) {
    forall t :: FifoAt(s, t)
  }

  ghost predicate Inv(s: State) {
    Conserved(s) && Fifo(s)
  }

  lemma TakeConserves(s: State, t: Tenant)
    requires Inv(s)
    ensures Conserved(Take(s, t))
  {
    var q := Get(s.queues, t);
    if q != [] {
      assert q == [q[0]] + q[1..];
      forall x ensures Held(Take(s, t), x) == s.accepted[x] {
        assert Held(s, x) == s.accepted[x];
        assert FifoAt(s, t);
      }
    }
  }

  lemma EnqueueHolds(s: State, x: Trigger, y: Trigger)
    ensures Held(Enqueue(s, x), y) == Held(s, y) + multiset{x}[y]
  {
    var q := Get(s.queues, x.tenant);
    assert multiset(q + [x]) == multiset(q) + multiset{x};
  }

  lemma SettleHolds(s: State, x: Trigger, c: Capacity, ok: bool, y: Trigger)
    requires Settle(s, x, c, ok).Some?
    ensures Held(Settle(s, x, c, ok).value, y) == Held(s, y)
  {
    hide Enqueue, TriggersOf, Get;
    var dropped := s.(inHand := s.inHand - multiset{x});
    assert dropped.inHand[y] + multiset{x}[y] == s.inHand[y];
    if c.Unavailable? {
      EnqueueHolds(dropped, x, y);
    } else if c.Available? && c.capacityClass.Some? && ok {
      RunAdds(s.runs, DispatchedRun(x, c.capacityClass.value));
    } else {
      assert (s.lost + multiset{x})[y] == s.lost[y] + multiset{x}[y];
    }
  }

  lemma SettleConserves(s: State, x: Trigger, c: Capacity, ok: bool)
    requires Conserved(s) && Settle(s, x, c, ok).Some?
    ensures Conserved(Settle(s, x, c, ok).value)
  {
    hide Held;
    var s' := Settle(s, x, c, ok).value;
    forall y ensures Held(s', y) == s'.accepted[y] {
      assert Held(s, y) == s.accepted[y];
      SettleHolds(s, x, c, ok, y);
    }
  }

  lemma StepConserves(s: State, e: Event)
    requires Inv(s) && Next(s, e).Some?
    ensures Conserved(Next(s, e).value)
  {
    match e
    case Accepted(a) =>
      forall x ensures Held(Next(s, e).value, x) == Next(s, e).value.accepted[x] {
        assert Held(s, x) == s.accepted[x];
      }
    case Taken(t) => TakeConserves(s, t);
    case Settled(x, c, ok) => SettleConserves(s, x, c, ok);
  }

  lemma EnqueueKeepsFifo(s: State, x: Trigger, t: Tenant)
    requires FifoAt(s, t)
    ensures FifoAt(Enqueue(s, x), t)
  {
    if t == x.tenant {
      assert Get(s.taken, t) + (Get(s.queues, t) + [x]) == (Get(s.taken, t) + Get(s.queues, t)) + [x];
    }
  }

  lemma TakeKeepsFifo(s: State, u: Tenant, t: Tenant)
    requires FifoAt(s, t)
    ensures FifoAt(Take(s, u), t)
  {
    var q := Get(s.queues, t);
    if t == u && q != [] {
      assert Get(s.taken, t) + q == (Get(s.taken, t) + [q[0]]) + q[1..];
    }
  }

  lemma StepKeepsFifo(s: State, e: Event)
    requires Fifo(s) && Next(s, e).Some?
    ensures Fifo(Next(s, e).value)
  {
    hide Enqueue, Take;
    var s' := Next(s, e).value;
    forall t ensures FifoAt(s', t) {
      assert FifoAt(s, t);
      match e
      case Accepted(_) =>
      case Taken(u) => TakeKeepsFifo(s, u, t);
      case Settled(x, c, ok) =>
        var dropped := s.(inHand := s.inHand - multiset{x});
        assert FifoAt(dropped, t);
        EnqueueKeepsFifo(dropped, x, t);
    }
  }

  /** Nothing is dropped or duplicated, over any interleaving of webhooks and retries. */
  lemma {:induction false} TriggersAreConserved(log: seq<Event>)
    requires Exec(log).Some?
    ensures Inv(Exec(log).value)
  {
    if log != [] {
      TriggersAreConserved(log[..|log| - 1]);
      var s := Exec(log[..|log| - 1]).value;
      StepConserves(s, log[|log| - 1]);
      StepKeepsFifo(s, log[|log| - 1]);
    }
  }

  predicate RaisesWith(e: Event, x: Trigger) {
    Raises(e) && e.trigger == x
  }

  /** How often x came in, and how often a dispatch of it raised. */
  function Came(log: seq<Event>, x: Trigger): nat {
    if log == [] then 0 else Came(log[..|log| - 1], x) + if log[|log| - 1] == Accepted(x) then 1 else 0
  }

  function Raised(log: seq<Event>, x: Trigger): nat {
    if log == [] then 0 else Raised(log[..|log| - 1], x) + if RaisesWith(log[|log| - 1], x) then 1 else 0
  }

  lemma {:induction false} RaisedIff(log: seq<Event>, x: Trigger)
    ensures Raised(log, x) > 0 <==> exists i :: 0 <= i < |log| && RaisesWith(log[i], x)
  {
    if log != [] {
      var n := |log| - 1;
      RaisedIff(log[..n], x);
      forall i | 0 <= i < n ensures log[..n][i] == log[i] {
      }
      if i :| 0 <= i < |log[..n]| && RaisesWith(log[..n][i], x) {
        assert RaisesWith(log[i], x);
      }
    }
  }

  lemma CountStep(s: State, e: Event, x: Trigger)
    requires Next(s, e).Some?
    ensures var s' := Next(s, e).value;
            && s'.accepted[x] == s.accepted[x] + (if e == Accepted(x) then 1 else 0)
            && s'.lost[x] == s.lost[x] + (if RaisesWith(e, x) then 1 else 0)
  {
  }

  lemma {:induction false} CountsAgree(log: seq<Event>, x: Trigger)
    requires Exec(log).Some?
    ensures Exec(log).value.accepted[x] == Came(log, x) && Exec(log).value.lost[x] == Raised(log, x)
  {
    if log != [] {
      var n := |log| - 1;
      CountsAgree(log[..n], x);
      CountStep(Exec(log[..n]).value, log[n], x);
      hide Next, RaisesWith;
    }
  }

  /**
   * For a trigger that is not being dispatched: what came in is queued or runs, except for one copy per
   * dispatch that raised with it. So some is gone exactly if a dispatch raised with that trigger.
   */
  lemma LostIffRaised(log: seq<Event>, x: Trigger)
    requires Exec(log).Some? && x !in Exec(log).value.inHand
    ensures var s := Exec(log).value;
            var kept := multiset(Get(s.queues, x.tenant))[x] + TriggersOf(s.runs)[x];
            && kept + Raised(log, x) == Came(log, x)
            && (kept < Came(log, x) <==> exists i :: 0 <= i < |log| && RaisesWith(log[i], x))
  {
    TriggersAreConserved(log);
    CountsAgree(log, x);
    RaisedIff(log, x);
    hide Exec, Raised, Came, Fifo, RaisesWith, TriggersOf;
    assert Held(Exec(log).value, x) == Exec(log).value.accepted[x];
  }

  /** With no dispatch of it in progress and none raised, a trigger is one run or one slot of its own tenant's queue. */
  lemma QueuedNotDropped(log: seq<Event>, x: Trigger)
    requires Exec(log).Some? && x !in Exec(log).value.inHand && forall i | 0 <= i < |log| :: !RaisesWith(log[i], x)
    ensures var s := Exec(log).value;
            multiset(Get(s.queues, x.tenant))[x] + TriggersOf(s.runs)[x] == Came(log, x)
  {
    LostIffRaised(log, x);
    hide Exec, Raised, Came, RaisesWith, TriggersOf;
  }

  /** A dispatch that got capacity of a named class, and whose run was registered. */
  predicate Starts(e: Event) {
    e.Settled? && e.capacity.Available? && e.capacity.capacityClass.Some? && e.registryOk
  }

  function StartedIn(log: seq<Event>): seq<DispatchedRun> {
    if log == [] then []
    else
      var e := log[|log| - 1];
      StartedIn(log[..|log| - 1]) + if Starts(e) then [DispatchedRun(e.trigger, e.capacity.capacityClass.value)] else []
  }

  /** The runs are those of the dispatches that started one, in order, each on the class its own answer named. */
  lemma {:induction false} RunsAreStarted(log: seq<Event>)
    requires Exec(log).Some?
    ensures Exec(log).value.runs == StartedIn(log)
  {
    if log != [] {
      RunsAreStarted(log[..|log| - 1]);
      RunsStep(Exec(log[..|log| - 1]).value, log[|log| - 1]);
      hide Next;
    }
  }

  lemma RunsStep(s: State, e: Event)
    requires Next(s, e).Some?
    ensures Next(s, e).value.runs == s.runs + if Starts(e) then [DispatchedRun(e.trigger, e.capacity.capacityClass.value)] else []
  {
  }

  lemma Grow(log: seq<Event>, s: State, e: Event, x: Trigger) returns (longer: seq<Event>, s': State)
    requires Exec(log) == Some(s) && Next(s, e).Some?
    ensures longer == log + [e] && Exec(longer) == Some(s') == Next(s, e)
    ensures Came(longer, x) == Came(log, x) + if e == Accepted(x) then 1 else 0
  {
    longer, s' := log + [e], Next(s, e).value;
    hide Next;
    assert longer[..|log|] == log;
  }

  lemma AtFirst(x: Trigger)
    ensures Exec([]) == Some(INITIAL) && Came([], x) == 0
  {
  }

  /** A queued trigger is retried, the retry raises, and it is gone. */
  lemma RetryLosesTrigger(x: Trigger) returns (log: seq<Event>)
    ensures Exec(log).Some? && Came(log, x) == 1 && |log| == 4 && log[2] == Taken(x.tenant)
    ensures Get(Exec(log).value.queues, x.tenant) == [] && Exec(log).value.runs == []
  {
    hide Exec, Came;
    var l2, s2 := ComesAndWaits(x);
    var l3, s3 := Grow(l2, s2, Taken(x.tenant), x);
    var l4, s4 := Grow(l3, s3, Settled(x, CapacityRaised, true), x);
    log := l4;
  }

  lemma ComesAndWaits(x: Trigger) returns (log: seq<Event>, s: State)
    ensures Exec(log) == Some(s) && Came(log, x) == 1 && |log| == 2
    ensures Get(s.queues, x.tenant) == [x] && s.runs == []
  {
    AtFirst(x);
    hide Exec, Came;
    var l1, s1 := Grow([], INITIAL, Accepted(x), x);
    log, s := Grow(l1, s1, Settled(x, Unavailable(""), true), x);
  }

  /** What happens for one tenant is invisible to every other. */
  lemma TenantsAreSeparate(s: State, e: Event, t: Tenant)
    requires Next(s, e).Some? && !TenantOf(e, t)
    ensures Get(Next(s, e).value.queues, t) == Get(s.queues, t)
  {
  }

  /** A retry that finds no capacity goes to the back: the queue is rotated. */
  lemma RetryRotates(s: State, t: Tenant, reason: string)
    requires FifoAt(s, t) && Get(s.queues, t) != []
    ensures var q := Get(s.queues, t);
            var r := Settle(Take(s, t), q[0], Unavailable(reason), true);
            r.Some? && Get(r.value.queues, t) == q[1..] + [q[0]]
  {
    assert Get(s.queues, t)[0].tenant == t;
  }

  /** A deque per tenant. */
  class TenantTriggerQueue {
    var queues: map<Tenant, seq<Trigger>>

    constructor ()
      ensures queues == map[]
    {
      queues := map[];
    }

    method Push(t: Tenant, item: Trigger)
      modifies this
      ensures queues == old(queues)[t := Get(old(queues), t) + [item]]
    {
      if t !in queues {
        queues := queues[t := []];
      }
      queues := queues[t := queues[t] + [item]];
    }

    method Depth(t: Tenant) returns (n: nat)
      ensures n == |Get(queues, t)|
    {
      if t in queues {
        n := |queues[t]|;
      } else {
        n := 0;
      }
    }

    method RetryNext(t: Tenant) returns (r: Option<Trigger>)
      modifies this
      ensures r.None? <==> Get(old(queues), t) == []
      ensures r.None? ==> queues == old(queues)
      ensures r.Some? ==> r.value == Get(old(queues), t)[0] && queues == old(queues)[t := Get(old(queues), t)[1..]]
    {
      if t !in queues || queues[t] == [] {
        return None;
      }
      var q := queues[t];
      queues := queues[t := q[1..]];
      return Some(q[0]);
    }

    method AllTenantIds() returns (ids: set<Tenant>)
      ensures forall t :: t in ids <==> Get(queues, t) != []
    {
      ids := set t | t in queues && queues[t] != [];
    }
  }

  datatype DispatchOutcome = RunCreated(run: DispatchedRun) | Queued(depth: nat, commentPosted: bool)

  datatype Fault = CapacityFailed | NoClass | RegistryRefused | CommentFailed

  class JobDispatcher {
    const triggerQueue: TenantTriggerQueue
    var runs: seq<DispatchedRun>
    ghost var log: seq<Event>
    ghost var state: State

    ghost predicate Valid()
      reads this, triggerQueue
    {
      Exec(log) == Some(state) && state.queues == triggerQueue.queues && state.runs == runs && Inv(state)
    }

    constructor ()
      ensures Valid() && log == [] && fresh(triggerQueue)
    {
      triggerQueue := new TenantTriggerQueue();
      runs, log, state := [], [], INITIAL;
    }

    ghost method Note(e: Event)
      requires Exec(log) == Some(state) && Inv(state) && Next(state, e).Some?
      modifies this`log, this`state
      ensures log == old(log) + [e] && Some(state) == Next(old(state), e)
      ensures Exec(log) == Some(state) && Inv(state)
    {
      hide Conserved, Fifo, Next;
      assert (log + [e])[..|log|] == log;
      StepConserves(state, e);
      StepKeepsFifo(state, e);
      log, state := log + [e], Next(state, e).value;
    }

    lemma Oldest(t: Tenant)
      requires Valid()
      ensures Get(triggerQueue.queues, t) != [] ==> Get(triggerQueue.queues, t)[0].tenant == t
    {
      assert FifoAt(state, t);
    }

    /** An authenticated, resolved webhook: the trigger is now this thread's to dispatch. */
    method Accept(x: Trigger)
      requires Valid()
      modifies this`log, this`state
      ensures Valid() && log == old(log) + [Accepted(x)] && Some(state) == Next(old(state), Accepted(x))
    {
      Note(Accepted(x));
    }

    /** Capacity came back, or raised: create the run, or queue the trigger and comment on the issue. */
    method Dispatch(x: Trigger, capacity: Capacity) returns (r: Result<DispatchOutcome, Fault>)
      requires Valid() && x in state.inHand
      modifies this, triggerQueue
      ensures Valid() && exists ok :: log == old(log) + [Settled(x, capacity, ok)]
      ensures r.Success? && r.value.RunCreated? ==>
                && capacity.Available? && capacity.capacityClass.Some?
                && r.value.run == DispatchedRun(x, capacity.capacityClass.value) && runs == old(runs) + [r.value.run]
      ensures r == Failure(CapacityFailed) <==> capacity.CapacityRaised?
      ensures r == Failure(NoClass) <==> capacity == Available(None)
      ensures r == Failure(RegistryRefused) ==> capacity.Available? && capacity.capacityClass.Some?
      ensures r.Success? && r.value.Queued? ==>
                && Get(triggerQueue.queues, x.tenant) == Get(old(triggerQueue.queues), x.tenant) + [x]
                && r.value.depth == |Get(triggerQueue.queues, x.tenant)|
      ensures r.Success? || r.error.CommentFailed? ==> state.lost == old(state.lost)
      ensures capacity.Unavailable? ==> triggerQueue.queues == Enqueue(old(state), x).queues
      ensures !capacity.Unavailable? ==> triggerQueue.queues == old(triggerQueue.queues)
      ensures state.accepted == old(state.accepted)
      ensures capacity.Unavailable? <==> (r.Success? && r.value.Queued?) || (r.Failure? && r.error.CommentFailed?)
      ensures r.Failure? && !r.error.CommentFailed? ==> state.lost == old(state.lost) + multiset{x}
    {
      hide Inv, Exec, TriggersOf;
      var registryOk: bool := *;
      Note(Settled(x, capacity, registryOk));
      match capacity {
        case CapacityRaised =>
          return Failure(CapacityFailed);
        case Available(c) =>
          if c.None? {
              return Failure(NoClass);
          }
          if !registryOk {
              return Failure(RegistryRefused);
          }
          var run := DispatchedRun(x, c.value);
          runs := runs + [run];
          return Success(RunCreated(run));
        case Unavailable(_) =>
          triggerQueue.Push(x.tenant, x);
          var depth := triggerQueue.Depth(x.tenant);
          var commentRaises: bool, posted: bool := *, *;
          if commentRaises {
            return Failure(CommentFailed);
          }
          return Success(Queued(depth, posted));
      }
    }

    /** A webhook, once authenticated and resolved: its trigger is dispatched at once. */
    method HandleWebhook(x: Trigger, capacity: Capacity) returns (r: Result<DispatchOutcome, Fault>)
      requires Valid()
      modifies this, triggerQueue
      ensures Valid() && state.accepted == old(state.accepted) + multiset{x}
      ensures r.Success? && r.value.RunCreated? ==> runs == old(runs) + [r.value.run] && r.value.run.trigger == x
      ensures capacity.Unavailable? ==>
                Get(triggerQueue.queues, x.tenant) == Get(old(triggerQueue.queues), x.tenant) + [x]
      ensures !capacity.Unavailable? ==> triggerQueue.queues == old(triggerQueue.queues)
      ensures r.Failure? && !r.error.CommentFailed? ==> state.lost == old(state.lost) + multiset{x}
      ensures forall u :: u != x.tenant ==> Get(triggerQueue.queues, u) == Get(old(triggerQueue.queues), u)
    {
      hide Exec, Inv, Conserved, TriggersOf;
      Accept(x);
      r := Dispatch(x, capacity);
    }

    /** Pop the oldest queued trigger and dispatch it. A dispatch that raises loses it for good. */
    method RetryQueued(t: Tenant, capacity: Capacity) returns (r: Option<Result<DispatchOutcome, Fault>>)
      requires Valid()
      modifies this, triggerQueue
      ensures Valid()
      ensures r.None? <==> Get(old(triggerQueue.queues), t) == []
      ensures r.None? ==> triggerQueue.queues == old(triggerQueue.queues) && runs == old(runs)
      ensures r.Some? && capacity.Unavailable? ==>
                Get(triggerQueue.queues, t) == Get(old(triggerQueue.queues), t)[1..] + [Get(old(triggerQueue.queues), t)[0]]
      ensures r.Some? && r.value.Failure? && !r.value.error.CommentFailed? ==>
                && Get(triggerQueue.queues, t) == Get(old(triggerQueue.queues), t)[1..]
                && state.lost == old(state.lost) + multiset{Get(old(triggerQueue.queues), t)[0]}
      ensures forall u :: u != t ==> Get(triggerQueue.queues, u) == Get(old(triggerQueue.queues), u)
    {
      hide Exec, Inv, Conserved, TriggersOf, Settle;
      Oldest(t);
      var item := triggerQueue.RetryNext(t);
      Note(Taken(t));
      if item.None? {
        return None;
      }
      var outcome := Dispatch(item.value, capacity);
      r := Some(outcome);
    }
  }
}
