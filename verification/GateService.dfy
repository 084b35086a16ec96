/** The escalation tracker and the gates service, one public call at a time, over the machine of Gates. */
module GateService {
  import opened Common
  import opened BusinessCalendar
  import opened Gates

  datatype GateError = UnknownGate | AlreadyActioned | GateNotFound | NegativeGracePeriod

  class EscalationTracker {
    var gates: map<Id, Tracked>

    constructor ()
      ensures gates == map[]
    {
      gates := map[];
    }

    method OpenGate(id: Id, terms: Terms)
      modifies this
      ensures gates == old(gates)[id := Tracked(terms, false, false)]
    {
      gates := gates[id := Tracked(terms, false, false)];
    }

    method MarkActioned(id: Id) returns (r: Result<(), GateError>)
      modifies this
      ensures r == Failure(UnknownGate) <==> id !in old(gates)
      ensures r == Failure(AlreadyActioned) <==> id in old(gates) && old(gates)[id].actioned
      ensures r.Success? <==> id in old(gates) && !old(gates)[id].actioned
      ensures r.Failure? ==> gates == old(gates)
      ensures r.Success? ==> gates == old(gates)[id := old(gates)[id].(actioned := true)]
    {
      if id !in gates {
        return Failure(UnknownGate);
      }
      if gates[id].actioned {
        return Failure(AlreadyActioned);
      }
      gates := gates[id := gates[id].(actioned := true)];
      return Success(());
    }

    method CurrentAuthority(id: Id) returns (r: Result<Identity, GateError>)
      ensures r.Failure? <==> id !in gates
      ensures r.Success? ==> r.value == AuthorityOf(gates[id])
    {
      if id !in gates {
        return Failure(UnknownGate);
      }
      return Success(if gates[id].escalated then gates[id].terms.backup else gates[id].terms.defaultApprover);
    }
  }

  /** Nobody has acted on it, and it has not escalated. */
  predicate Waits(g: Tracked) {
    !g.actioned && !g.escalated
  }

  class GatesService {
    const norm: Identity -> Identity
    const tracker: EscalationTracker
    /** Handles of the gates still open. */
    var handles: map<Id, Terms>
    ghost var log: seq<Event>
    ghost var state: State
    ghost var sweeps: nat

    /** Between calls: a run of the machine, with nothing half done. */
    ghost predicate Valid()
      reads this, tracker
    {
      && Exec(norm, log) == Some(state) && Inv(norm, state)
      && state.gates == tracker.gates && state.open == handles.Keys
      && state.opening == {} && state.deciding == map[]
      && (forall w | w in state.sweeping :: w < sweeps)
      && (forall id | id in handles :: id in tracker.gates && handles[id] == tracker.gates[id].terms)
    }

    constructor (norm: Identity -> Identity)
      ensures Valid() && handles == map[] && log == [] && this.norm == norm && fresh(tracker)
      ensures tracker.gates == map[]
    {
      this.norm := norm;
      tracker := new EscalationTracker();
      handles, log, state, sweeps := map[], [], INITIAL, 0;
    }

    ghost method Note(e: Event)
      requires Exec(norm, log) == Some(state) && Inv(norm, state) && Next(norm, state, e).Some?
      modifies this`log, this`state
      ensures log == old(log) + [e] && Some(state) == Next(norm, old(state), e)
      ensures Exec(norm, log) == Some(state) && Inv(norm, state)
    {
      hide Inv, Next;
      ExecAppend(norm, log, e, state);
      StepKeepsInv(norm, state, e);
      log, state := log + [e], Next(norm, state, e).value;
    }

    method OpenGate(id: Id, terms: Terms)
      requires Valid() && id !in tracker.gates
      modifies this, tracker
      ensures Valid() && old(log) <= log
      ensures handles == old(handles)[id := terms]
      ensures tracker.gates == old(tracker.gates)[id := Tracked(terms, false, false)]
    {
      hide Inv, Exec;
      tracker.OpenGate(id, terms);
      Note(Track(id, terms));
      handles := handles[id := terms];
      Note(Register(id));
    }

    /** Cleared exactly when the rules allow it for the authority of the moment; and then the gate is gone for good. */
    method Decide(id: Id, actor: Actor, ownership: Option<seq<FileOwners>>) returns (r: Result<bool, GateError>)
      requires Valid()
      modifies this, tracker
      ensures Valid() && old(log) <= log
      ensures r.Failure? ==> r.error.GateNotFound?
      ensures r.Failure? <==> id !in old(tracker.gates) || old(tracker.gates)[id].actioned
      ensures r.Success? ==>
                var g := old(tracker.gates)[id];
                r.value <==> Cleared(norm, g.terms.kind, g.terms.trigger, actor, AuthorityOf(g), ownership)
      ensures r == Success(true) ==>
                handles == old(handles) - {id} && tracker.gates == old(tracker.gates)[id := old(tracker.gates)[id].(actioned := true)]
      ensures r != Success(true) ==> handles == old(handles) && tracker.gates == old(tracker.gates)
    {
      hide Inv, Exec, Cleared;
      HandleIffUnactioned(id);
      if id !in handles {
        return Failure(GateNotFound);
      }
      var handle := handles[id];
      var authority := tracker.CurrentAuthority(id);
      var cleared := Cleared(norm, handle.kind, handle.trigger, actor, authority.value, ownership);
      NoteDecision(id, actor, ownership);
      if cleared {
        var marked := tracker.MarkActioned(id);
        assert marked.Success?;
        handles := handles - {id};
      }
      return Success(cleared);
    }

    /** The steps of one decide() that nothing interrupts. */
    ghost method NoteDecision(id: Id, actor: Actor, ownership: Option<seq<FileOwners>>)
      requires Exec(norm, log) == Some(state) && Inv(norm, state) && state.deciding == map[]
      requires id in state.open && id in state.gates && !state.gates[id].actioned
      modifies this`log, this`state
      ensures Exec(norm, log) == Some(state) && Inv(norm, state) && old(log) <= log
      ensures state.deciding == map[] && state.opening == old(state.opening) && state.sweeping == old(state.sweeping)
      ensures var g := old(state.gates)[id];
              if Cleared(norm, g.terms.kind, g.terms.trigger, actor, AuthorityOf(g), ownership) then
                state.open == old(state.open) - {id} && state.gates == old(state.gates)[id := g.(actioned := true)]
              else state.open == old(state.open) && state.gates == old(state.gates)
    {
      hide Inv, Exec, Cleared;
      var g := state.gates[id];
      Note(FindHandle(0, id));
      Note(ReadAuthority(0));
      Note(Judge(0, actor, ownership));
      if Cleared(norm, g.terms.kind, g.terms.trigger, actor, AuthorityOf(g), ownership) {
        Note(RemoveHandle(0));
      }
    }

    lemma HandleIffUnactioned(id: Id)
      requires Valid()
      ensures id in handles <==> id in tracker.gates && !tracker.gates[id].actioned
    {
      OpenIffUnactioned(norm, log, id);
    }

    /** Escalates exactly the gates past their deadline; a negative grace period makes the sweep raise. */
    method CheckEscalations(now: Moment) returns (r: Result<set<Id>, GateError>)
      requires Valid()
      modifies this, tracker
      ensures Valid() && old(log) <= log && handles == old(handles)
      ensures r.Failure? <==> exists id :: id in old(tracker.gates) && Waits(old(tracker.gates)[id])
                                           && old(tracker.gates)[id].terms.businessDays < 0.0
      ensures r.Success? ==>
                forall id :: id in r.value <==>
                  && id in old(tracker.gates) && Waits(old(tracker.gates)[id])
                  && var terms := old(tracker.gates)[id].terms;
                     terms.businessDays >= 0.0 && IsSlaBreached(terms.openedAt, now, terms.businessDays, {})
      ensures r.Success? ==>
                && tracker.gates.Keys == old(tracker.gates).Keys
                && forall id | id in tracker.gates :: tracker.gates[id] == AfterSweep(old(tracker.gates)[id], id in r.value)
    {
      hide Inv, Exec, Breached, Next, Scanned, AfterSweep, IsSlaBreached;
      ghost var w := sweeps;
      var candidates := set id | id in tracker.gates && !tracker.gates[id].actioned && !tracker.gates[id].escalated;
      NoteSnapshot(w, now);
      sweeps := sweeps + 1;
      var escalated: set<Id> := {};
      ghost var before, all := tracker.gates, candidates;
      ScanStarts(before, all, now);
      while candidates != {}
        invariant Valid() && old(log) <= log && handles == old(handles)
        invariant w in state.sweeping && state.sweeping[w] == Sweep(now, candidates)
        invariant Scanned(before, tracker.gates, all, candidates, escalated, now)
        decreases |candidates|
      {
        var id :| id in candidates;
        NotYetScanned(before, tracker.gates, all, candidates, escalated, now, id);
        var gate := tracker.gates[id];
        ghost var sofar := tracker.gates;
        if gate.terms.businessDays < 0.0 {
          return Failure(NegativeGracePeriod);
        }
        var breached := EscalateIfBreached(w, id, now);
        ScanOne(before, sofar, all, candidates, escalated, now, id);
        candidates := candidates - {id};
        if breached {
          escalated := escalated + {id};
        }
      }
      ScanEnds(before, tracker.gates, all, escalated, now);
      SweptAre(before, all, escalated, now);
      return Success(escalated);
    }

    ghost method NoteSnapshot(w: nat, now: Moment)
      requires Exec(norm, log) == Some(state) && Inv(norm, state) && w !in state.sweeping
      modifies this`log, this`state
      ensures Exec(norm, log) == Some(state) && Inv(norm, state) && old(log) <= log
      ensures state == old(state).(sweeping := old(state).sweeping[w := Sweep(now, Candidates(old(state)))])
    {
      hide Inv, Exec;
      Note(Snapshot(w, now));
    }

    /** One candidate of a sweep: the lock is taken again, and the flags looked at once more. */
    method EscalateIfBreached(ghost w: nat, id: Id, now: Moment) returns (breached: bool)
      requires Valid() && w in state.sweeping && state.sweeping[w].now == now && id in state.sweeping[w].candidates
      requires id in tracker.gates && !tracker.gates[id].actioned && !tracker.gates[id].escalated
      requires tracker.gates[id].terms.businessDays >= 0.0
      modifies this`log, this`state, tracker
      ensures Valid() && old(log) <= log
      ensures breached <==> Breached(old(tracker.gates)[id], now)
      ensures tracker.gates == old(tracker.gates)[id := AfterSweep(old(tracker.gates)[id], breached)]
      ensures w in state.sweeping
      ensures state.sweeping[w] == Sweep(now, old(state.sweeping)[w].candidates - {id})
    {
      hide Inv, Exec, Breached, Next;
      NoteSweepStep(w, id);
      var gate := tracker.gates[id];
      breached := Breached(gate, now) && !gate.actioned && !gate.escalated;
      if breached {
        tracker.gates := tracker.gates[id := gate.(escalated := true)];
      }
    }

    ghost method NoteSweepStep(w: nat, id: Id)
      requires Exec(norm, log) == Some(state) && Inv(norm, state)
      requires w in state.sweeping && id in state.sweeping[w].candidates
      requires id in state.gates && !state.gates[id].actioned && !state.gates[id].escalated
      requires state.gates[id].terms.businessDays >= 0.0
      modifies this`log, this`state
      ensures Exec(norm, log) == Some(state) && Inv(norm, state) && old(log) <= log
      ensures state.open == old(state.open) && state.opening == old(state.opening) && state.deciding == old(state.deciding)
      ensures state.sweeping == old(state.sweeping)[
                w := Sweep(old(state.sweeping)[w].now, old(state.sweeping)[w].candidates - {id})]
      ensures state.gates == if Breached(old(state.gates)[id], old(state.sweeping)[w].now)
                             then old(state.gates)[id := old(state.gates)[id].(escalated := true)] else old(state.gates)
    {
      hide Inv, Exec, Breached;
      Note(EscalateOne(w, id));
    }
  }

  /** Where a sweep over the gates in all has got to. */
  ghost predicate Scanned(before: map<Id, Tracked>, gates: map<Id, Tracked>, all: set<Id>, rest: set<Id>, escalated: set<Id>,
                          now: Moment) {
    && rest <= all && escalated <= all - rest && all <= before.Keys == gates.Keys
    && (forall id | id in all - rest :: before[id].terms.businessDays >= 0.0 && (id in escalated <==> Breached(before[id], now)))
    && (forall id | id in before :: gates[id] == AfterSweep(before[id], id in escalated))
  }

  lemma ScanStarts(before: map<Id, Tracked>, all: set<Id>, now: Moment)
    requires all <= before.Keys
    ensures Scanned(before, before, all, all, {}, now)
  {
    hide Breached;
  }

  /** A gate still to look at is as it was. */
  lemma NotYetScanned(before: map<Id, Tracked>, gates: map<Id, Tracked>, all: set<Id>, rest: set<Id>, escalated: set<Id>,
                      now: Moment, id: Id)
    requires Scanned(before, gates, all, rest, escalated, now) && id in rest
    ensures id in all && id in before && id in gates && gates[id] == before[id]
  {
    hide Breached;
  }

  lemma ScanEnds(before: map<Id, Tracked>, gates: map<Id, Tracked>, all: set<Id>, escalated: set<Id>, now: Moment)
    requires Scanned(before, gates, all, {}, escalated, now)
    ensures all <= before.Keys == gates.Keys
    ensures forall id :: id in escalated <==> id in all && Breached(before[id], now)
    ensures forall id | id in all :: before[id].terms.businessDays >= 0.0
    ensures forall id | id in gates :: gates[id] == AfterSweep(before[id], id in escalated)
  {
    hide Breached;
  }

  /** The gates a sweep over all waiting ones escalates are those past their deadline. */
  lemma SweptAre(before: map<Id, Tracked>, all: set<Id>, escalated: set<Id>, now: Moment)
    requires forall id :: id in all <==> id in before && Waits(before[id])
    requires forall id :: id in escalated <==> id in all && Breached(before[id], now)
    ensures forall id :: id in escalated <==>
              && id in before && Waits(before[id])
              && var terms := before[id].terms;
                 terms.businessDays >= 0.0 && IsSlaBreached(terms.openedAt, now, terms.businessDays, {})
  {
    hide IsSlaBreached;
  }

  lemma ScanOne(before: map<Id, Tracked>, gates: map<Id, Tracked>, all: set<Id>, rest: set<Id>, escalated: set<Id>,
                now: Moment, id: Id)
    requires Scanned(before, gates, all, rest, escalated, now) && id in rest && before[id].terms.businessDays >= 0.0
    ensures var breached := Breached(before[id], now);
            Scanned(before, gates[id := AfterSweep(before[id], breached)], all, rest - {id},
                    if breached then escalated + {id} else escalated, now)
  {
    hide Breached;
  }

  function AfterSweep(g: Tracked, escalated: bool): Tracked {
    if escalated then g.(escalated := true) else g
  }
}
