/**
 * Approval gates: who may clear one, when it escalates, and what opening, deciding and sweeping keep
 * when they interleave. A step is one locked section or one dictionary access.
 */
module Gates {
  import opened Common
  import opened BusinessCalendar

  type Id = string
  type Identity = string

  // ---- May this actor clear this gate? ------------------------------------------

  datatype GateKind = PlanApproval | ChangeReview

  /** Who owns each touched file. */
  datatype FileOwners = FileOwners(path: string, owners: set<string>)

  datatype Actor = Actor(subject: Identity, handles: set<string>)

  datatype Reason = SelfApproval | NotTheAuthority | OwnershipUnchecked | OwnershipUnsatisfied(paths: seq<string>)

  function UnsatisfiedFiles(required: seq<FileOwners>, handles: set<string>): seq<string> {
    if required == [] then []
    else
      (if required[0].owners * handles == {} then [required[0].path] else []) + UnsatisfiedFiles(required[1..], handles)
  }

  /** Every rule the decision breaks. Identities are compared after normalization, whatever that is. */
  function Reasons(norm: Identity -> Identity, kind: GateKind, trigger: Identity, actor: Actor, approver: Identity,
                   ownership: Option<seq<FileOwners>>): seq<Reason> {
    (if norm(actor.subject) == norm(trigger) then [SelfApproval] else [])
    + (if norm(actor.subject) != norm(approver) then [NotTheAuthority] else [])
    + (if kind.PlanApproval? then []
       else if ownership.None? then [OwnershipUnchecked]
       else
         var unsatisfied := UnsatisfiedFiles(ownership.value, actor.handles);
         if unsatisfied != [] then [OwnershipUnsatisfied(unsatisfied)] else [])
  }

  predicate Cleared(norm: Identity -> Identity, kind: GateKind, trigger: Identity, actor: Actor, approver: Identity,
                    ownership: Option<seq<FileOwners>>) {
    Reasons(norm, kind, trigger, actor, approver, ownership) == []
  }

  /** The three rules, and nothing else, decide. */
  lemma ClearedIff(norm: Identity -> Identity, kind: GateKind, trigger: Identity, actor: Actor, approver: Identity,
                   ownership: Option<seq<FileOwners>>)
    ensures Cleared(norm, kind, trigger, actor, approver, ownership) <==>
              && norm(actor.subject) == norm(approver) != norm(trigger)
              && (kind.ChangeReview? ==>
                    ownership.Some? && forall f | f in ownership.value :: f.owners * actor.handles != {})
  {
    if ownership.Some? {
      NoneUnsatisfied(ownership.value, actor.handles);
    }
    hide UnsatisfiedFiles;
  }

  /** Each reason is given exactly for the rule it names, and the paths are those of the files nobody present owns. */
  lemma ReasonsAre(norm: Identity -> Identity, kind: GateKind, trigger: Identity, actor: Actor, approver: Identity,
                   ownership: Option<seq<FileOwners>>)
    ensures var rs := Reasons(norm, kind, trigger, actor, approver, ownership);
            && (SelfApproval in rs <==> norm(actor.subject) == norm(trigger))
            && (NotTheAuthority in rs <==> norm(actor.subject) != norm(approver))
            && (OwnershipUnchecked in rs <==> kind.ChangeReview? && ownership.None?)
            && forall paths :: OwnershipUnsatisfied(paths) in rs <==>
                 && kind.ChangeReview? && ownership.Some? && paths == UnsatisfiedFiles(ownership.value, actor.handles)
                 && exists f :: f in ownership.value && f.owners * actor.handles == {}
  {
    if ownership.Some? {
      NoneUnsatisfied(ownership.value, actor.handles);
    }
    hide UnsatisfiedFiles;
  }

  lemma {:induction false} NoneUnsatisfied(required: seq<FileOwners>, handles: set<string>)
    ensures UnsatisfiedFiles(required, handles) == [] <==> forall f | f in required :: f.owners * handles != {}
  {
    if required != [] {
      NoneUnsatisfied(required[1..], handles);
      assert required == [required[0]] + required[1..];
    }
  }

  lemma UnsatisfiedOf(f: FileOwners, rest: seq<FileOwners>, handles: set<string>)
    ensures UnsatisfiedFiles([f] + rest, handles)
         == (if f.owners * handles == {} then [f.path] else []) + UnsatisfiedFiles(rest, handles)
  {
    assert ([f] + rest)[1..] == rest;
  }

  lemma OneUnsatisfied(f: FileOwners, handles: set<string>)
    ensures UnsatisfiedFiles([f], handles) == if f.owners * handles == {} then [f.path] else []
  {
    assert UnsatisfiedFiles([], handles) == [];
  }

  lemma Assoc(x: seq<string>, y: seq<string>, z: seq<string>)
    ensures (x + y) + z == x + (y + z)
  {
  }

  /** The unowned files (OneUnsatisfied) are named one by one, in order: those of two lists are those of each. */
  lemma {:induction false} UnsatisfiedInOrder(a: seq<FileOwners>, b: seq<FileOwners>, handles: set<string>)
    ensures UnsatisfiedFiles(a + b, handles) == UnsatisfiedFiles(a, handles) + UnsatisfiedFiles(b, handles)
  {
    if a == [] {
      assert a + b == b;
    } else {
      hide UnsatisfiedFiles;
      var f, rest := a[0], a[1..];
      UnsatisfiedInOrder(rest, b, handles);
      UnsatisfiedOf(f, rest, handles);
      UnsatisfiedOf(f, rest + b, handles);
      assert a == [f] + rest && a + b == [f] + (rest + b);
      Assoc(if f.owners * handles == {} then [f.path] else [], UnsatisfiedFiles(rest, handles), UnsatisfiedFiles(b, handles));
    }
  }

  /** A gate nobody at all can clear: its authority is whoever triggered the run. */
  lemma UnclearableIff(norm: Identity -> Identity, trigger: Identity, approver: Identity)
    ensures (exists actor :: Cleared(norm, PlanApproval, trigger, actor, approver, None)) <==> norm(approver) != norm(trigger)
  {
    if norm(approver) != norm(trigger) {
      ClearedIff(norm, PlanApproval, trigger, Actor(approver, {}), approver, None);
    }
    forall actor | Cleared(norm, PlanApproval, trigger, actor, approver, None) ensures norm(approver) != norm(trigger) {
      ClearedIff(norm, PlanApproval, trigger, actor, approver, None);
    }
  }

  // ---- The interleaved machine ------------------------------------------------------

  /** What is fixed when a gate opens: in the tracker, and in the service's handle. */
  datatype Terms = Terms(
    openedAt: Moment, businessDays: real, backup: Identity, defaultApprover: Identity, kind: GateKind, trigger: Identity)

  datatype Tracked = Tracked(terms: Terms, escalated: bool, actioned: bool)

  /** One decide() call: it has the handle, then the authority, then has marked the gate. */
  datatype Decide = HasHandle(gate: Id) | HasAuthority(gate: Id, authority: Identity) | HasMarked(gate: Id)

  /** One sweep: its clock and the gates still to look at. */
  datatype Sweep = Sweep(now: Moment, candidates: set<Id>)

  /** A gate cleared: by whom, on what authority, and whether it had escalated by then. */
  datatype Clearance = Clearance(gate: Id, actor: Identity, authority: Identity, escalated: bool)

  datatype State = State(
    gates: map<Id, Tracked>,
    open: set<Id>,
    opening: set<Id>,
    deciding: map<nat, Decide>,
    sweeping: map<nat, Sweep>,
    escalations: seq<Id>,
    cleared: seq<Clearance>)

  const INITIAL := State(map[], {}, {}, map[], map[], [], [])

  datatype Event =
    | Track(gate: Id, terms: Terms)
    | Register(gate: Id)
    | FindHandle(call: nat, gate: Id)
    | ReadAuthority(call: nat)
    | Judge(call: nat, actor: Actor, ownership: Option<seq<FileOwners>>)
    | RemoveHandle(call: nat)
    | Snapshot(sweep: nat, now: Moment)
    | EscalateOne(sweep: nat, gate: Id)

  function AuthorityOf(g: Tracked): Identity {
    if g.escalated then g.terms.backup else g.terms.defaultApprover
  }

  function Candidates(s: State): set<Id> {
    set id | id in s.gates && !s.gates[id].actioned && !s.gates[id].escalated
  }

  predicate Breached(g: Tracked, now: Moment) {
    g.terms.businessDays >= 0.0 && IsSlaBreached(g.terms.openedAt, now, g.terms.businessDays, {})
  }

  /** Evaluate, and if cleared mark the gate under the lock; a gate already actioned is an error. */
  function Judged(norm: Identity -> Identity, s: State, e: Event): State
    requires e.Judge? && e.call in s.deciding && s.deciding[e.call].HasAuthority? && s.deciding[e.call].gate in s.gates
  {
    var c := s.deciding[e.call];
    var g := s.gates[c.gate];
    if Cleared(norm, g.terms.kind, g.terms.trigger, e.actor, c.authority, e.ownership) && !g.actioned then
      s.(gates := s.gates[c.gate := g.(actioned := true)],
         deciding := s.deciding[e.call := HasMarked(c.gate)],
         cleared := s.cleared + [Clearance(c.gate, e.actor.subject, c.authority, g.escalated)])
    else s.(deciding := s.deciding - {e.call})
  }

  /** The lock is taken again for each candidate whose deadline has passed. */
  function Escalated(s: State, w: nat, gate: Id): State
    requires w in s.sweeping && gate in s.gates
  {
    var s' := s.(sweeping := s.sweeping[w := s.sweeping[w].(candidates := s.sweeping[w].candidates - {gate})]);
    var g := s.gates[gate];
    if Breached(g, s.sweeping[w].now) && !g.actioned && !g.escalated then
      s'.(gates := s.gates[gate := g.(escalated := true)], escalations := s.escalations + [gate])
    else s'
  }

  /** None when the step is not possible. Gate ids are never used twice. */
  function Next(norm: Identity -> Identity, s: State, e: Event): Option<State> {
    match e
    case Track(id, terms) =>
      if id in s.gates then None
      else Some(s.(gates := s.gates[id := Tracked(terms, false, false)], opening := s.opening + {id}))
    case Register(id) =>
      if id in s.opening then Some(s.(opening := s.opening - {id}, open := s.open + {id})) else None
    case FindHandle(c, id) =>
      if id in s.open && c !in s.deciding then Some(s.(deciding := s.deciding[c := HasHandle(id)])) else None
    case ReadAuthority(c) =>
      if c in s.deciding && s.deciding[c].HasHandle? && s.deciding[c].gate in s.gates then
        var id := s.deciding[c].gate;
        Some(s.(deciding := s.deciding[c := HasAuthority(id, AuthorityOf(s.gates[id]))]))
      else None
    case Judge(c, _, _) =>
      if c in s.deciding && s.deciding[c].HasAuthority? && s.deciding[c].gate in s.gates then Some(Judged(norm, s, e))
      else None
    case RemoveHandle(c) =>
      if c in s.deciding && s.deciding[c].HasMarked? && s.deciding[c].gate in s.open then
        Some(s.(open := s.open - {s.deciding[c].gate}, deciding := s.deciding - {c}))
      else None
    case Snapshot(w, now) =>
      if w in s.sweeping then None else Some(s.(sweeping := s.sweeping[w := Sweep(now, Candidates(s))]))
    case EscalateOne(w, id) =>
      if w in s.sweeping && id in s.sweeping[w].candidates && id in s.gates && s.gates[id].terms.businessDays >= 0.0 then
        Some(Escalated(s, w, id))
      else None  // a negative grace period raises
  }

  function Exec(norm: Identity -> Identity, log: seq<Event>): Option<State> {
    if log == [] then Some(INITIAL)
    else
      var before := Exec(norm, log[..|log| - 1]);
      if before.None? then None else Next(norm, before.value, log[|log| - 1])
  }

  /** Said of the gate alone: it escalates at this very step, because nobody acted on it by its deadline. */
  predicate EscalatesNow(s: State, e: Event, id: Id) {
    && e.EscalateOne? && e.gate == id && id in s.gates && e.sweep in s.sweeping
    && !s.gates[id].actioned && !s.gates[id].escalated && s.gates[id].terms.businessDays >= 0.0
    && IsSlaBreached(s.gates[id].terms.openedAt, s.sweeping[e.sweep].now, s.gates[id].terms.businessDays, {})
  }

  /**
   * A step escalates exactly the gate that is due, and a sweep starts out with every gate that has neither been
   * acted on nor escalated.
   */
  lemma EscalatesIff(norm: Identity -> Identity, s: State, e: Event, id: Id)
    requires Next(norm, s, e).Some? && id in s.gates
    ensures var s' := Next(norm, s, e).value;
            && id in s'.gates
            && (s'.gates[id].escalated <==> s.gates[id].escalated || EscalatesNow(s, e, id))
            && s'.escalations == s.escalations + (if e.EscalateOne? && EscalatesNow(s, e, e.gate) then [e.gate] else [])
            && (e.Snapshot? ==>
                 && e.sweep in s'.sweeping && s'.sweeping[e.sweep].now == e.now
                 && (id in s'.sweeping[e.sweep].candidates <==> !s.gates[id].actioned && !s.gates[id].escalated))
  {
    hide Cleared;
  }

  // ---- What every interleaving keeps --------------------------------------------------

  function ClearancesOf(cleared: seq<Clearance>, id: Id): nat {
    if cleared == [] then 0
    else ClearancesOf(cleared[..|cleared| - 1], id) + if cleared[|cleared| - 1].gate == id then 1 else 0
  }

  predicate Marked(s: State, id: Id, c: nat) {
    c in s.deciding && s.deciding[c] == HasMarked(id)
  }

  /** One gate: its flags against the audit log, the clearances and the handle. */
  ghost predicate GateOk(s: State, id: Id) {
    && multiset(s.escalations)[id] == (if id in s.gates && s.gates[id].escalated then 1 else 0)
    && ClearancesOf(s.cleared, id) == (if id in s.gates && s.gates[id].actioned then 1 else 0)
    && (id in s.open || id in s.opening ==> id in s.gates)
    && !(id in s.open && id in s.opening)
    && (id in s.opening ==> !s.gates[id].actioned)
    && (id in s.gates && id !in s.open && id !in s.opening ==> s.gates[id].actioned)
    && (id in s.open && s.gates[id].actioned ==> exists c :: Marked(s, id, c))
  }

  /** One decide() call: its gate is known, and the authority it read is the default one or the backup after escalation. */
  ghost predicate CallOk(s: State, c: nat)
    requires c in s.deciding
  {
    var d := s.deciding[c];
    && d.gate in s.gates && d.gate !in s.opening
    && (d.HasAuthority? ==> d.authority == s.gates[d.gate].terms.defaultApprover
                            || (s.gates[d.gate].escalated && d.authority == s.gates[d.gate].terms.backup))
    && (d.HasMarked? ==> d.gate in s.open && s.gates[d.gate].actioned)
    && (d.HasMarked? ==> forall c' :: Marked(s, d.gate, c') ==> c' == c)
  }

  /** Who cleared it: never the trigger; the authority, which is the backup only if the gate had escalated. */
  ghost predicate ClearanceOk(norm: Identity -> Identity, s: State, k: Clearance) {
    && k.gate in s.gates
    && norm(k.actor) != norm(s.gates[k.gate].terms.trigger)
    && norm(k.actor) == norm(k.authority)
    && (k.authority == s.gates[k.gate].terms.defaultApprover
        || (k.escalated && k.authority == s.gates[k.gate].terms.backup))
    && (k.escalated == s.gates[k.gate].escalated)
  }

  ghost predicate Inv(norm: Identity -> Identity, s: State) {
    && (forall id :: GateOk(s, id))
    && (forall c | c in s.deciding :: CallOk(s, c))
    && (forall k | k in s.cleared :: ClearanceOk(norm, s, k))
  }

  lemma ClearanceAdds(cleared: seq<Clearance>, k: Clearance, id: Id)
    ensures ClearancesOf(cleared + [k], id) == ClearancesOf(cleared, id) + if k.gate == id then 1 else 0
  {
    assert (cleared + [k])[..|cleared|] == cleared;
  }

  /** A cleared gate is actioned, so its flags are settled. */
  lemma {:induction false} ClearedIsCounted(cleared: seq<Clearance>, k: Clearance)
    requires k in cleared
    ensures ClearancesOf(cleared, k.gate) >= 1
  {
    var n := |cleared| - 1;
    if cleared[n] != k {
      assert k in cleared[..n];
      ClearedIsCounted(cleared[..n], k);
    }
  }

  lemma GateKeptByJudge(norm: Identity -> Identity, s: State, e: Event, id: Id)
    requires Inv(norm, s) && e.Judge? && Next(norm, s, e).Some?
    ensures GateOk(Next(norm, s, e).value, id)
  {
    hide ClearanceOk, Cleared;
    var s' := Next(norm, s, e).value;
    assert GateOk(s, id) && CallOk(s, e.call);
    if |s'.cleared| > |s.cleared| {
      ClearanceAdds(s.cleared, s'.cleared[|s.cleared|], id);
      assert Marked(s', s.deciding[e.call].gate, e.call);
    }
    if id in s.open && s.gates[id].actioned {
      var c :| Marked(s, id, c);
      assert Marked(s', id, c);
    }
  }

  lemma GateKeptByEscalation(norm: Identity -> Identity, s: State, e: Event, id: Id)
    requires GateOk(s, id) && e.EscalateOne? && Next(norm, s, e).Some?
    ensures GateOk(Next(norm, s, e).value, id)
  {
    hide Breached, ClearancesOf;
    var s' := Next(norm, s, e).value;
    if id in s'.open && s'.gates[id].actioned {
      var c :| Marked(s, id, c);
      assert Marked(s', id, c);
    }
  }

  lemma GateKeptByRemoval(norm: Identity -> Identity, s: State, e: Event, id: Id)
    requires GateOk(s, id) && e.RemoveHandle? && Next(norm, s, e).Some? && CallOk(s, e.call)
    ensures GateOk(Next(norm, s, e).value, id)
  {
    hide ClearancesOf;
    var s' := Next(norm, s, e).value;
    if id in s'.open && s'.gates[id].actioned {
      var c :| Marked(s, id, c);
      assert Marked(s', id, c);
    }
  }

  lemma GateKeptByTrack(norm: Identity -> Identity, s: State, e: Event, id: Id)
    requires GateOk(s, id) && (e.Track? || e.Register? || e.Snapshot?) && Next(norm, s, e).Some?
    ensures GateOk(Next(norm, s, e).value, id)
  {
    hide ClearancesOf, Candidates;
    var s' := Next(norm, s, e).value;
    if id in s'.open && s'.gates[id].actioned {
      var c :| Marked(s, id, c);
      assert Marked(s', id, c);
    }
  }

  lemma GateKeptByRead(norm: Identity -> Identity, s: State, e: Event, id: Id)
    requires GateOk(s, id) && (e.FindHandle? || e.ReadAuthority?) && Next(norm, s, e).Some?
    ensures GateOk(Next(norm, s, e).value, id)
  {
    hide ClearancesOf, AuthorityOf;
    var s' := Next(norm, s, e).value;
    if id in s'.open && s'.gates[id].actioned {
      var c :| Marked(s, id, c);
      assert Marked(s', id, c);
    }
  }

  lemma GateKept(norm: Identity -> Identity, s: State, e: Event, id: Id)
    requires Inv(norm, s) && !e.Judge? && Next(norm, s, e).Some?
    ensures GateOk(Next(norm, s, e).value, id)
  {
    hide GateOk, CallOk, ClearanceOk, Cleared, Breached, Candidates;
    assert GateOk(s, id);
    match e
    case EscalateOne(_, _) => GateKeptByEscalation(norm, s, e, id);
    case RemoveHandle(c) =>
      assert CallOk(s, c);
      GateKeptByRemoval(norm, s, e, id);
    case FindHandle(_, _) => GateKeptByRead(norm, s, e, id);
    case ReadAuthority(_) => GateKeptByRead(norm, s, e, id);
    case _ => GateKeptByTrack(norm, s, e, id);
  }

  /** A call that was there before, at another call's step. */
  lemma OtherCallKept(norm: Identity -> Identity, s: State, e: Event, c: nat)
    requires Next(norm, s, e).Some? && c in s.deciding && c in Next(norm, s, e).value.deciding && CallOk(s, c)
    requires GateOk(s, s.deciding[c].gate)
    requires (e.Judge? || e.RemoveHandle?) ==> c != e.call && CallOk(s, e.call)
    requires e.ReadAuthority? ==> c != e.call
    ensures CallOk(Next(norm, s, e).value, c)
  {
    hide Cleared, Breached, ClearancesOf, Candidates, AuthorityOf;
    var s', d := Next(norm, s, e).value, s.deciding[c];
    assert s'.deciding[c] == d;
    if d.HasMarked? {
      forall c' | Marked(s', d.gate, c') ensures c' == c {
        assert Marked(s, d.gate, c');
      }
    }
  }

  /** A call at its own step. */
  lemma OwnCallKept(norm: Identity -> Identity, s: State, e: Event, c: nat)
    requires Next(norm, s, e).Some? && c in Next(norm, s, e).value.deciding
    requires if e.FindHandle? then c == e.call && GateOk(s, e.gate)
             else (e.ReadAuthority? || e.Judge?) && c == e.call && CallOk(s, c) && GateOk(s, s.deciding[c].gate)
    requires e.Judge? ==> forall c' | c' in s.deciding :: CallOk(s, c')
    ensures CallOk(Next(norm, s, e).value, c)
  {
    hide Cleared, Breached, ClearancesOf, Candidates;
    var s' := Next(norm, s, e).value;
    if e.Judge? {
      forall c' | c' in s.deciding && s.deciding[c'].HasMarked? ensures s.gates[s.deciding[c'].gate].actioned {
        assert CallOk(s, c');
      }
    }
  }

  lemma CallKept(norm: Identity -> Identity, s: State, e: Event, c: nat)
    requires Inv(norm, s) && Next(norm, s, e).Some? && c in Next(norm, s, e).value.deciding
    ensures CallOk(Next(norm, s, e).value, c)
  {
    hide GateOk, CallOk, ClearanceOk, Cleared, Breached, Candidates;
    assert GateOk(s, Next(norm, s, e).value.deciding[c].gate);
    if e.Judge? || e.RemoveHandle? {
      assert CallOk(s, e.call);
    }
    if c in s.deciding {
      assert CallOk(s, c);
    }
    if (e.FindHandle? || e.ReadAuthority? || e.Judge?) && c == e.call {
      OwnCallKept(norm, s, e, c);
    } else {
      OtherCallKept(norm, s, e, c);
    }
  }

  lemma OldClearanceKept(norm: Identity -> Identity, s: State, e: Event, k: Clearance)
    requires Inv(norm, s) && Next(norm, s, e).Some? && k in s.cleared
    ensures ClearanceOk(norm, Next(norm, s, e).value, k)
  {
    assert ClearanceOk(norm, s, k);
    ClearedIsCounted(s.cleared, k);
    assert GateOk(s, k.gate);
    hide Cleared, Breached, CallOk, ClearancesOf, Inv, GateOk;
  }

  lemma NewClearanceOk(norm: Identity -> Identity, s: State, e: Event, k: Clearance)
    requires Inv(norm, s) && Next(norm, s, e).Some? && k in Next(norm, s, e).value.cleared && k !in s.cleared
    ensures ClearanceOk(norm, Next(norm, s, e).value, k)
  {
    assert e.Judge?;
    assert CallOk(s, e.call);
    var g := s.gates[s.deciding[e.call].gate];
    ClearedIff(norm, g.terms.kind, g.terms.trigger, e.actor, s.deciding[e.call].authority, e.ownership);
    hide Inv, GateOk, Cleared, CallOk;
  }

  lemma StepKeepsInv(norm: Identity -> Identity, s: State, e: Event)
    requires Inv(norm, s) && Next(norm, s, e).Some?
    ensures Inv(norm, Next(norm, s, e).value)
  {
    var s' := Next(norm, s, e).value;
    hide Next, GateOk, CallOk, ClearanceOk;
    forall id ensures GateOk(s', id) {
      if e.Judge? {
        GateKeptByJudge(norm, s, e, id);
      } else {
        GateKept(norm, s, e, id);
      }
    }
    forall c | c in s'.deciding ensures CallOk(s', c) {
      CallKept(norm, s, e, c);
    }
    forall k | k in s'.cleared ensures ClearanceOk(norm, s', k) {
      if k in s.cleared {
        OldClearanceKept(norm, s, e, k);
      } else {
        NewClearanceOk(norm, s, e, k);
      }
    }
  }

  lemma {:induction false} RunKeepsInv(norm: Identity -> Identity, log: seq<Event>)
    requires Exec(norm, log).Some?
    ensures Inv(norm, Exec(norm, log).value)
  {
    if log != [] {
      RunKeepsInv(norm, log[..|log| - 1]);
      StepKeepsInv(norm, Exec(norm, log[..|log| - 1]).value, log[|log| - 1]);
    }
  }

  // ---- Main results --------------------------------------------------------------------

  /** However openings, decisions and sweeps interleave, a gate escalates at most once and clears at most once. */
  lemma OnceOnly(norm: Identity -> Identity, log: seq<Event>, id: Id)
    requires Exec(norm, log).Some?
    ensures multiset(Exec(norm, log).value.escalations)[id] <= 1
    ensures ClearancesOf(Exec(norm, log).value.cleared, id) <= 1
  {
    RunKeepsInv(norm, log);
    assert GateOk(Exec(norm, log).value, id);
  }

  /** Once a gate is actioned nothing about it changes any more: it never escalates afterwards. */
  lemma ActionedIsFinal(norm: Identity -> Identity, s: State, e: Event, id: Id)
    requires Inv(norm, s) && Next(norm, s, e).Some? && id in s.gates && s.gates[id].actioned
    ensures id in Next(norm, s, e).value.gates && Next(norm, s, e).value.gates[id] == s.gates[id]
    ensures multiset(Next(norm, s, e).value.escalations)[id] == multiset(s.escalations)[id]
  {
  }

  /** Whoever cleared a gate did not trigger the run, and held the default or, after escalation, the backup authority. */
  lemma ClearedByTheRightActor(norm: Identity -> Identity, log: seq<Event>, k: Clearance)
    requires Exec(norm, log).Some? && k in Exec(norm, log).value.cleared
    ensures var s := Exec(norm, log).value;
            && k.gate in s.gates
            && var terms := s.gates[k.gate].terms;
            && norm(k.actor) != norm(terms.trigger)
            && (!k.escalated ==> norm(k.actor) == norm(terms.defaultApprover))
            && (k.escalated ==> norm(k.actor) in {norm(terms.defaultApprover), norm(terms.backup)})
  {
    RunKeepsInv(norm, log);
    assert ClearanceOk(norm, Exec(norm, log).value, k);
  }

  /** With no call in progress, the service holds a gate open exactly when the tracker has it unactioned. */
  lemma OpenIffUnactioned(norm: Identity -> Identity, log: seq<Event>, id: Id)
    requires Exec(norm, log).Some?
    requires Exec(norm, log).value.opening == {} && Exec(norm, log).value.deciding == map[]
    ensures var s := Exec(norm, log).value;
            id in s.open <==> id in s.gates && !s.gates[id].actioned
  {
    RunKeepsInv(norm, log);
    assert GateOk(Exec(norm, log).value, id);
  }

  // ---- Escalation during a decision --------------------------------------------------

  /** The state after the first n events. */
  function At(norm: Identity -> Identity, log: seq<Event>, n: nat): State
    requires Exec(norm, log).Some? && n <= |log|
  {
    PrefixRuns(norm, log, n);
    Exec(norm, log[..n]).value
  }

  lemma {:induction false} PrefixRuns(norm: Identity -> Identity, log: seq<Event>, n: nat)
    requires Exec(norm, log).Some? && n <= |log|
    ensures Exec(norm, log[..n]).Some?
    decreases |log|
  {
    if n == |log| {
      assert log[..n] == log;
    } else {
      PrefixRuns(norm, log[..|log| - 1], n);
      assert log[..|log| - 1][..n] == log[..n];
    }
  }

  lemma StepAt(norm: Identity -> Identity, log: seq<Event>, n: nat)
    requires Exec(norm, log).Some? && n < |log|
    ensures Next(norm, At(norm, log, n), log[n]) == Some(At(norm, log, n + 1))
    ensures Inv(norm, At(norm, log, n)) && Inv(norm, At(norm, log, n + 1))
  {
    PrefixRuns(norm, log, n);
    PrefixRuns(norm, log, n + 1);
    RunKeepsInv(norm, log[..n]);
    RunKeepsInv(norm, log[..n + 1]);
    assert log[..n + 1][..n] == log[..n];
  }

  predicate IsEscalated(s: State, id: Id) {
    id in s.gates && s.gates[id].escalated
  }

  /** The escalation of a gate takes effect with event m. */
  predicate EscalatesAt(norm: Identity -> Identity, log: seq<Event>, m: nat, id: Id)
    requires Exec(norm, log).Some?
  {
    && m < |log| && log[m].EscalateOne? && log[m].gate == id
    && !IsEscalated(At(norm, log, m), id) && IsEscalated(At(norm, log, m + 1), id)
  }

  /** A step of this decide() call. */
  predicate OfCall(e: Event, call: nat) {
    match e
    case FindHandle(c, _) => c == call
    case ReadAuthority(c) => c == call
    case Judge(c, _, _) => c == call
    case RemoveHandle(c) => c == call
    case _ => false
  }

  /** A decide() call read the authority at r, and at j, as its next step, cleared its gate. */
  predicate ClearsAt(norm: Identity -> Identity, log: seq<Event>, r: nat, j: nat)
    requires Exec(norm, log).Some?
  {
    && r < j < |log| && log[j].Judge? && log[r] == ReadAuthority(log[j].call)
    && (forall m | r < m < j :: !OfCall(log[m], log[j].call))
    && |At(norm, log, j + 1).cleared| > |At(norm, log, j).cleared|
  }

  function ClearanceAt(norm: Identity -> Identity, log: seq<Event>, r: nat, j: nat): Clearance
    requires Exec(norm, log).Some? && ClearsAt(norm, log, r, j)
  {
    At(norm, log, j + 1).cleared[|At(norm, log, j).cleared|]
  }

  /** A gate's terms never change, and its escalation is never taken back. */
  lemma GateStays(norm: Identity -> Identity, s: State, e: Event, id: Id)
    requires Inv(norm, s) && Next(norm, s, e).Some? && id in s.gates
    ensures var s' := Next(norm, s, e).value;
            && id in s'.gates && s'.gates[id].terms == s.gates[id].terms
            && (s.gates[id].escalated ==> s'.gates[id].escalated)
            && (!s.gates[id].escalated && s'.gates[id].escalated ==> e.EscalateOne? && e.gate == id)
  {
  }

  lemma {:induction false} EscalatedBetween(norm: Identity -> Identity, log: seq<Event>, r: nat, j: nat, id: Id)
    requires Exec(norm, log).Some? && r <= j <= |log| && id in At(norm, log, r).gates
    ensures id in At(norm, log, j).gates && At(norm, log, j).gates[id].terms == At(norm, log, r).gates[id].terms
    ensures IsEscalated(At(norm, log, r), id) ==> IsEscalated(At(norm, log, j), id)
    ensures (exists m :: r <= m < j && EscalatesAt(norm, log, m, id))
       <==> !IsEscalated(At(norm, log, r), id) && IsEscalated(At(norm, log, j), id)
    decreases j
  {
    hide Exec, Inv, Next, At;
    if r < j {
      EscalatedBetween(norm, log, r, j - 1, id);
      StepAt(norm, log, j - 1);
      GateStays(norm, At(norm, log, j - 1), log[j - 1], id);
      if EscalatesAt(norm, log, j - 1, id) {
        assert !(exists m :: r <= m < j - 1 && EscalatesAt(norm, log, m, id));
      }
      if m :| r <= m < j && EscalatesAt(norm, log, m, id) {
        assert m == j - 1 || IsEscalated(At(norm, log, j - 1), id);
      }
    }
  }

  /** A call that takes no step keeps the authority it read. */
  lemma {:induction false} AuthorityKept(norm: Identity -> Identity, log: seq<Event>, r: nat, j: nat, c: nat)
    requires Exec(norm, log).Some? && r <= j <= |log| && c in At(norm, log, r).deciding
    requires forall m | r <= m < j :: !OfCall(log[m], c)
    ensures c in At(norm, log, j).deciding && At(norm, log, j).deciding[c] == At(norm, log, r).deciding[c]
    decreases j
  {
    hide Exec, Inv, Next, At;
    if r < j {
      AuthorityKept(norm, log, r, j - 1, c);
      StepAt(norm, log, j - 1);
      OtherCalls(norm, At(norm, log, j - 1), log[j - 1], c);
    }
  }

  lemma OtherCalls(norm: Identity -> Identity, s: State, e: Event, c: nat)
    requires Next(norm, s, e).Some? && c in s.deciding && !OfCall(e, c)
    ensures c in Next(norm, s, e).value.deciding && Next(norm, s, e).value.deciding[c] == s.deciding[c]
  {
  }

  /** What reading the authority and clearing do, at the two ends. */
  lemma ReadAndClear(norm: Identity -> Identity, log: seq<Event>, r: nat, j: nat)
    requires Exec(norm, log).Some? && ClearsAt(norm, log, r, j)
    ensures var k, g := ClearanceAt(norm, log, r, j), At(norm, log, r).gates;
            && k.gate in g && k.authority == AuthorityOf(g[k.gate]) && norm(k.actor) == norm(k.authority)
            && k.gate in At(norm, log, j).gates && k.escalated == At(norm, log, j).gates[k.gate].escalated
  {
    hide Exec, Inv, Cleared, CallOk;
    var c := log[j].call;
    StepAt(norm, log, r);
    StepAt(norm, log, j);
    AuthorityKept(norm, log, r + 1, j, c);
    var s := At(norm, log, j);
    var g := s.gates[s.deciding[c].gate];
    ClearedIff(norm, g.terms.kind, g.terms.trigger, log[j].actor, s.deciding[c].authority, log[j].ownership);
    hide Cleared, Inv, Exec;
  }

  /**
   * An escalated gate is cleared by somebody other than its backup exactly if the escalation took
   * effect between that decision's reading of the authority and its judgement. (With a backup who is
   * also the default approver there is nothing to tell apart.)
   */
  lemma ClearedAroundEscalationIff(norm: Identity -> Identity, log: seq<Event>, r: nat, j: nat)
    requires Exec(norm, log).Some? && ClearsAt(norm, log, r, j)
    ensures ClearanceAt(norm, log, r, j).gate in At(norm, log, r).gates
    ensures var k := ClearanceAt(norm, log, r, j);
            var terms := At(norm, log, r).gates[k.gate].terms;
            norm(terms.defaultApprover) != norm(terms.backup) ==>
              (k.escalated && norm(k.actor) != norm(terms.backup)
               <==> exists m :: r <= m < j && EscalatesAt(norm, log, m, k.gate))
  {
    hide Exec, Next, Inv, At, ClearsAt, ClearanceAt;
    ReadAndClear(norm, log, r, j);
    var k := ClearanceAt(norm, log, r, j);
    ClearsInOrder(norm, log, r, j);
    EscalatedBetween(norm, log, r, j, k.gate);
  }

  lemma ClearsInOrder(norm: Identity -> Identity, log: seq<Event>, r: nat, j: nat)
    requires Exec(norm, log).Some? && ClearsAt(norm, log, r, j)
    ensures r < j < |log|
  {
  }

  // Every clearance comes from such a decision.

  /** When this call read the authority it holds. */
  lemma {:induction false} ReadOf(norm: Identity -> Identity, log: seq<Event>, n: nat, c: nat) returns (r: nat)
    requires Exec(norm, log).Some? && n <= |log| && c in At(norm, log, n).deciding && At(norm, log, n).deciding[c].HasAuthority?
    ensures r < n && log[r] == ReadAuthority(c) && forall m | r < m < n :: !OfCall(log[m], c)
    decreases n
  {
    hide Exec, Inv, Next, At;
    NothingAtFirst(norm, log);
    StepAt(norm, log, n - 1);
    var s, e := At(norm, log, n - 1), log[n - 1];
    if OfCall(e, c) {
      OwnStep(norm, s, e, c);
      r := n - 1;
    } else {
      OtherCallsBack(norm, s, e, c);
      r := ReadOf(norm, log, n - 1, c);
    }
  }

  lemma NothingAtFirst(norm: Identity -> Identity, log: seq<Event>)
    requires Exec(norm, log).Some?
    ensures At(norm, log, 0) == INITIAL
  {
    assert log[..0] == [];
  }

  lemma OwnStep(norm: Identity -> Identity, s: State, e: Event, c: nat)
    requires Next(norm, s, e).Some? && OfCall(e, c)
    requires c in Next(norm, s, e).value.deciding && Next(norm, s, e).value.deciding[c].HasAuthority?
    ensures e == ReadAuthority(c)
  {
  }

  lemma OtherCallsBack(norm: Identity -> Identity, s: State, e: Event, c: nat)
    requires Next(norm, s, e).Some? && !OfCall(e, c) && c in Next(norm, s, e).value.deciding
    ensures c in s.deciding && s.deciding[c] == Next(norm, s, e).value.deciding[c]
  {
  }

  /** Where clearance x of a run came from. */
  lemma {:induction false} ClearanceComesFrom(norm: Identity -> Identity, log: seq<Event>, n: nat, x: nat) returns (r: nat, j: nat)
    requires Exec(norm, log).Some? && n <= |log| && x < |At(norm, log, n).cleared|
    ensures j < n && ClearsAt(norm, log, r, j) && |At(norm, log, j).cleared| == x
    ensures ClearanceAt(norm, log, r, j) == At(norm, log, n).cleared[x]
    decreases n
  {
    hide Exec, Inv, Next, At;
    NothingAtFirst(norm, log);
    StepAt(norm, log, n - 1);
    var s := At(norm, log, n - 1);
    ClearedGrows(norm, s, log[n - 1]);
    if x < |s.cleared| {
      r, j := ClearanceComesFrom(norm, log, n - 1, x);
    } else {
      j := n - 1;
      r := ReadOf(norm, log, j, log[j].call);
    }
  }

  lemma ClearedGrows(norm: Identity -> Identity, s: State, e: Event)
    requires Next(norm, s, e).Some?
    ensures var s' := Next(norm, s, e).value;
            && s.cleared <= s'.cleared && |s'.cleared| <= |s.cleared| + 1
            && (|s'.cleared| > |s.cleared| ==> e.Judge? && e.call in s.deciding && s.deciding[e.call].HasAuthority?)
  {
    hide Cleared;
  }

  /** The default approver may still clear a gate that escalated while the decision was being taken. */
  lemma EscalationRace(norm: Identity -> Identity, terms: Terms, now: Moment)
    requires terms.kind.PlanApproval? && norm(terms.defaultApprover) != norm(terms.trigger)
    requires norm(terms.backup) != norm(terms.defaultApprover) && Breached(Tracked(terms, false, false), now)
    ensures exists log, k ::
              && Exec(norm, log).Some? && k in Exec(norm, log).value.cleared
              && k.escalated && norm(k.actor) != norm(terms.backup)
  {
    hide Exec;
    var actor := Actor(terms.defaultApprover, {});
    var l4, s4 := UpToAuthority(norm, terms);
    var s5 := Grow(norm, l4, s4, Snapshot(0, now));
    var l5 := l4 + [Snapshot(0, now)];
    assert "g" in Candidates(s4);
    var s6 := Grow(norm, l5, s5, EscalateOne(0, "g"));
    var l6 := l5 + [EscalateOne(0, "g")];
    ClearedIff(norm, PlanApproval, terms.trigger, actor, terms.defaultApprover, None);
    var s7 := Grow(norm, l6, s6, Judge(0, actor, None));
    var k := Clearance("g", terms.defaultApprover, terms.defaultApprover, true);
    assert s7.cleared == [] + [k];
    assert k in s7.cleared;
    assert Exec(norm, l6 + [Judge(0, actor, None)]) == Some(s7);
  }

  /** A gate opened, and a decision on it that has read the authority. */
  lemma UpToAuthority(norm: Identity -> Identity, terms: Terms) returns (log: seq<Event>, s: State)
    ensures Exec(norm, log) == Some(s)
    ensures "g" in s.gates && s.gates["g"] == Tracked(terms, false, false)
    ensures 0 in s.deciding && s.deciding[0] == HasAuthority("g", terms.defaultApprover)
    ensures s.sweeping == map[] && s.cleared == []
  {
    assert Exec(norm, []) == Some(INITIAL);
    hide Exec;
    var s1 := Grow(norm, [], INITIAL, Track("g", terms));
    var l1 := [] + [Track("g", terms)];
    var s2 := Grow(norm, l1, s1, Register("g"));
    var l2 := l1 + [Register("g")];
    var s3 := Grow(norm, l2, s2, FindHandle(0, "g"));
    var l3 := l2 + [FindHandle(0, "g")];
    var s4 := Grow(norm, l3, s3, ReadAuthority(0));
    log, s := l3 + [ReadAuthority(0)], s4;
  }

  /** One more step of a run. */
  lemma Grow(norm: Identity -> Identity, log: seq<Event>, s: State, e: Event) returns (s': State)
    requires Exec(norm, log) == Some(s) && Next(norm, s, e).Some?
    ensures Exec(norm, log + [e]) == Some(s') == Next(norm, s, e)
  {
    ExecAppend(norm, log, e, s);
    s' := Next(norm, s, e).value;
  }

  lemma ExecAppend(norm: Identity -> Identity, log: seq<Event>, e: Event, s: State)
    requires Exec(norm, log) == Some(s)
    ensures Exec(norm, log + [e]) == Next(norm, s, e)
  {
    assert (log + [e])[..|log|] == log;
  }
}
