/**
 * The per-tenant rate limiter: a window opens at a tenant's first call and admits up to limit calls
 * (always at least the one that opens it) until windowSeconds have passed.
 */
module RateLimiting {
  import opened Common

  type Tenant = string

  datatype Window = Window(startedAt: real, count: int)

  type Windows = map<Tenant, Window>

  datatype Entry = Entry(tenant: Tenant, now: real, allowed: bool)

  /** int(): towards zero. */
  function Truncate(x: real): int {
    if x >= 0.0 then x.Floor else -((-x).Floor)
  }

  /** Does a call at this moment open a window? */
  predicate Opens(windows: Windows, span: real, t: Tenant, now: real) {
    t !in windows || now - windows[t].startedAt >= span
  }

  predicate Allows(windows: Windows, limit: int, span: real, t: Tenant, now: real) {
    Opens(windows, span, t, now) || windows[t].count < limit
  }

  function After(windows: Windows, limit: int, span: real, t: Tenant, now: real): Windows {
    if Opens(windows, span, t, now) then windows[t := Window(now, 1)]
    else if windows[t].count < limit then windows[t := windows[t].(count := windows[t].count + 1)]
    else windows
  }

  function RetryAfter(w: Window, span: real, now: real): int {
    var r := Truncate(span - (now - w.startedAt)) + 1;
    if r > 0 then r else 0
  }

  function WindowsAfter(limit: int, span: real, log: seq<Entry>): Windows {
    if log == [] then map[]
    else
      var e := log[|log| - 1];
      After(WindowsAfter(limit, span, log[..|log| - 1]), limit, span, e.tenant, e.now)
  }

  /** Any run of the limiter on a clock that never goes back. */
  predicate Run(limit: int, span: real, log: seq<Entry>) {
    log == [] || (
      var front, e := log[..|log| - 1], log[|log| - 1];
      && Run(limit, span, front)
      && (front != [] ==> front[|front| - 1].now <= e.now)
      && e.allowed == Allows(WindowsAfter(limit, span, front), limit, span, e.tenant, e.now))
  }

  predicate Inside(now: real, from: real, span: real) {
    from <= now < from + span
  }

  /** Accepted calls of t in [from, from + span). */
  function Accepted(log: seq<Entry>, t: Tenant, from: real, span: real): nat {
    if log == [] then 0
    else
      var e := log[|log| - 1];
      Accepted(log[..|log| - 1], t, from, span) + if e.tenant == t && e.allowed && Inside(e.now, from, span) then 1 else 0
  }

  // ---- How many calls an interval can hold ----------------------------------------

  /** Those of them that belong to the window t is in now. */
  function InWindow(limit: int, span: real, log: seq<Entry>, t: Tenant, from: real): nat {
    if log == [] then 0
    else
      var front, e := log[..|log| - 1], log[|log| - 1];
      var one := if e.allowed && Inside(e.now, from, span) then 1 else 0;
      if e.tenant != t then InWindow(limit, span, front, t, from)
      else if Opens(WindowsAfter(limit, span, front), span, t, e.now) then one
      else InWindow(limit, span, front, t, from) + one
  }

  function Capacity(limit: int): (c: nat)
    ensures c >= 1
  {
    if limit >= 1 then limit else 1
  }

  /** What the current window and the accepted calls look like, for an interval starting anywhere. */
  ghost predicate Account(limit: int, span: real, log: seq<Entry>, t: Tenant, from: real) {
    var windows := WindowsAfter(limit, span, log);
    var inside, all := InWindow(limit, span, log, t, from), Accepted(log, t, from, span);
    (log != [] && log[|log| - 1].now < from ==> all == 0) &&
    if t !in windows then all == 0 && inside == 0
    else
      var w := windows[t];
      && inside <= all
      && 1 <= w.count <= Capacity(limit)
      && inside <= w.count
      && all - inside <= 2 * Capacity(limit) - 1
      && (log != [] ==> w.startedAt <= log[|log| - 1].now)
      && (w.startedAt >= from + span ==> inside == 0)
      && (w.startedAt < from + span ==> all - inside <= Capacity(limit) - 1)
      && (w.startedAt < from ==> inside <= w.count - 1 && all == inside)
  }

  lemma {:induction false} AccountKept(limit: int, span: real, log: seq<Entry>, t: Tenant, from: real)
    requires Run(limit, span, log) && span > 0.0
    ensures Account(limit, span, log, t, from)
  {
    if log != [] {
      AccountKept(limit, span, log[..|log| - 1], t, from);
    }
  }

  /**
   * Any stretch of windowSeconds, wherever it starts, holds at most 2 * limit - 1 accepted calls of a
   * tenant (1 when limit is not positive).
   */
  lemma AtMostTwiceTheLimitLessOne(limit: int, span: real, log: seq<Entry>, t: Tenant, from: real)
    requires Run(limit, span, log)
    ensures Accepted(log, t, from, span) <= 2 * Capacity(limit) - 1
  {
    if span > 0.0 {
      AccountKept(limit, span, log, t, from);
    } else {
      EmptyInterval(log, t, from, span);
    }
  }

  lemma {:induction false} EmptyInterval(log: seq<Entry>, t: Tenant, from: real, span: real)
    requires span <= 0.0
    ensures Accepted(log, t, from, span) == 0
  {
    if log != [] {
      EmptyInterval(log[..|log| - 1], t, from, span);
    }
  }

  /** log, then k accepted calls of t at the same moment. */
  function Burst(log: seq<Entry>, t: Tenant, now: real, k: nat): seq<Entry> {
    if k == 0 then log else Burst(log, t, now, k - 1) + [Entry(t, now, true)]
  }

  /** The window after k >= 1 more accepted calls of t at this moment. */
  function Filled(windows: Windows, span: real, t: Tenant, now: real, k: nat): Window {
    if Opens(windows, span, t, now) then Window(now, k) else windows[t].(count := windows[t].count + k)
  }

  lemma OneMore(limit: int, span: real, log: seq<Entry>, t: Tenant, now: real, from: real)
    requires Run(limit, span, log) && (log == [] || log[|log| - 1].now <= now)
    requires Allows(WindowsAfter(limit, span, log), limit, span, t, now)
    ensures var after := log + [Entry(t, now, true)];
            && Run(limit, span, after)
            && Accepted(after, t, from, span) == Accepted(log, t, from, span) + (if Inside(now, from, span) then 1 else 0)
            && WindowsAfter(limit, span, after) == After(WindowsAfter(limit, span, log), limit, span, t, now)
  {
    assert (log + [Entry(t, now, true)])[..|log|] == log;
  }

  lemma FilledOneMore(windows: Windows, mid: Windows, limit: int, span: real, t: Tenant, now: real, k: nat)
    requires k > 0 && span > 0.0 && Filled(windows, span, t, now, k).count <= limit
    requires if k == 1 then mid == windows else t in mid && mid[t] == Filled(windows, span, t, now, k - 1)
    ensures Allows(mid, limit, span, t, now)
    ensures t in After(mid, limit, span, t, now)
    ensures After(mid, limit, span, t, now)[t] == Filled(windows, span, t, now, k)
  {
  }

  lemma {:induction false} BurstRuns(limit: int, span: real, log: seq<Entry>, t: Tenant, now: real, k: nat, from: real)
    requires Run(limit, span, log) && span > 0.0 && (log == [] || log[|log| - 1].now <= now)
    requires Filled(WindowsAfter(limit, span, log), span, t, now, k).count <= limit
    ensures Run(limit, span, Burst(log, t, now, k))
    ensures Accepted(Burst(log, t, now, k), t, from, span)
              == Accepted(log, t, from, span) + (if Inside(now, from, span) then k else 0)
    ensures k > 0 ==>
              && |Burst(log, t, now, k)| > 0 && Burst(log, t, now, k)[|Burst(log, t, now, k)| - 1].now == now
              && t in WindowsAfter(limit, span, Burst(log, t, now, k))
              && WindowsAfter(limit, span, Burst(log, t, now, k))[t]
                   == Filled(WindowsAfter(limit, span, log), span, t, now, k)
  {
    if k > 0 {
      BurstRuns(limit, span, log, t, now, k - 1, from);
      var windows, mid := WindowsAfter(limit, span, log), WindowsAfter(limit, span, Burst(log, t, now, k - 1));
      FilledOneMore(windows, mid, limit, span, t, now, k);
      hide Run, WindowsAfter, Accepted, Filled, Opens, Allows, After;
      OneMore(limit, span, Burst(log, t, now, k - 1), t, now, from);
    }
  }

  /** One call at the start of a window, limit - 1 halfway through it. */
  lemma LateBurst(limit: int, span: real, t: Tenant) returns (log: seq<Entry>)
    requires limit >= 1 && span > 0.0
    ensures Run(limit, span, log) && Accepted(log, t, span / 2.0, span) == limit - 1
    ensures log != [] && log[|log| - 1].now <= span
    ensures var windows := WindowsAfter(limit, span, log); t in windows && windows[t].startedAt == 0.0
  {
    var late := span / 2.0;
    AtFirst(limit, span, t, late);
    hide Run, WindowsAfter, Accepted;
    BurstRuns(limit, span, [], t, 0.0, 1, late);
    var first := Burst([], t, 0.0, 1);
    BurstRuns(limit, span, first, t, late, limit - 1, late);
    log := Burst(first, t, late, limit - 1);
  }

  lemma AtFirst(limit: int, span: real, t: Tenant, from: real)
    ensures Run(limit, span, []) && WindowsAfter(limit, span, []) == map[] && Accepted([], t, from, span) == 0
  {
  }

  /** The bound is reached, for every limit: one call, limit - 1 late in its window, limit in the next. */
  lemma TheBoundIsReached(limit: int, span: real, t: Tenant)
    requires limit >= 1 && span > 0.0
    ensures exists log, from :: Run(limit, span, log) && Accepted(log, t, from, span) == 2 * limit - 1
  {
    hide Run, WindowsAfter, Accepted, Burst;
    var late := span / 2.0;
    var second := LateBurst(limit, span, t);
    BurstRuns(limit, span, second, t, span, limit, late);
    var third := Burst(second, t, span, limit);
    assert Run(limit, span, third) && Accepted(third, t, late, span) == 2 * limit - 1;
  }

  /** "At most limit calls per windowSeconds" holds of every run exactly when the limit is one. */
  lemma LimitHoldsIffOne(limit: int, span: real, t: Tenant)
    requires limit >= 1 && span > 0.0
    ensures (forall log, from :: Run(limit, span, log) ==> Accepted(log, t, from, span) <= limit) <==> limit == 1
  {
    if limit == 1 {
      forall log, from | Run(limit, span, log) ensures Accepted(log, t, from, span) <= limit {
        AtMostTwiceTheLimitLessOne(limit, span, log, t, from);
      }
    } else {
      TheBoundIsReached(limit, span, t);
    }
  }

  // ---- The limiter, said of the calls alone ----------------------------------------

  /** Call o of t opens a window: every window opened before is over by then. */
  ghost predicate OpensAt(log: seq<Entry>, t: Tenant, span: real, o: nat)
    decreases o
  {
    && o < |log| && log[o].tenant == t
    && forall p: nat | p < o :: OpensAt(log, t, span, p) ==> log[p].now + span <= log[o].now
  }

  /** Accepted calls of t from position o on. */
  function AcceptedFrom(log: seq<Entry>, t: Tenant, o: nat): nat {
    if |log| <= o then 0
    else
      var e := log[|log| - 1];
      AcceptedFrom(log[..|log| - 1], t, o) + if e.tenant == t && e.allowed then 1 else 0
  }

  /** The window of t that was opened last. */
  ghost predicate LastWindow(log: seq<Entry>, t: Tenant, span: real, o: nat) {
    o < |log| && OpensAt(log, t, span, o) && forall p: nat | o < p < |log| :: !OpensAt(log, t, span, p)
  }

  lemma {:induction false} OpensStays(log: seq<Entry>, e: Entry, t: Tenant, span: real, o: nat)
    requires o < |log|
    ensures OpensAt(log + [e], t, span, o) <==> OpensAt(log, t, span, o)
    decreases o
  {
    forall p: nat | p < o ensures OpensAt(log + [e], t, span, p) <==> OpensAt(log, t, span, p) {
      OpensStays(log, e, t, span, p);
    }
  }

  /** If the last window is over, so are all before it. */
  lemma {:induction false} EarlierIsOver(limit: int, span: real, log: seq<Entry>, p: nat, o: nat)
    requires Run(limit, span, log) && p <= o < |log|
    ensures log[p].now <= log[o].now <= log[|log| - 1].now
    decreases |log|
  {
    var n := |log| - 1;
    if o < n {
      EarlierIsOver(limit, span, log[..n], p, o);
    } else if p < n {
      EarlierIsOver(limit, span, log[..n], p, n - 1);
    }
  }

  lemma NewOpens(limit: int, span: real, log: seq<Entry>, e: Entry, t: Tenant)
    requires Run(limit, span, log + [e]) && e.tenant == t
    ensures (forall o: nat | o < |log| :: !OpensAt(log, t, span, o)) ==> OpensAt(log + [e], t, span, |log|)
    ensures forall o: nat | LastWindow(log, t, span, o) :: OpensAt(log + [e], t, span, |log|) <==> log[o].now + span <= e.now
  {
    hide Run;
    var longer := log + [e];
    forall p: nat | p < |log| ensures OpensAt(longer, t, span, p) <==> OpensAt(log, t, span, p) {
      OpensStays(log, e, t, span, p);
    }
    forall o: nat | LastWindow(log, t, span, o) && log[o].now + span <= e.now
      ensures OpensAt(longer, t, span, |log|)
    {
      forall p: nat | p < |log| && OpensAt(longer, t, span, p) ensures log[p].now + span <= e.now {
        assert p <= o;
        EarlierIsOver(limit, span, longer, p, o);
      }
    }
  }

  /** The windows kept are those: started when the last one was opened, counting what was accepted since. */
  ghost predicate WindowsAre(windows: Windows, log: seq<Entry>, t: Tenant, span: real) {
    if t in windows then
      exists o: nat :: LastWindow(log, t, span, o) && windows[t] == Window(log[o].now, AcceptedFrom(log, t, o))
    else forall o: nat | o < |log| :: !OpensAt(log, t, span, o)
  }

  /** The next call is accepted exactly if it opens a window, or fewer than limit were since the last one was opened. */
  ghost predicate DecidedAs(log: seq<Entry>, limit: int, e: Entry, span: real) {
    e.allowed <==>
      || OpensAt(log + [e], e.tenant, span, |log|)
      || exists o: nat :: LastWindow(log, e.tenant, span, o) && AcceptedFrom(log, e.tenant, o) < limit
  }

  lemma OneLast(log: seq<Entry>, t: Tenant, span: real, o: nat, p: nat)
    requires LastWindow(log, t, span, o) && LastWindow(log, t, span, p)
    ensures o == p
  {
  }

  lemma CountOneMore(log: seq<Entry>, e: Entry, t: Tenant, o: nat)
    requires o <= |log|
    ensures AcceptedFrom(log + [e], t, o) == AcceptedFrom(log, t, o) + (if e.tenant == t && e.allowed then 1 else 0)
    ensures AcceptedFrom(log, t, |log|) == 0
  {
    assert (log + [e])[..|log|] == log;
  }

  lemma RunFront(limit: int, span: real, log: seq<Entry>, e: Entry)
    requires Run(limit, span, log + [e])
    ensures Run(limit, span, log) && e.allowed == Allows(WindowsAfter(limit, span, log), limit, span, e.tenant, e.now)
    ensures WindowsAfter(limit, span, log + [e]) == After(WindowsAfter(limit, span, log), limit, span, e.tenant, e.now)
  {
    assert (log + [e])[..|log|] == log;
  }

  lemma WindowStep(limit: int, span: real, log: seq<Entry>, e: Entry, t: Tenant)
    requires Run(limit, span, log + [e]) && WindowsAre(WindowsAfter(limit, span, log), log, t, span)
    ensures WindowsAre(WindowsAfter(limit, span, log + [e]), log + [e], t, span)
    ensures e.tenant == t ==> DecidedAs(log, limit, e, span)
  {
    hide Run, WindowsAfter, AcceptedFrom, OpensAt;
    RunFront(limit, span, log, e);
    var windows, longer, n := WindowsAfter(limit, span, log), log + [e], |log|;
    forall p: nat | p < n ensures OpensAt(longer, t, span, p) <==> OpensAt(log, t, span, p) {
      OpensStays(log, e, t, span, p);
    }
    if e.tenant != t {
      OtherStep(limit, span, log, e, t, windows);
    } else {
      NewOpens(limit, span, log, e, t);
      if t in windows {
        var o: nat :| LastWindow(log, t, span, o) && windows[t] == Window(log[o].now, AcceptedFrom(log, t, o));
        OwnStep(limit, span, log, e, windows, o);
      } else {
        CountOneMore(log, e, t, n);
        assert LastWindow(longer, t, span, n);
      }
    }
  }

  lemma OtherStep(limit: int, span: real, log: seq<Entry>, e: Entry, t: Tenant, windows: Windows)
    requires e.tenant != t && WindowsAre(windows, log, t, span)
    requires forall p: nat | p < |log| :: OpensAt(log + [e], t, span, p) <==> OpensAt(log, t, span, p)
    ensures WindowsAre(After(windows, limit, span, e.tenant, e.now), log + [e], t, span)
  {
    hide AcceptedFrom, OpensAt;
    var longer := log + [e];
    assert !OpensAt(longer, t, span, |log|) by {
      NotOurs(longer, t, span, |log|);
    }
    if t in windows {
      var o: nat :| LastWindow(log, t, span, o) && windows[t] == Window(log[o].now, AcceptedFrom(log, t, o));
      CountOneMore(log, e, t, o);
      assert LastWindow(longer, t, span, o);
    }
  }

  lemma NotOurs(log: seq<Entry>, t: Tenant, span: real, o: nat)
    requires o < |log| && log[o].tenant != t
    ensures !OpensAt(log, t, span, o)
  {
  }

  lemma OwnStep(limit: int, span: real, log: seq<Entry>, e: Entry, windows: Windows, o: nat)
    requires e.tenant in windows && LastWindow(log, e.tenant, span, o)
    requires windows[e.tenant] == Window(log[o].now, AcceptedFrom(log, e.tenant, o))
    requires e.allowed == Allows(windows, limit, span, e.tenant, e.now)
    requires forall p: nat | p < |log| :: OpensAt(log + [e], e.tenant, span, p) <==> OpensAt(log, e.tenant, span, p)
    requires OpensAt(log + [e], e.tenant, span, |log|) <==> log[o].now + span <= e.now
    ensures WindowsAre(After(windows, limit, span, e.tenant, e.now), log + [e], e.tenant, span)
    ensures DecidedAs(log, limit, e, span)
  {
    hide AcceptedFrom, OpensAt;
    var longer, t := log + [e], e.tenant;
    CountOneMore(log, e, t, o);
    CountOneMore(log, e, t, |log|);
    forall p: nat | LastWindow(log, t, span, p) ensures p == o {
      OneLast(log, t, span, o, p);
    }
    if log[o].now + span <= e.now {
      assert LastWindow(longer, t, span, |log|);
    } else {
      assert LastWindow(longer, t, span, o);
    }
  }

  lemma {:induction false} WindowsAreKept(limit: int, span: real, log: seq<Entry>, t: Tenant)
    requires Run(limit, span, log)
    ensures WindowsAre(WindowsAfter(limit, span, log), log, t, span)
  {
    if log != [] {
      var front, e := log[..|log| - 1], log[|log| - 1];
      assert front + [e] == log;
      WindowsAreKept(limit, span, front, t);
      hide Run, WindowsAfter, WindowsAre;
      WindowStep(limit, span, front, e, t);
    }
  }

  /**
   * Every call of every run, said of the calls alone: it is accepted exactly if it opens a window, which it does
   * once every earlier one of its tenant is over, or fewer than limit were accepted since the last was opened.
   */
  lemma {:induction false} AcceptedIff(limit: int, span: real, log: seq<Entry>, k: nat)
    requires Run(limit, span, log) && k < |log|
    ensures DecidedAs(log[..k], limit, log[k], span)
    decreases |log|
  {
    var n := |log| - 1;
    if k < n {
      AcceptedIff(limit, span, log[..n], k);
      assert log[..n][..k] == log[..k];
    } else {
      assert log[..n] + [log[n]] == log;
      WindowsAreKept(limit, span, log[..n], log[n].tenant);
      hide Run, WindowsAfter, WindowsAre, DecidedAs;
      WindowStep(limit, span, log[..n], log[n], log[n].tenant);
    }
  }

  /** The hint of a refusal reaches past the end of the window, by one second at most. */
  lemma RetryAfterIsTight(windows: Windows, limit: int, span: real, t: Tenant, now: real)
    requires !Allows(windows, limit, span, t, now)
    ensures var r := RetryAfter(windows[t], span, now) as real;
            windows[t].startedAt + span < now + r <= windows[t].startedAt + span + 1.0
  {
  }

  /** Whoever waits that long finds the window over. */
  lemma RetryIsAdmitted(windows: Windows, limit: int, span: real, t: Tenant, now: real, later: real)
    requires !Allows(windows, limit, span, t, now) && later >= now + RetryAfter(windows[t], span, now) as real
    ensures Opens(windows, span, t, later) && Allows(windows, limit, span, t, later)
  {
    RetryAfterIsTight(windows, limit, span, t, now);
  }

  /** A call touches no other tenant's window. */
  lemma TenantsAreSeparate(windows: Windows, limit: int, span: real, t: Tenant, now: real, u: Tenant)
    requires u != t
    ensures u in After(windows, limit, span, t, now) <==> u in windows
    ensures u in windows ==> After(windows, limit, span, t, now)[u] == windows[u]
  {
  }

  class RateLimiter {
    const limit: int
    const span: real
    var windows: Windows
    ghost var log: seq<Entry>

    ghost predicate Valid()
      reads this
    {
      windows == WindowsAfter(limit, span, log) && Run(limit, span, log)
    }

    constructor (limit: int, span: real)
      ensures Valid() && log == [] && this.limit == limit && this.span == span
    {
      this.limit, this.span := limit, span;
      windows, log := map[], [];
    }

    method Check(t: Tenant, now: real) returns (allowed: bool, retryAfter: Option<int>)
      requires Valid() && (log == [] || log[|log| - 1].now <= now)
      modifies this
      ensures Valid() && log == old(log) + [Entry(t, now, allowed)]
      ensures allowed <==> Allows(old(windows), limit, span, t, now)
      ensures allowed <==> retryAfter.None?
      ensures !allowed ==> windows == old(windows) && retryAfter == Some(RetryAfter(windows[t], span, now))
    {
      assert (log + [Entry(t, now, Allows(windows, limit, span, t, now))])[..|log|] == log;
      ghost var entry := Entry(t, now, Allows(windows, limit, span, t, now));
      log := log + [entry];
      if t !in windows || now - windows[t].startedAt >= span {
        windows := windows[t := Window(now, 1)];
        return true, None;
      }
      var window := windows[t];
      if window.count < limit {
        windows := windows[t := window.(count := window.count + 1)];
        return true, None;
      }
      return false, Some(RetryAfter(window, span, now));
    }

    method Reset()
      modifies this
      ensures Valid() && log == [] && windows == map[]
    {
      windows, log := map[], [];
    }
  }
}
