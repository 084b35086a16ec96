/** Business-day arithmetic behind the escalation deadline. Days are numbered; day 0 is a Monday. */
module BusinessCalendar {
  import opened Common

  /** A moment: its date, and the time of day, which the arithmetic leaves alone. */
  datatype Moment = Moment(day: int, time: int)

  predicate NotBefore(a: Moment, b: Moment) {
    a.day > b.day || (a.day == b.day && a.time >= b.time)
  }

  predicate IsBusinessDay(d: int, holidays: set<int>) {
    d % 7 < 5 && d !in holidays
  }

  /** Business days in (from, from + days]. */
  function BusinessDaysIn(from: int, days: nat, holidays: set<int>): nat {
    if days == 0 then 0
    else BusinessDaysIn(from, days - 1, holidays) + if IsBusinessDay(from + days, holidays) then 1 else 0
  }

  // ---- Why the loop ends ----------------------------------------------------------

  function Later(holidays: set<int>, day: int): set<int> {
    set h | h in holidays && h > day
  }

  function WeekendAhead(day: int): nat {
    if day % 7 == 4 then 2 else if day % 7 == 5 then 1 else 0
  }

  /** Stepping onto a day off uses up a holiday or a day of the weekend. */
  lemma DayOffUsesUp(day: int, holidays: set<int>)
    requires !IsBusinessDay(day + 1, holidays)
    ensures || |Later(holidays, day + 1)| < |Later(holidays, day)|
            || (Later(holidays, day + 1) == Later(holidays, day) && WeekendAhead(day + 1) < WeekendAhead(day))
  {
    if day + 1 in holidays {
      assert Later(holidays, day) == Later(holidays, day + 1) + {day + 1};
    } else {
      assert Later(holidays, day) == Later(holidays, day + 1);
    }
  }

  /** The first business day after a day. */
  function NextBusinessDay(day: int, holidays: set<int>): (next: int)
    ensures next > day && IsBusinessDay(next, holidays)
    ensures forall d | day < d < next :: !IsBusinessDay(d, holidays)
    decreases |Later(holidays, day)|, WeekendAhead(day)
  {
    if IsBusinessDay(day + 1, holidays) then day + 1
    else
      DayOffUsesUp(day, holidays);
      NextBusinessDay(day + 1, holidays)
  }

  /** The n-th business day after a day; the day itself for n = 0. */
  function NthBusinessDay(day: int, n: nat, holidays: set<int>): (d: int)
    ensures d >= day && (n > 0 ==> d > day && IsBusinessDay(d, holidays))
  {
    if n == 0 then day else NextBusinessDay(NthBusinessDay(day, n - 1, holidays), holidays)
  }

  lemma {:induction false} CountSplits(from: int, a: nat, b: nat, holidays: set<int>)
    ensures BusinessDaysIn(from, a + b, holidays)
         == BusinessDaysIn(from, a, holidays) + BusinessDaysIn(from + a, b, holidays)
  {
    if b > 0 {
      CountSplits(from, a, b - 1, holidays);
    }
  }

  lemma {:induction false} NoneOff(from: int, days: nat, holidays: set<int>)
    requires forall d | from < d <= from + days :: !IsBusinessDay(d, holidays)
    ensures BusinessDaysIn(from, days, holidays) == 0
  {
    if days > 0 {
      NoneOff(from, days - 1, holidays);
    }
  }

  /** It is the n-th: exactly n business days up to and including it. */
  lemma {:induction false} NthIsNth(day: int, n: nat, holidays: set<int>)
    ensures BusinessDaysIn(day, NthBusinessDay(day, n, holidays) - day, holidays) == n
  {
    if n > 0 {
      NthIsNth(day, n - 1, holidays);
      var before, d := NthBusinessDay(day, n - 1, holidays), NthBusinessDay(day, n, holidays);
      CountSplits(day, before - day, d - before, holidays);
      NoneOff(before, d - before - 1, holidays);
    }
  }

  lemma {:induction false} CountGrows(from: int, a: nat, b: nat, holidays: set<int>)
    requires a <= b
    ensures BusinessDaysIn(from, a, holidays) <= BusinessDaysIn(from, b, holidays)
    decreases b
  {
    if a < b {
      CountGrows(from, a, b - 1, holidays);
    }
  }

  /** And it is the only such business day. */
  lemma NthIsUnique(day: int, n: nat, holidays: set<int>, days: nat)
    requires n > 0 && IsBusinessDay(day + days, holidays) && BusinessDaysIn(day, days, holidays) == n
    ensures day + days == NthBusinessDay(day, n, holidays)
  {
    NthIsNth(day, n, holidays);
    var k := NthBusinessDay(day, n, holidays) - day;
    if days < k {
      CountGrows(day, days, k - 1, holidays);
    }
    if k < days {
      CountGrows(day, k, days - 1, holidays);
    }
  }

  /** Weekdays that are no holidays, after one day and up to another. Day 0 is a Monday. */
  function WorkingDays(after: int, upTo: int, holidays: set<int>): set<int> {
    set d | after < d <= upTo && d % 7 !in {5, 6} && d !in holidays
  }

  lemma {:induction false} WorkingDaysCounted(after: int, days: nat, holidays: set<int>)
    ensures |WorkingDays(after, after + days, holidays)| == BusinessDaysIn(after, days, holidays)
  {
    if days == 0 {
      assert WorkingDays(after, after, holidays) == {};
    } else {
      WorkingDaysCounted(after, days - 1, holidays);
      var last, before := after + days, WorkingDays(after, after + days - 1, holidays);
      assert WorkingDays(after, last, holidays) == before + if IsBusinessDay(last, holidays) then {last} else {};
    }
  }

  /** Said of the calendar alone: the n-th business day is itself neither of a weekend nor a holiday, and n such days lead up to it. */
  lemma NthCounts(day: int, n: nat, holidays: set<int>)
    ensures var d := NthBusinessDay(day, n, holidays);
            && |WorkingDays(day, d, holidays)| == n
            && (n > 0 ==> d % 7 !in {5, 6} && d !in holidays)
            && (n == 0 ==> d == day)
  {
    NthIsNth(day, n, holidays);
    WorkingDaysCounted(day, NthBusinessDay(day, n, holidays) - day, holidays);
  }

  /** int() of a duration that is not negative. */
  function WholeDays(businessDays: real): nat
    requires businessDays >= 0.0
  {
    businessDays.Floor
  }

  /** done business days have passed, and none of the days since the last of them was one. */
  ghost predicate Counting(start: int, holidays: set<int>, done: nat, day: int) {
    && day >= NthBusinessDay(start, done, holidays)
    && forall d | NthBusinessDay(start, done, holidays) < d <= day :: !IsBusinessDay(d, holidays)
  }

  lemma NoneYet(start: int, holidays: set<int>)
    ensures NthBusinessDay(start, 0, holidays) == start && Counting(start, holidays, 0, start)
  {
  }

  lemma OneDayOn(start: int, holidays: set<int>, done: nat, day: int)
    requires Counting(start, holidays, done, day)
    ensures IsBusinessDay(day + 1, holidays) ==>
              Counting(start, holidays, done + 1, day + 1) && day + 1 == NthBusinessDay(start, done + 1, holidays)
    ensures !IsBusinessDay(day + 1, holidays) ==> Counting(start, holidays, done, day + 1)
  {
    hide IsBusinessDay;
  }

  method AddBusinessDays(start: Moment, businessDays: real, holidays: set<int>) returns (r: Option<Moment>)
    ensures r.None? <==> businessDays < 0.0
    ensures r.Some? ==> r.value == Moment(NthBusinessDay(start.day, WholeDays(businessDays), holidays), start.time)
  {
    if businessDays < 0.0 {
      return None;
    }
    hide NthBusinessDay, IsBusinessDay, Later, WeekendAhead;
    var remaining: int := WholeDays(businessDays);
    var current := start;
    NoneYet(start.day, holidays);
    while remaining > 0
      invariant 0 <= remaining <= WholeDays(businessDays) && current.time == start.time
      invariant Counting(start.day, holidays, WholeDays(businessDays) - remaining, current.day)
      invariant remaining == 0 ==> current.day == NthBusinessDay(start.day, WholeDays(businessDays), holidays)
      decreases remaining, |Later(holidays, current.day)|, WeekendAhead(current.day)
    {
      OneDayOn(start.day, holidays, WholeDays(businessDays) - remaining, current.day);
      current := current.(day := current.day + 1);
      if IsBusinessDay(current.day, holidays) {
        remaining := remaining - 1;
      } else {
        DayOffUsesUp(current.day - 1, holidays);
      }
    }
    return Some(current);
  }

  // ---- Weekends only ----------------------------------------------------------------

  lemma NextWeekday(day: int)
    ensures NextBusinessDay(day, {}) == day + (if day % 7 == 4 then 3 else if day % 7 == 5 then 2 else 1)
  {
    var k := if day % 7 == 4 then 3 else if day % 7 == 5 then 2 else 1;
    assert IsBusinessDay(day + k, {});
    var next := NextBusinessDay(day, {});
    assert next <= day + k;
  }

  /** Days off on the way to the n-th weekday, n at most five, from a given day of the week. */
  function DaysOff(weekday: int, n: nat): nat {
    if n == 0 || weekday == 6 then 0 else if weekday == 5 then 1 else if weekday + n > 4 then 2 else 0
  }

  lemma NthZero(day: int, holidays: set<int>)
    ensures NthBusinessDay(day, 0, holidays) == day
  {
  }

  lemma NthNext(day: int, n: nat, holidays: set<int>)
    ensures NthBusinessDay(day, n + 1, holidays) == NextBusinessDay(NthBusinessDay(day, n, holidays), holidays)
  {
    hide NextBusinessDay;
  }

  lemma {:induction false} WithinAWeek(day: int, n: nat)
    requires n <= 5
    ensures NthBusinessDay(day, n, {}) == day + n + DaysOff(day % 7, n)
  {
    hide NextBusinessDay, IsBusinessDay, NthBusinessDay;
    if n == 0 {
      NthZero(day, {});
    } else {
      WithinAWeek(day, n - 1);
      NextWeekday(NthBusinessDay(day, n - 1, {}));
      NthNext(day, n - 1, {});
    }
  }

  lemma {:induction false} NthFromNth(day: int, n: nat, m: nat, holidays: set<int>)
    ensures NthBusinessDay(day, n + m, holidays) == NthBusinessDay(NthBusinessDay(day, n, holidays), m, holidays)
  {
    hide NextBusinessDay, NthBusinessDay;
    if m == 0 {
      NthZero(NthBusinessDay(day, n, holidays), holidays);
    } else {
      NthFromNth(day, n, m - 1, holidays);
      NthNext(day, n + (m - 1), holidays);
      NthNext(NthBusinessDay(day, n, holidays), m - 1, holidays);
    }
  }

  /** Five more business days are one more week exactly when the count starts from a weekday. */
  lemma FiveMoreIsAWeek(day: int, n: nat)
    ensures NthBusinessDay(day, n + 5, {}) == NthBusinessDay(day, n, {}) + 7 <==> (n > 0 || day % 7 < 5)
  {
    NthFromNth(day, n, 5, {});
    WithinAWeek(NthBusinessDay(day, n, {}), 5);
  }

  /** Elapsed days are n plus two for every weekend crossed, of which there are (n-1)/5 to n/5 rounded up. */
  lemma {:induction false} WeekendsCrossed(day: int, n: nat)
    requires n >= 1
    ensures n + 2 * ((n - 1) / 5) <= NthBusinessDay(day, n, {}) - day <= n + 2 * ((n + 4) / 5)
    decreases n
  {
    hide NthBusinessDay, NextBusinessDay;
    if n <= 5 {
      WithinAWeek(day, n);
    } else {
      WeekendsCrossed(day, n - 5);
      FiveMoreIsAWeek(day, n - 5);
    }
  }

  // ---- The deadline ------------------------------------------------------------------

  predicate IsSlaBreached(openedAt: Moment, now: Moment, businessDays: real, holidays: set<int>)
    requires businessDays >= 0.0
  {
    NotBefore(now, Moment(NthBusinessDay(openedAt.day, WholeDays(businessDays), holidays), openedAt.time))
  }

  lemma {:induction false} NthGrows(day: int, n: nat, m: nat, holidays: set<int>)
    requires n <= m
    ensures NthBusinessDay(day, n, holidays) + (m - n) <= NthBusinessDay(day, m, holidays)
    decreases m
  {
    if n < m {
      NthGrows(day, n, m - 1, holidays);
    }
  }

  /** More holidays never bring the n-th business day forward. */
  lemma {:induction false} HolidaysOnlyDelay(day: int, n: nat, holidays: set<int>, more: set<int>)
    requires holidays <= more
    ensures NthBusinessDay(day, n, holidays) <= NthBusinessDay(day, n, more)
  {
    if n > 0 {
      HolidaysOnlyDelay(day, n - 1, holidays, more);
      var next := NthBusinessDay(day, n, more);
      assert IsBusinessDay(next, holidays);
    }
  }

  /** A breach stays a breach as time passes, and a longer or less interrupted grace period is breached later. */
  lemma BreachIsMonotone(openedAt: Moment, now: Moment, later: Moment, n: real, m: real, holidays: set<int>, more: set<int>)
    requires 0.0 <= n <= m && holidays <= more && NotBefore(later, now)
    ensures IsSlaBreached(openedAt, now, m, more) ==> IsSlaBreached(openedAt, later, n, holidays)
  {
    NthGrows(openedAt.day, WholeDays(n), WholeDays(m), holidays);
    HolidaysOnlyDelay(openedAt.day, WholeDays(m), holidays, more);
  }

  /** With no grace period the deadline is the opening itself. */
  lemma ImmediateDeadline(openedAt: Moment, now: Moment, n: real, holidays: set<int>)
    requires n >= 0.0
    ensures IsSlaBreached(openedAt, openedAt, n, holidays) <==> n < 1.0
  {
  }

  /** Fractions of a day are dropped; from the deadline on, to the time of day, the gate is in breach. */
  lemma FractionsAreDropped(openedAt: Moment, now: Moment, n: nat, fraction: real, holidays: set<int>)
    requires 0.0 <= fraction < 1.0
    ensures var deadline := NthBusinessDay(openedAt.day, n, holidays);
            IsSlaBreached(openedAt, now, n as real + fraction, holidays) <==>
              now.day > deadline || (now.day == deadline && now.time >= openedAt.time)
  {
    assert WholeDays(n as real + fraction) == n;
  }
}
