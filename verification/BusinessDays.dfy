/** The date an account closure may be carried out: five working days after the
    request, by work calendars that are configured year by year. */
module BusinessDays {

  // ----- the civil calendar -----

  /** Days are numbered from 1, the first of January of year 1, a Monday. */
  function YearStart(y: int): int
    requires y >= 1
  {
    365 * (y - 1) + (y - 1) / 4 - (y - 1) / 100 + (y - 1) / 400
  }

  predicate IsLeap(y: int) { y % 4 == 0 && (y % 100 != 0 || y % 400 == 0) }

  lemma By4(y: int)
    ensures y / 4 == (y - 1) / 4 + (if y % 4 == 0 then 1 else 0)
  {
  }

  lemma By100(y: int)
    ensures y / 100 == (y - 1) / 100 + (if y % 100 == 0 then 1 else 0)
    ensures y % 100 == 0 ==> y % 4 == 0
  {
  }

  lemma By400(y: int)
    ensures y / 400 == (y - 1) / 400 + (if y % 400 == 0 then 1 else 0)
    ensures y % 400 == 0 ==> y % 100 == 0
  {
  }

  lemma YearLength(y: int)
    requires y >= 1
    ensures YearStart(y + 1) == YearStart(y) + 365 + (if IsLeap(y) then 1 else 0)
  {
    By4(y);
    By100(y);
    By400(y);
  }

  function YearFrom(day: int, y: int): (r: int)
    requires y >= 1 && YearStart(y) < day
    ensures r >= y && YearStart(r) < day <= YearStart(r + 1)
    decreases day - YearStart(y)
  {
    YearLength(y);
    if day <= YearStart(y + 1) then y else YearFrom(day, y + 1)
  }

  function YearOf(day: int): (r: int)
    requires day >= 1
    ensures r >= 1 && YearStart(r) < day <= YearStart(r + 1)
  {
    YearFrom(day, 1)
  }

  lemma {:induction false} YearStartMonotone(y: int, z: int)
    requires 1 <= y <= z
    ensures YearStart(y) + 365 * (z - y) <= YearStart(z)
    decreases z - y
  {
    if y < z {
      YearLength(z - 1);
      YearStartMonotone(y, z - 1);
      hide YearStart;
    }
  }

  // A day lies in a year no later than m exactly when it is not past its end.
  lemma YearAtMost(day: int, m: int)
    requires day >= 1 && m >= 1
    ensures YearOf(day) <= m <==> day <= YearStart(m + 1)
  {
    hide YearStart, YearFrom;
    if YearOf(day) > m {
      YearStartMonotone(m + 1, YearOf(day));
    } else {
      YearStartMonotone(YearOf(day) + 1, m + 1);
    }
  }

  // Monday is 0.
  function Weekday(day: int): int { (day - 1) % 7 }

  // ----- work calendars -----

  // `readable`: every entry is a date. Holidays and working weekends, as days.
  datatype Calendar = Calendar(readable: bool, holidays: set<int>, working: set<int>)

  predicate WellFormed(c: Calendar, y: int)
    requires y >= 1
  {
    && c.readable
    && c.holidays !! c.working
    && (forall d :: d in c.holidays + c.working ==> YearStart(y) < d <= YearStart(y + 1))
  }

  type Calendars = map<int, Calendar>

  predicate Configured(cs: Calendars, day: int)
    requires day >= 1
  {
    YearOf(day) in cs
  }

  predicate Usable(cs: Calendars, day: int)
    requires day >= 1
  {
    Configured(cs, day) && WellFormed(cs[YearOf(day)], YearOf(day))
  }

  predicate Works(cs: Calendars, day: int)
    requires day >= 1
  {
    Configured(cs, day) && (day in cs[YearOf(day)].working || (Weekday(day) < 5 && day !in cs[YearOf(day)].holidays))
  }

  // Working days after a, up to and including b.
  function Count(cs: Calendars, a: int, b: int): nat
    requires 0 <= a
    decreases b - a
  {
    if b <= a then 0 else Count(cs, a, b - 1) + (if Works(cs, b) then 1 else 0)
  }

  lemma {:induction false} CountSplits(cs: Calendars, a: int, b: int, c: int)
    requires 0 <= a <= b <= c
    ensures Count(cs, a, c) == Count(cs, a, b) + Count(cs, b, c)
    decreases c - b
  {
    hide Works;
    if b < c {
      CountSplits(cs, a, b, c - 1);
    }
  }

  // ----- the deadline -----

  datatype Deadline = On(day: int) | NotConfigured | Malformed

  ghost predicate UsableUpTo(cs: Calendars, a: int, b: int)
    requires 0 <= a
  {
    forall d :: a < d <= b ==> Usable(cs, d)
  }

  // The first day after `start` on which the count stops, and why.
  ghost predicate StopsAt(cs: Calendars, start: int, day: int, r: Deadline)
    requires 0 <= start
  {
    && start < day
    && UsableUpTo(cs, start, day - 1)
    && Count(cs, start, day - 1) < 5
    && match r
       case On(d) => d == day && Usable(cs, day) && Count(cs, start, day) == 5
       case NotConfigured => !Configured(cs, day)
       case Malformed => Configured(cs, day) && !Usable(cs, day)
  }

  // What a request made on day `start` comes to.
  ghost predicate Outcome(cs: Calendars, start: int, r: Deadline)
    requires 0 <= start
  {
    exists day :: StopsAt(cs, start, day, r)
  }

  // A year with no calendar, from the given year on: only finitely many have one.
  lemma {:induction false} SomeYearMissing(cs: Calendars, y: int) returns (z: int)
    ensures y <= z && z !in cs
    decreases |cs|
  {
    if y !in cs {
      z := y;
    } else {
      var rest := map k | k in cs && k != y :: cs[k];
      assert rest.Keys == cs.Keys - {y};
      assert |rest.Keys| < |cs.Keys|;
      z := SomeYearMissing(rest, y + 1);
    }
  }

  /** Counts five working days from the day after the request. The count ends because
      some year has no calendar: what shrinks is the distance to it, not the number
      of days still to find. */
  method ClosureDay(cs: Calendars, start: int) returns (r: Deadline)
    requires 0 <= start
    ensures Outcome(cs, start, r)
    ensures r.On? ==> StopsAt(cs, start, r.day, r)
  {
    hide YearStart, YearFrom, UsableUpTo, Count, WellFormed, StopsAt;
    var current := start;
    var remaining := 5;
    var parsed: Calendars := map[];
    ghost var missing := SomeYearMissing(cs, YearOf(start + 1));
    NothingCounted(cs, start);
    while remaining > 0
      invariant start <= current && 0 <= remaining <= 5
      invariant UsableUpTo(cs, start, current) && Count(cs, start, current) == 5 - remaining
      invariant remaining == 0 ==> StopsAt(cs, start, current, On(current))
      invariant forall y :: y in parsed ==> y >= 1 && y in cs && parsed[y] == cs[y] && WellFormed(cs[y], y)
      invariant YearOf(if current == start then current + 1 else current) <= missing
      decreases YearStart(missing + 1) - current
    {
      MissingAhead(cs, start, current, missing);
      current := current + 1;
      var year := YearOf(current);
      if year !in cs {
        Stopped(cs, start, current, NotConfigured);
        return NotConfigured;
      }
      if year !in parsed {
        if !WellFormed(cs[year], year) {
          Stopped(cs, start, current, Malformed);
          return Malformed;
        }
        parsed := parsed[year := cs[year]];
      }
      OneMore(cs, start, current);
      var calendar := parsed[year];
      if current in calendar.working || (Weekday(current) < 5 && current !in calendar.holidays) {
        remaining := remaining - 1;
        if remaining == 0 {
          Stopped(cs, start, current, On(current));
        }
      }
    }
    return On(current);
  }

  lemma NothingCounted(cs: Calendars, start: int)
    requires 0 <= start
    ensures UsableUpTo(cs, start, start) && Count(cs, start, start) == 0
  {
  }

  lemma OneMore(cs: Calendars, start: int, day: int)
    requires 0 <= start < day && UsableUpTo(cs, start, day - 1) && Usable(cs, day)
    ensures UsableUpTo(cs, start, day)
    ensures Count(cs, start, day) == Count(cs, start, day - 1) + (if Works(cs, day) then 1 else 0)
  {
  }

  lemma Stopped(cs: Calendars, start: int, day: int, r: Deadline)
    requires 0 <= start < day && UsableUpTo(cs, start, day - 1) && Count(cs, start, day - 1) < 5
    requires match r
      case On(d) => d == day && Usable(cs, day) && Count(cs, start, day) == 5
      case NotConfigured => !Configured(cs, day)
      case Malformed => Configured(cs, day) && !Usable(cs, day)
    ensures StopsAt(cs, start, day, r)
  {
  }

  // While the days so far have calendars, the year without one lies ahead.
  lemma MissingAhead(cs: Calendars, start: int, current: int, missing: int)
    requires 0 <= start <= current && missing >= 1 && missing !in cs
    requires UsableUpTo(cs, start, current)
    requires YearOf(if current == start then current + 1 else current) <= missing
    ensures YearOf(current + 1) <= missing && current < YearStart(missing + 1)
  {
    hide YearStart, YearFrom;
    YearLength(missing);
    if current > start {
      assert Usable(cs, current);
      YearAtMost(current, missing - 1);
    }
    YearAtMost(current + 1, missing);
  }

  // ----- what the deadline means -----

  /** Requests have one outcome, on one day. */
  lemma OneOutcome(cs: Calendars, start: int, d: int, r: Deadline, e: int, q: Deadline)
    requires 0 <= start && StopsAt(cs, start, d, r) && StopsAt(cs, start, e, q)
    ensures d == e && r == q
  {
    if d < e {
      NotBefore(cs, start, d, r, e, q);
    } else if e < d {
      NotBefore(cs, start, e, q, d, r);
    }
  }

  // A day the count has passed is usable and short of five.
  lemma Passed(cs: Calendars, start: int, d: int, e: int, q: Deadline)
    requires 0 <= start <= d < e && StopsAt(cs, start, e, q)
    ensures Count(cs, start, d) < 5
    ensures d > start ==> Usable(cs, d)
  {
    hide Usable, Works;
    CountSplits(cs, start, d, e - 1);
  }

  lemma NotBefore(cs: Calendars, start: int, d: int, r: Deadline, e: int, q: Deadline)
    requires 0 <= start && StopsAt(cs, start, d, r) && StopsAt(cs, start, e, q)
    ensures !(d < e)
  {
    if d < e {
      Passed(cs, start, d, e, q);
    }
  }

  /** The deadline is the least day with five working days after the request, and it
      is a working day itself. */
  lemma LeastDay(cs: Calendars, start: int, d: int)
    requires 0 <= start && StopsAt(cs, start, d, On(d))
    ensures Works(cs, d) && Count(cs, start, d) == 5
    ensures forall e :: start <= e < d ==> Count(cs, start, e) < 5
  {
    assert Works(cs, d) by { hide Works; }
    hide Works, Usable, Count;
    forall e | start <= e < d
      ensures Count(cs, start, e) < 5
    {
      Passed(cs, start, e, d, On(d));
    }
  }

  /** Later requests never get an earlier day, and get a later one exactly when a
      working day lies between. */
  lemma DayMonotone(cs: Calendars, start: int, later: int, d: int, e: int)
    requires 0 <= start <= later
    requires StopsAt(cs, start, d, On(d)) && StopsAt(cs, later, e, On(e))
    ensures d <= e
    ensures d < e <==> Count(cs, start, later) > 0
  {
    LeastDay(cs, start, d);
    LeastDay(cs, later, e);
    CountSplits(cs, start, later, e);
    if later <= d {
      CountSplits(cs, start, later, d);
    } else {
      CountSplits(cs, start, d, later);
    }
    hide Works, Usable, Count, UsableUpTo;
  }

  // ----- moments -----

  const DAY_SECONDS := 24 * 3600

  /** The deadline of a moment keeps the local time of day. */
  ghost predicate IsDeadline(cs: Calendars, requestedAt: int, deadline: int)
    requires requestedAt >= 0
  {
    && StopsAt(cs, requestedAt / DAY_SECONDS, deadline / DAY_SECONDS, On(deadline / DAY_SECONDS))
    && deadline % DAY_SECONDS == requestedAt % DAY_SECONDS
  }

  // A request whose count stops for want of a calendar has no deadline.
  lemma NoDeadline(cs: Calendars, requestedAt: int, r: Deadline)
    requires requestedAt >= 0 && Outcome(cs, requestedAt / DAY_SECONDS, r) && !r.On?
    ensures forall d :: !IsDeadline(cs, requestedAt, d)
  {
    var start := requestedAt / DAY_SECONDS;
    var day :| StopsAt(cs, start, day, r);
    forall d | IsDeadline(cs, requestedAt, d)
      ensures false
    {
      OneOutcome(cs, start, day, r, d / DAY_SECONDS, On(d / DAY_SECONDS));
    }
  }

  /** The deadline does not always grow with the moment of the request: it does
      exactly when a working day lies between the two dates or the later request was
      made no earlier in the day. */
  lemma MomentMonotoneIff(cs: Calendars, t: int, u: int, d: int, e: int)
    requires 0 <= t <= u && IsDeadline(cs, t, d) && IsDeadline(cs, u, e)
    ensures d <= e <==> Count(cs, t / DAY_SECONDS, u / DAY_SECONDS) > 0 || t % DAY_SECONDS <= u % DAY_SECONDS
  {
    hide StopsAt, Count;
    DayMonotone(cs, t / DAY_SECONDS, u / DAY_SECONDS, d / DAY_SECONDS, e / DAY_SECONDS);
    MomentOrder(d, e);
    MomentOrder(t, u);
  }

  lemma MomentParts(day: int, second: int)
    requires 0 <= second < DAY_SECONDS
    ensures (day * DAY_SECONDS + second) / DAY_SECONDS == day && (day * DAY_SECONDS + second) % DAY_SECONDS == second
  {
  }

  // Moments are ordered by day and, on one day, by the time of day.
  lemma MomentOrder(d: int, e: int)
    ensures d <= e <==> d / DAY_SECONDS < e / DAY_SECONDS || (d / DAY_SECONDS == e / DAY_SECONDS && d % DAY_SECONDS <= e % DAY_SECONDS)
  {
  }

  // ----- where it fails -----

  // Each day up to the Friday after is ordinary: configured, no holiday, no working Sunday.
  predicate PlainWeekAfter(cs: Calendars, saturday: int)
    requires saturday >= 1
  {
    && Weekday(saturday) == 5
    && (forall d :: saturday < d <= saturday + 6 ==> Usable(cs, d) && (Works(cs, d) <==> Weekday(d) < 5))
  }

  lemma NextFriday(cs: Calendars, saturday: int, start: int)
    requires saturday >= 1 && PlainWeekAfter(cs, saturday) && saturday <= start <= saturday + 1
    ensures StopsAt(cs, start, saturday + 6, On(saturday + 6))
  {
    hide Usable, Works;
    forall d | start < d <= saturday + 6
      ensures Count(cs, start, d) == (if d <= saturday + 1 then 0 else d - saturday - 1)
    {
      CountFrom(cs, saturday, start, d);
    }
  }

  lemma {:induction false} CountFrom(cs: Calendars, saturday: int, start: int, d: int)
    requires saturday >= 1 && PlainWeekAfter(cs, saturday) && saturday <= start <= saturday + 1 && start <= d <= saturday + 6
    ensures Count(cs, start, d) == (if d <= saturday + 1 then 0 else d - saturday - 1)
    decreases d
  {
    hide Usable, Works;
    if start < d {
      CountFrom(cs, saturday, start, d - 1);
    }
  }

  /** Whenever an ordinary week follows a Saturday, a request on that Saturday gets a
      later deadline than one made earlier in the day on the Sunday after it. */
  lemma SundayBeatsSaturday(cs: Calendars, saturday: int, late: int, early: int)
    requires saturday >= 1 && PlainWeekAfter(cs, saturday) && 0 <= early < late < DAY_SECONDS
    ensures IsDeadline(cs, saturday * DAY_SECONDS + late, (saturday + 6) * DAY_SECONDS + late)
    ensures IsDeadline(cs, (saturday + 1) * DAY_SECONDS + early, (saturday + 6) * DAY_SECONDS + early)
  {
    NextFriday(cs, saturday, saturday);
    NextFriday(cs, saturday, saturday + 1);
    MomentParts(saturday, late);
    MomentParts(saturday + 1, early);
    MomentParts(saturday + 6, late);
    MomentParts(saturday + 6, early);
    hide StopsAt, PlainWeekAfter;
  }

  function Span(first: int, last: int): (r: set<int>)
    ensures forall d :: d in r <==> first <= d <= last
    decreases last - first
  {
    if last < first then {} else Span(first, last - 1) + {last}
  }

  // The calendar of 2026 the platform is delivered with, as days.
  function Calendar2026(): Calendar {
    Calendar(true,
      Span(739617, 739619) + Span(739662, 739670) + Span(739710, 739712)
      + Span(739737, 739741) + Span(739786, 739788) + Span(739884, 739886)
      + Span(739890, 739896),
      {739620, 739661, 739675, 739745, 739879, 739899})
  }

  lemma In2026(day: int)
    requires 739617 <= day <= 739981
    ensures YearOf(day) == 2026
  {
    YearAtMost(day, 2026);
    YearAtMost(day, 2025);
  }

  lemma Calendar2026Ok()
    ensures WellFormed(Calendar2026(), 2026)
  {
    hide Span;
  }

  /** With the delivered calendar: Saturday 7 March 2026 at 23:00 gets Friday 13 March
      at 23:00, Sunday 8 March at 01:00 gets the same Friday at 01:00. */
  lemma SundayBeatsSaturdayIn2026(cs: Calendars)
    requires 2026 in cs && cs[2026] == Calendar2026()
    ensures IsDeadline(cs, 739682 * DAY_SECONDS + 23 * 3600, 739688 * DAY_SECONDS + 23 * 3600)
    ensures IsDeadline(cs, 739683 * DAY_SECONDS + 3600, 739688 * DAY_SECONDS + 3600)
  {
    hide Span, YearStart, YearFrom;
    Calendar2026Ok();
    forall d | 739682 < d <= 739688
      ensures Usable(cs, d) && (Works(cs, d) <==> Weekday(d) < 5)
    {
      In2026(d);
      hide WellFormed;
    }
    hide Usable, Works;
    assert PlainWeekAfter(cs, 739682);
    SundayBeatsSaturday(cs, 739682, 23 * 3600, 3600);
  }

  // From 14 to 27 February 2026: a working Saturday, nine holidays, four working days.
  lemma FestivalListed(day: int)
    requires 739661 <= day <= 739674
    ensures day in Calendar2026().working <==> day == 739661
    ensures day in Calendar2026().holidays <==> 739662 <= day <= 739670
  {
    hide Span;
  }

  lemma FestivalDay(cs: Calendars, day: int)
    requires 2026 in cs && cs[2026] == Calendar2026() && 739661 <= day <= 739674
    ensures Usable(cs, day) && (Works(cs, day) <==> day == 739661 || 739671 <= day)
  {
    hide WellFormed, YearStart, YearFrom, Calendar2026;
    In2026(day);
    Calendar2026Ok();
    FestivalListed(day);
  }

  lemma {:induction false} FestivalCount(cs: Calendars, day: int)
    requires 2026 in cs && cs[2026] == Calendar2026() && 739660 <= day <= 739674
    ensures UsableUpTo(cs, 739660, day)
    ensures Count(cs, 739660, day) == (if day == 739660 then 0 else if day <= 739670 then 1 else day - 739669)
    decreases day
  {
    hide Usable, Works, UsableUpTo, Count, Calendar2026;
    if day == 739660 {
      NothingCounted(cs, day);
    } else {
      FestivalCount(cs, day - 1);
      FestivalDay(cs, day);
      OneMore(cs, 739660, day);
    }
  }

  /** Holidays do not count and working weekends do: with the delivered calendar a request
      of Friday 13 February 2026 may be carried out on Friday 27 February, the first of
      the five working days being the Saturday after it. */
  lemma AcrossTheFestivalIn2026(cs: Calendars, second: int)
    requires 2026 in cs && cs[2026] == Calendar2026() && 0 <= second < DAY_SECONDS
    ensures IsDeadline(cs, 739660 * DAY_SECONDS + second, 739674 * DAY_SECONDS + second)
  {
    hide Usable, Works, Count, UsableUpTo;
    FestivalCount(cs, 739673);
    FestivalCount(cs, 739674);
    FestivalDay(cs, 739674);
    MomentParts(739660, second);
    MomentParts(739674, second);
  }
}
