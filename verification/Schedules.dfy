/** Lazily resolved triggers (`context/scheduler.py`). */
module Schedules {
  import opened Options
  import opened TimeZones
  import opened Units
  import opened SolarSearch

  /** `max_attempts` and `retry_interval`, each of which may be absent. */
  datatype FailPolicy = FailPolicy(retryInterval: Option<int>, maxAttempts: Option<int>)

  /** A solar target, a one-off instant, a time of day or a callable. */
  datatype Target =
    | Solar(event: SolarTarget)
    | OneOff(at: int)
    | Daily(timeOfDay: int)
    | Custom(resolve: int -> Option<int>)

  datatype LazySchedule = LazySchedule(
    target: Target,
    location: Option<Location>,
    tz: Option<Zone>,
    failPolicy: Option<FailPolicy>)

  /** `LazySchedule.timezone_info`. */
  function ZoneOf(s: LazySchedule): Zone {
    if s.location.Some? then s.location.value.zone
    else if s.tz.Some? then s.tz.value
    else UTC
  }

  /** `_next_time_after`: today at that wall-clock time if still ahead, else tomorrow. */
  function NextTimeAfter(z: Zone, after: int, timeOfDay: int): int {
    var date := z.dateOf(after);
    z.wall(if timeOfDay <= z.timeOf(after) then date + 1 else date, timeOfDay)
  }

  /** `LazySchedule.resolve_after`; None stands for its errors. */
  ghost function ResolveAfter(s: LazySchedule, after: int): Option<int> {
    match s.target
    case Solar(event) => if s.location.None? then None else NextEvent(s.location.value, event, after)
    case OneOff(at) => if at <= after then None else Some(at)
    case Daily(timeOfDay) => Some(NextTimeAfter(ZoneOf(s), after, timeOfDay))
    case Custom(resolve) => resolve(after)
  }

  method Resolve(s: LazySchedule, after: int) returns (r: Option<int>)
    ensures r == ResolveAfter(s, after)
  {
    match s.target
    case Solar(event) =>
      if s.location.None? {
        return None;
      }
      r := NextSolarEvent(s.location.value, event, after);
    case OneOff(at) =>
      r := if at <= after then None else Some(at);
    case Daily(timeOfDay) =>
      r := Some(NextTimeAfter(ZoneOf(s), after, timeOfDay));
    case Custom(resolve) =>
      r := resolve(after);
  }

  /** At a fixed offset the next time of day is the first instant strictly after `after` whose
      local clock shows it, and it is at most a day away. */
  lemma NextTimeIsFirst(offset: int, after: int, timeOfDay: int)
    requires 0 <= timeOfDay < DAY
    ensures var z := Fixed(offset); var r := NextTimeAfter(z, after, timeOfDay);
      && after < r <= after + DAY
      && z.timeOf(r) == timeOfDay
      && forall x :: after < x < r ==> z.timeOf(x) != timeOfDay
  {
    var z := Fixed(offset);
    var r := NextTimeAfter(z, after, timeOfDay);
    var d := z.dateOf(after);
    assert (d + 1) * DAY == d * DAY + DAY;
    assert after + offset == d * DAY + z.timeOf(after);
    assert z.timeOf(r) == timeOfDay by {
      assert r + offset == d * DAY + timeOfDay || r + offset == (d + 1) * DAY + timeOfDay;
    }
    forall x | after < x < r ensures z.timeOf(x) != timeOfDay {
      DistinctWithinDay(x + offset, r + offset);
    }
  }

  lemma DistinctWithinDay(a: int, b: int)
    requires a < b < a + DAY
    ensures a % DAY != b % DAY
  {
    assert a == (a / DAY) * DAY + a % DAY && b == (b / DAY) * DAY + b % DAY;
  }

  /** Each date's window holds the instant at which its clock first shows the time. */
  ghost predicate ShowsWithinDate(z: Zone, timeOfDay: int) {
    forall d :: Midnight(z, d) <= z.wall(d, timeOfDay) < Midnight(z, d + 1)
  }

  /** In any such zone the result lies ahead, if and only if it is not the case that the clock shows
      less than the time although it has shown the time already today: that it was set back. */
  lemma NextTimeIsAheadExactly(z: Zone, after: int, timeOfDay: int)
    requires Regular(z) && ShowsWithinDate(z, timeOfDay)
    ensures NextTimeAfter(z, after, timeOfDay) > after <==>
      !(z.timeOf(after) < timeOfDay && z.wall(z.dateOf(after), timeOfDay) <= after)
  {
    assert after < Midnight(z, z.dateOf(after) + 1) <= z.wall(z.dateOf(after) + 1, timeOfDay);
  }

  /** The clocks are set back from 13:00 to 12:00 at noon UTC of date 0. */
  const SET_BACK: Zone := Zone(x => Shown(x) / DAY, x => Shown(x) % DAY, (d, t) => FirstShown(d * DAY + t))

  function Shown(x: int): int {
    if x < 12 * HOUR then x + HOUR else x
  }

  function FirstShown(local: int): int {
    if local - HOUR < 12 * HOUR then local - HOUR else local
  }

  lemma SetBackIsRegular()
    ensures Regular(SET_BACK)
  {
    forall d ensures Midnight(SET_BACK, d) < Midnight(SET_BACK, d + 1) {
      assert (d + 1) * DAY == d * DAY + DAY;
      assert Midnight(SET_BACK, d) == FirstShown(d * DAY) && Midnight(SET_BACK, d + 1) == FirstShown((d + 1) * DAY);
    }
    forall x ensures Midnight(SET_BACK, SET_BACK.dateOf(x)) <= x < Midnight(SET_BACK, SET_BACK.dateOf(x) + 1) {
      var d := Shown(x) / DAY;
      assert d * DAY <= Shown(x) < d * DAY + DAY && (d + 1) * DAY == d * DAY + DAY;
      assert d >= 1 ==> d * DAY >= DAY;
      assert d <= -1 ==> d * DAY <= -DAY;
    }
  }

  /** Half an hour after that, asked for 12:45, the schedule answers a moment already past. */
  lemma NextTimeGoesBack()
    ensures var after, timeOfDay := 12 * HOUR + 30 * MINUTE, 12 * HOUR + 45 * MINUTE;
      && SET_BACK.timeOf(after) == 12 * HOUR + 30 * MINUTE
      && NextTimeAfter(SET_BACK, after, timeOfDay) == 11 * HOUR + 45 * MINUTE
      && NextTimeAfter(SET_BACK, after, timeOfDay) < after
  {
    var after, timeOfDay := 12 * HOUR + 30 * MINUTE, 12 * HOUR + 45 * MINUTE;
    assert Shown(after) == after && SET_BACK.dateOf(after) == 0 && SET_BACK.timeOf(after) == after;
    assert SET_BACK.wall(0, timeOfDay) == FirstShown(0 * DAY + timeOfDay) == 11 * HOUR + 45 * MINUTE;
  }

  /** The schedule's clock is UTC plus `offset`: that of its location, else of its zone, else zero. */
  ghost predicate KeepsOffset(s: LazySchedule, offset: int) {
    && (s.location.Some? ==> s.location.value.zone == Fixed(offset))
    && (s.location.None? && s.tz.Some? ==> s.tz.value == Fixed(offset))
    && (s.location.None? && s.tz.None? ==> offset == 0)
  }

  /** What a clock that is UTC plus `offset` shows. */
  function ClockAt(offset: int, x: int): int {
    (x + offset) % DAY
  }

  /** A time of day resolves to the first instant after `after` at which that clock shows it, at most
      a day away. */
  lemma DailyResolvesToFirst(s: LazySchedule, offset: int, after: int, timeOfDay: int)
    requires s.target == Daily(timeOfDay) && 0 <= timeOfDay < DAY && KeepsOffset(s, offset)
    ensures ResolveAfter(s, after).Some?
    ensures var r := ResolveAfter(s, after).value;
      && after < r <= after + DAY
      && ClockAt(offset, r) == timeOfDay
      && forall x :: after < x < r ==> ClockAt(offset, x) != timeOfDay
  {
    NextTimeIsFirst(offset, after, timeOfDay);
    var z, r := Fixed(offset), ResolveAfter(s, after).value;
    assert ZoneOf(s) == z;
    assert r == NextTimeAfter(z, after, timeOfDay);
    forall x | after < x < r ensures ClockAt(offset, x) != timeOfDay {
      assert z.timeOf(x) != timeOfDay;
    }
  }

  /** A one-off target resolves to itself exactly while it lies ahead; a callable answers for itself. */
  lemma OthersResolve(s: LazySchedule, after: int, at: int)
    ensures s.target == OneOff(at) ==> (ResolveAfter(s, after) == Some(at) <==> at > after)
    ensures s.target == OneOff(at) ==> (ResolveAfter(s, after) == None <==> at <= after)
    ensures s.target.Custom? ==> ResolveAfter(s, after) == s.target.resolve(after)
  {
  }

  /** A solar target resolves to nothing without a location; with one, to the least event that the
      local dates from today on, for 400 days, resolve to after `after`, or to nothing when there is
      none. */
  lemma SolarResolves(s: LazySchedule, after: int)
    requires s.target.Solar?
    ensures s.location.None? ==> ResolveAfter(s, after) == None
    ensures s.location.Some? && Regular(s.location.value.zone) ==>
      LeastLater(s.location.value, s.target.event, after, s.location.value.zone.dateOf(after) + 400,
                 ResolveAfter(s, after))
    ensures s.location.Some? && ResolveAfter(s, after).Some? ==>
      exists u :: FallsOn(s.location.value, s.target.event, u, ResolveAfter(s, after).value)
  {
    if s.location.Some? {
      var place := s.location.value;
      if Regular(place.zone) {
        NextEventIsLeast(place, s.target.event, after);
      }
      NextEventFalls(place, s.target.event, after);
    }
  }

  /** Targets that the schedule resolves itself: a callable may answer anything, and a wall clock at
      an offset that changes may stand still. */
  ghost predicate OwnTarget(s: LazySchedule) {
    match s.target
    case Solar(_) => true
    case OneOff(_) => true
    case Daily(timeOfDay) => 0 <= timeOfDay < DAY && exists offset :: ZoneOf(s) == Fixed(offset)
    case Custom(_) => false
  }

  /** Whatever such a schedule resolves to lies strictly ahead. */
  lemma ResolvesLater(s: LazySchedule, after: int)
    requires OwnTarget(s) && ResolveAfter(s, after).Some?
    ensures ResolveAfter(s, after).value > after
  {
    match s.target
    case Solar(event) =>
      var place := s.location.value;
      var today := place.zone.dateOf(after);
      SearchIsLater(place, event, after, today, today + SEARCH_DAYS);
    case Daily(timeOfDay) =>
      var offset :| ZoneOf(s) == Fixed(offset);
      NextTimeIsFirst(offset, after, timeOfDay);
    case _ =>
  }
}
