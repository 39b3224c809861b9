/** Where and when a solar event falls: the search logic of `astro/math_engine.py`.
    The astronomy itself is a parameter: an optional offset from UTC midnight per UTC date. */
module SolarSearch {
  import opened IntSets
  import opened Options
  import opened TimeZones
  import opened Units

  /** `SolarEvent`/`SolarAngle`; Unresolved is an event that carries no altitude. */
  datatype SolarTarget = Noon | Crossing(altitude: int, rising: bool) | Unresolved

  datatype Location = Location(
    zone: Zone,
    crossing: (int, int, bool) -> Option<int>,
    transit: int -> int)

  const SEARCH_DAYS: nat := 400
  const PROBE_HOURS: seq<int> := [0, 6, 12, 18, 23]

  function UtcDate(x: int): int {
    x / DAY
  }

  /** The offset from UTC midnight at which the target falls for a UTC date, if it does. */
  function OffsetOn(place: Location, target: SolarTarget, utcDate: int): Option<int> {
    match target
    case Noon => Some(place.transit(utcDate))
    case Crossing(altitude, rising) => place.crossing(utcDate, altitude, rising)
    case Unresolved => None
  }

  function InstantOn(place: Location, target: SolarTarget, utcDate: int): Option<int> {
    match OffsetOn(place, target, utcDate)
    case None => None
    case Some(offset) => Some(utcDate * DAY + offset)
  }

  /** v is the target's event of a UTC date: as long after its midnight as the astronomy says. */
  predicate FallsOn(place: Location, target: SolarTarget, utcDate: int, v: int) {
    match target
    case Noon => v == utcDate * DAY + place.transit(utcDate)
    case Crossing(altitude, rising) => place.crossing(utcDate, altitude, rising) == Some(v - utcDate * DAY)
    case Unresolved => false
  }

  lemma InstantIsEvent(place: Location, target: SolarTarget, utcDate: int, v: int)
    ensures InstantOn(place, target, utcDate) == Some(v) <==> FallsOn(place, target, utcDate, v)
  {
  }

  /** The UTC date yields an instant within the local date's window. */
  predicate Hits(place: Location, target: SolarTarget, localDate: int, utcDate: int) {
    match InstantOn(place, target, utcDate)
    case None => false
    case Some(x) => Midnight(place.zone, localDate) <= x < Midnight(place.zone, localDate + 1)
  }

  ghost function Candidates(z: Zone, localDate: int): set<int> {
    {UtcDate(Midnight(z, localDate)), UtcDate(Midnight(z, localDate + 1))}
    + set h | h in PROBE_HOURS :: UtcDate(z.wall(localDate, h * HOUR))
  }

  /** utcDate is the first candidate that hits. */
  ghost predicate FirstHit(place: Location, target: SolarTarget, localDate: int, utcDate: int) {
    && utcDate in Candidates(place.zone, localDate)
    && Hits(place, target, localDate, utcDate)
    && forall e :: e in Candidates(place.zone, localDate) && e < utcDate ==> !Hits(place, target, localDate, e)
  }

  /** The event of a local date, or None for `SolarEventNotFoundError`. */
  ghost function DayEvent(place: Location, target: SolarTarget, localDate: int): (r: Option<int>)
    ensures r.Some? ==> Midnight(place.zone, localDate) <= r.value < Midnight(place.zone, localDate + 1)
  {
    if exists d :: FirstHit(place, target, localDate, d) then
      var d :| FirstHit(place, target, localDate, d);
      InstantOn(place, target, d)
    else None
  }

  method CandidateDates(z: Zone, localDate: int) returns (dates: set<int>)
    ensures dates == Candidates(z, localDate)
  {
    dates := {UtcDate(Midnight(z, localDate)), UtcDate(Midnight(z, localDate + 1))};
    ghost var ends := dates;
    for k := 0 to |PROBE_HOURS|
      invariant dates == ends + set h | h in PROBE_HOURS[..k] :: UtcDate(z.wall(localDate, h * HOUR))
    {
      assert PROBE_HOURS[..k + 1] == PROBE_HOURS[..k] + [PROBE_HOURS[k]];
      dates := dates + {UtcDate(z.wall(localDate, PROBE_HOURS[k] * HOUR))};
    }
    assert PROBE_HOURS[..|PROBE_HOURS|] == PROBE_HOURS;
  }

  /** `event_utc_datetime` and `solar_noon_utc_datetime`. */
  method EventOnDate(place: Location, target: SolarTarget, localDate: int) returns (r: Option<int>)
    ensures r == DayEvent(place, target, localDate)
  {
    var dates := CandidateDates(place.zone, localDate);
    ghost var all := dates;
    while |dates| > 0
      invariant dates <= all
      invariant forall e :: e in all && e !in dates ==> !Hits(place, target, localDate, e)
      decreases dates
    {
      ghost var least := LeastOf(dates);
      var d :| d in dates && forall e :: e in dates ==> d <= e;
      if Hits(place, target, localDate, d) {
        assert FirstHit(place, target, localDate, d);
        return InstantOn(place, target, d);
      }
      dates := dates - {d};
    }
    assert !exists d :: FirstHit(place, target, localDate, d);
    return None;
  }

  /** The search from `date` to `last`: the first day event after `after`. */
  ghost function Search(place: Location, target: SolarTarget, after: int, date: int, last: int): Option<int>
    decreases last - date + 1
  {
    if last < date then None
    else
      var event := DayEvent(place, target, date);
      if event.Some? && event.value > after then event else Search(place, target, after, date + 1, last)
  }

  ghost function NextEvent(place: Location, target: SolarTarget, after: int): Option<int> {
    var today := place.zone.dateOf(after);
    Search(place, target, after, today, today + SEARCH_DAYS)
  }

  /** `next_solar_event_utc`; None stands for its error. */
  method NextSolarEvent(place: Location, target: SolarTarget, after: int) returns (r: Option<int>)
    ensures r == NextEvent(place, target, after)
  {
    var startDate := place.zone.dateOf(after);
    ghost var last := startDate + SEARCH_DAYS;
    for offset := 0 to SEARCH_DAYS + 1
      invariant NextEvent(place, target, after) == Search(place, target, after, startDate + offset, last)
    {
      var candidate := EventOnDate(place, target, startDate + offset);
      if candidate.Some? && candidate.value > after {
        return candidate;
      }
    }
    return None;
  }

  lemma {:induction false} SearchIsLater(place: Location, target: SolarTarget, after: int, date: int, last: int)
    ensures Search(place, target, after, date, last).Some? ==> Search(place, target, after, date, last).value > after
    decreases last - date + 1
  {
    if date <= last {
      SearchIsLater(place, target, after, date + 1, last);
    }
  }

  /** The seven probes of a local date: its two midnights and five of its hours. */
  lemma SevenProbes(z: Zone, localDate: int, utcDate: int)
    ensures utcDate in Candidates(z, localDate) <==>
      || utcDate == z.wall(localDate, 0) / DAY || utcDate == z.wall(localDate + 1, 0) / DAY
      || utcDate == z.wall(localDate, 6 * HOUR) / DAY || utcDate == z.wall(localDate, 12 * HOUR) / DAY
      || utcDate == z.wall(localDate, 18 * HOUR) / DAY || utcDate == z.wall(localDate, 23 * HOUR) / DAY
  {
    assert PROBE_HOURS[0] == 0 && PROBE_HOURS[1] == 6 && PROBE_HOURS[2] == 12;
    assert PROBE_HOURS[3] == 18 && PROBE_HOURS[4] == 23;
    if utcDate in Candidates(z, localDate) {
      assert z.wall(localDate, 0 * HOUR) == z.wall(localDate, 0);
    }
  }

  lemma {:induction false} SearchFalls(place: Location, target: SolarTarget, after: int, date: int, last: int)
    ensures var r := Search(place, target, after, date, last);
      r.Some? ==> exists u :: FallsOn(place, target, u, r.value)
    decreases last - date + 1
  {
    if date <= last {
      var event := DayEvent(place, target, date);
      if event.Some? {
        var u :| FirstHit(place, target, date, u) && InstantOn(place, target, u) == event;
        InstantIsEvent(place, target, u, event.value);
      }
      SearchFalls(place, target, after, date + 1, last);
    }
  }

  /** What the search answers is the target's event of some UTC date: the crossing in the direction
      asked for, or the transit; an event without an altitude resolves to nothing. */
  lemma NextEventFalls(place: Location, target: SolarTarget, after: int)
    ensures var r := NextEvent(place, target, after);
      r.Some? ==> r.value > after && exists u :: FallsOn(place, target, u, r.value)
    ensures target == Unresolved ==> NextEvent(place, target, after) == None
  {
    var today := place.zone.dateOf(after);
    SearchFalls(place, target, after, today, today + SEARCH_DAYS);
    SearchIsLater(place, target, after, today, today + SEARCH_DAYS);
  }

  /** v is the event of some local date up to `last` and comes after `after`. */
  ghost predicate Later(place: Location, target: SolarTarget, after: int, last: int, v: int) {
    v > after && exists d :: d <= last && DayEvent(place, target, d) == Some(v)
  }

  /** r is the least such instant, or None when there is none. */
  ghost predicate LeastLater(place: Location, target: SolarTarget, after: int, last: int, r: Option<int>) {
    match r
    case None =>
      forall v :: !Later(place, target, after, last, v)
    case Some(x) =>
      (Later(place, target, after, last, x)
       && forall v :: Later(place, target, after, last, v) ==> x <= v)
  }

  /** No earlier date has an event after `after`. */
  ghost predicate NoneBefore(place: Location, target: SolarTarget, after: int, date: int) {
    forall d :: d < date && DayEvent(place, target, d).Some? ==> DayEvent(place, target, d).value <= after
  }

  /** An event after `after` is not before that of the first date that has one. */
  lemma EventsFollowDates(place: Location, target: SolarTarget, after: int, date: int, d: int, x: int, v: int)
    requires Regular(place.zone) && NoneBefore(place, target, after, date)
    requires DayEvent(place, target, date) == Some(x) && DayEvent(place, target, d) == Some(v) && v > after
    ensures x <= v
  {
    if date + 1 < d {
      MidnightsAscend(place.zone, date + 1, d);
    }
  }

  lemma FirstEventIsLeast(place: Location, target: SolarTarget, after: int, date: int, last: int, x: int)
    requires Regular(place.zone) && NoneBefore(place, target, after, date) && date <= last
    requires DayEvent(place, target, date) == Some(x) && x > after
    ensures LeastLater(place, target, after, last, Some(x))
  {
    forall v | Later(place, target, after, last, v) ensures x <= v {
      var d :| d <= last && DayEvent(place, target, d) == Some(v);
      EventsFollowDates(place, target, after, date, d, x, v);
    }
  }

  lemma {:induction false} SearchFindsLeast(place: Location, target: SolarTarget, after: int, date: int, last: int)
    requires Regular(place.zone) && NoneBefore(place, target, after, date)
    ensures LeastLater(place, target, after, last, Search(place, target, after, date, last))
    decreases last - date + 1
  {
    if date <= last {
      var event := DayEvent(place, target, date);
      if event.Some? && event.value > after {
        FirstEventIsLeast(place, target, after, date, last, event.value);
      } else {
        SearchFindsLeast(place, target, after, date + 1, last);
      }
    }
  }

  /** No date before today's has an event after `after`. */
  lemma PastIsOver(place: Location, target: SolarTarget, after: int)
    requires Regular(place.zone)
    ensures NoneBefore(place, target, after, place.zone.dateOf(after))
  {
    var today := place.zone.dateOf(after);
    forall d | d < today && DayEvent(place, target, d).Some? ensures DayEvent(place, target, d).value <= after {
      if d + 1 < today {
        MidnightsAscend(place.zone, d + 1, today);
      }
    }
  }

  /** The result is the least of all day events strictly after `after` up to the last searched
      date, and the search fails exactly when there is none: no earlier date can hold one. */
  lemma NextEventIsLeast(place: Location, target: SolarTarget, after: int)
    requires Regular(place.zone)
    ensures LeastLater(place, target, after, place.zone.dateOf(after) + 400, NextEvent(place, target, after))
  {
    var today := place.zone.dateOf(after);
    PastIsOver(place, target, after);
    SearchFindsLeast(place, target, after, today, today + SEARCH_DAYS);
  }

  // ------------------------------------------------------ what the probes see

  /** The UTC time of day of every local midnight at a fixed offset. */
  function MidnightTime(offset: int): int {
    (-offset) % DAY
  }

  /** The UTC date that holds the start of a local date at a fixed offset. */
  function FirstProbe(offset: int, localDate: int): int {
    UtcDate(Midnight(Fixed(offset), localDate))
  }

  lemma MidnightSplits(offset: int, localDate: int)
    ensures Midnight(Fixed(offset), localDate) == FirstProbe(offset, localDate) * DAY + MidnightTime(offset)
    ensures Midnight(Fixed(offset), localDate + 1) == Midnight(Fixed(offset), localDate) + DAY
  {
    assert (localDate + 1) * DAY == localDate * DAY + DAY;
  }

  /** At a fixed offset all seven probes fall on two UTC dates. */
  lemma ProbesAreTwoDates(offset: int, localDate: int)
    ensures Candidates(Fixed(offset), localDate) ==
      {FirstProbe(offset, localDate), FirstProbe(offset, localDate) + 1}
  {
    var z, d := Fixed(offset), FirstProbe(offset, localDate);
    MidnightSplits(offset, localDate);
    forall h | h in PROBE_HOURS ensures UtcDate(z.wall(localDate, h * HOUR)) in {d, d + 1} {
      assert 0 <= h <= 23;
      assert z.wall(localDate, h * HOUR) == Midnight(z, localDate) + h * HOUR;
    }
  }

  /** Within a day of the UTC time of local midnight, on either side. */
  predicate InReach(offset: int, eventOffset: int) {
    MidnightTime(offset) - DAY <= eventOffset < MidnightTime(offset) + DAY
  }

  /** The UTC date whose event falls on a local date is probed for it if and only if the event's
      offset from its own UTC midnight is in reach. */
  lemma HitIsProbedExactly(place: Location, target: SolarTarget, offset: int, localDate: int, utcDate: int)
    requires place.zone == Fixed(offset) && Hits(place, target, localDate, utcDate)
    ensures utcDate in Candidates(place.zone, localDate) <==> InReach(offset, OffsetOn(place, target, utcDate).value)
  {
    var d, x := FirstProbe(offset, localDate), OffsetOn(place, target, utcDate).value;
    MidnightSplits(offset, localDate);
    ProbesAreTwoDates(offset, localDate);
    assert d * DAY + MidnightTime(offset) <= utcDate * DAY + x < (d + 1) * DAY + MidnightTime(offset);
    if utcDate < d {
      assert (utcDate + 1) * DAY <= d * DAY;
    }
    if utcDate > d + 1 {
      assert (d + 2) * DAY <= utcDate * DAY;
    }
  }

  /** The least probed hit is the day's event. */
  lemma SomeProbedHit(place: Location, target: SolarTarget, localDate: int, utcDate: int)
    requires Hits(place, target, localDate, utcDate) && utcDate in Candidates(place.zone, localDate)
    ensures DayEvent(place, target, localDate).Some?
  {
    var hits := set d | d in Candidates(place.zone, localDate) && Hits(place, target, localDate, d);
    assert utcDate in hits;
    var first := LeastOf(hits);
    forall e | e in Candidates(place.zone, localDate) && e < first ensures !Hits(place, target, localDate, e) {
      assert e !in hits;
    }
    assert FirstHit(place, target, localDate, first);
  }

  /** v is the event of a UTC date, in reach, and on the local date by a clock that is UTC plus offset. */
  predicate FallsInReach(place: Location, target: SolarTarget, offset: int, localDate: int, utcDate: int, v: int) {
    && FallsOn(place, target, utcDate, v) && InReach(offset, v - utcDate * DAY)
    && localDate * DAY - offset <= v < localDate * DAY - offset + DAY
  }

  /** At a fixed offset a local date resolves if and only if an event in reach falls on it: one that
      the date has out of reach is missed. */
  lemma DateResolvesExactly(place: Location, target: SolarTarget, offset: int, localDate: int)
    requires place.zone == Fixed(offset)
    ensures DayEvent(place, target, localDate).Some? <==>
      exists u :: Hits(place, target, localDate, u) && InReach(offset, OffsetOn(place, target, u).value)
    ensures DayEvent(place, target, localDate).Some? <==>
      exists u, v :: FallsInReach(place, target, offset, localDate, u, v)
  {
    MidnightSplits(offset, localDate);
    if u, v :| FallsInReach(place, target, offset, localDate, u, v) {
      InstantIsEvent(place, target, u, v);
      assert Hits(place, target, localDate, u);
    }
    if DayEvent(place, target, localDate).Some? {
      var u :| FirstHit(place, target, localDate, u);
      HitIsProbedExactly(place, target, offset, localDate, u);
      assert Hits(place, target, localDate, u) && InReach(offset, OffsetOn(place, target, u).value);
      InstantIsEvent(place, target, u, InstantOn(place, target, u).value);
      assert FallsInReach(place, target, offset, localDate, u, InstantOn(place, target, u).value);
    }
    if u :| Hits(place, target, localDate, u) && InReach(offset, OffsetOn(place, target, u).value) {
      HitIsProbedExactly(place, target, offset, localDate, u);
      SomeProbedHit(place, target, localDate, u);
    }
  }

  /** A place far west whose zone was left at UTC: the sun sets more than a day after the midnight
      that begins the UTC date it is computed for. */
  const WEST: Location := Location(UTC, (utcDate, altitude, rising) => Some(DAY + 5 * MINUTE), utcDate => 20 * HOUR)

  lemma WestHasNoDayEvent(altitude: int, rising: bool, localDate: int)
    ensures Hits(WEST, Crossing(altitude, rising), localDate, localDate - 1)
    ensures DayEvent(WEST, Crossing(altitude, rising), localDate) == None
  {
    var target := Crossing(altitude, rising);
    assert (localDate - 1) * DAY == localDate * DAY - DAY && (localDate + 1) * DAY == localDate * DAY + DAY;
    assert InstantOn(WEST, target, localDate - 1) == Some(localDate * DAY + 5 * MINUTE);
    forall u ensures !(Hits(WEST, target, localDate, u) && InReach(0, OffsetOn(WEST, target, u).value)) {
      assert OffsetOn(WEST, target, u) == Some(DAY + 5 * MINUTE) && MidnightTime(0) == 0;
    }
    DateResolvesExactly(WEST, target, 0, localDate);
  }

  lemma {:induction false} WestSearchFails(altitude: int, rising: bool, after: int, date: int, last: int)
    ensures Search(WEST, Crossing(altitude, rising), after, date, last) == None
    decreases last - date + 1
  {
    if date <= last {
      WestHasNoDayEvent(altitude, rising, date);
      WestSearchFails(altitude, rising, after, date + 1, last);
    }
  }

  /** There the sun sets on every local date, and the search fails whenever it is asked. */
  lemma WesternSunsetsAreMissed(altitude: int, rising: bool, localDate: int, after: int)
    ensures exists u :: Hits(WEST, Crossing(altitude, rising), localDate, u)
    ensures NextEvent(WEST, Crossing(altitude, rising), after) == None
  {
    WestHasNoDayEvent(altitude, rising, localDate);
    var today := WEST.zone.dateOf(after);
    WestSearchFails(altitude, rising, after, today, today + SEARCH_DAYS);
  }

  // ------------------------------------------------------------- true events

  /** utcDate has its event, and the search finds it: it is the first probed one of the local date
      on which it falls. */
  ghost predicate Seen(place: Location, target: SolarTarget, utcDate: int) {
    && InstantOn(place, target, utcDate).Some?
    && FirstHit(place, target, place.zone.dateOf(InstantOn(place, target, utcDate).value), utcDate)
  }

  /** Of the two probed dates the second hits with an offset below the UTC time of local midnight. */
  lemma WhichProbe(place: Location, target: SolarTarget, offset: int, localDate: int, utcDate: int)
    requires place.zone == Fixed(offset) && Hits(place, target, localDate, utcDate)
    requires utcDate in Candidates(place.zone, localDate)
    ensures var d := FirstProbe(offset, localDate);
      if OffsetOn(place, target, utcDate).value < MidnightTime(offset) then utcDate == d + 1 else utcDate == d
  {
    var d, x := FirstProbe(offset, localDate), OffsetOn(place, target, utcDate).value;
    ProbesAreTwoDates(offset, localDate);
    MidnightSplits(offset, localDate);
    assert (d + 1) * DAY == d * DAY + DAY;
  }

  /** A probed hit is the first one unless it is the later of two and the other one hits too. */
  lemma FirstOfTwo(place: Location, target: SolarTarget, localDate: int, d: int, utcDate: int, second: bool)
    requires Candidates(place.zone, localDate) == {d, d + 1} && Hits(place, target, localDate, utcDate)
    requires utcDate == if second then d + 1 else d
    ensures FirstHit(place, target, localDate, utcDate) <==> (second ==> !Hits(place, target, localDate, utcDate - 1))
  {
  }

  lemma ProbedIsSeenExactly(place: Location, target: SolarTarget, offset: int, localDate: int, utcDate: int)
    requires place.zone == Fixed(offset) && Hits(place, target, localDate, utcDate)
    requires utcDate in Candidates(place.zone, localDate)
    ensures FirstHit(place, target, localDate, utcDate) <==>
      (OffsetOn(place, target, utcDate).value < MidnightTime(offset) ==> !Hits(place, target, localDate, utcDate - 1))
  {
    ProbesAreTwoDates(offset, localDate);
    WhichProbe(place, target, offset, localDate, utcDate);
    FirstOfTwo(place, target, localDate, FirstProbe(offset, localDate), utcDate,
               OffsetOn(place, target, utcDate).value < MidnightTime(offset));
  }

  /** At a fixed offset an event is seen if and only if it is in reach and, when it falls on the later
      of the two probed UTC dates, the date before has none on the same local date. */
  lemma SeenExactly(place: Location, target: SolarTarget, offset: int, utcDate: int)
    requires place.zone == Fixed(offset) && InstantOn(place, target, utcDate).Some?
    ensures var eventOffset := OffsetOn(place, target, utcDate).value;
      var localDate := place.zone.dateOf(InstantOn(place, target, utcDate).value);
      Seen(place, target, utcDate) <==>
        InReach(offset, eventOffset)
        && (eventOffset < MidnightTime(offset) ==> !Hits(place, target, localDate, utcDate - 1))
  {
    var localDate := place.zone.dateOf(InstantOn(place, target, utcDate).value);
    FixedIsRegular(offset);
    assert Hits(place, target, localDate, utcDate);
    HitIsProbedExactly(place, target, offset, localDate, utcDate);
    if utcDate in Candidates(place.zone, localDate) {
      ProbedIsSeenExactly(place, target, offset, localDate, utcDate);
    }
  }

  /** v is an event after `after`, of whichever UTC date, on a local date up to `last`. */
  ghost predicate TrulyLater(place: Location, target: SolarTarget, after: int, last: int, v: int) {
    v > after && place.zone.dateOf(v) <= last && exists u :: FallsOn(place, target, u, v)
  }

  ghost predicate LeastTrulyLater(place: Location, target: SolarTarget, after: int, last: int, r: Option<int>) {
    match r
    case None => forall v :: !TrulyLater(place, target, after, last, v)
    case Some(x) =>
      (TrulyLater(place, target, after, last, x)
       && forall v :: TrulyLater(place, target, after, last, v) ==> x <= v)
  }

  lemma SeenIsLater(place: Location, target: SolarTarget, after: int, last: int, u: int, v: int)
    requires Regular(place.zone) && InstantOn(place, target, u) == Some(v) && Seen(place, target, u)
    requires TrulyLater(place, target, after, last, v)
    ensures Later(place, target, after, last, v)
  {
    var date := place.zone.dateOf(v);
    forall d | FirstHit(place, target, date, d) ensures d == u {
    }
    assert DayEvent(place, target, date) == Some(v);
  }

  lemma LaterIsTrulyLater(place: Location, target: SolarTarget, after: int, last: int, v: int)
    requires Regular(place.zone) && Later(place, target, after, last, v)
    ensures TrulyLater(place, target, after, last, v)
  {
    var date :| date <= last && DayEvent(place, target, date) == Some(v);
    DateIsWindow(place.zone, v, date);
    var u :| FirstHit(place, target, date, u) && InstantOn(place, target, u) == Some(v);
    InstantIsEvent(place, target, u, v);
  }

  /** An event that the search does not see, with none that it sees between `after` and it. */
  ghost predicate Overlooked(place: Location, target: SolarTarget, after: int, last: int, u: int) {
    && InstantOn(place, target, u).Some? && !Seen(place, target, u)
    && TrulyLater(place, target, after, last, InstantOn(place, target, u).value)
    && forall e :: Seen(place, target, e) ==>
      !(after < InstantOn(place, target, e).value <= InstantOn(place, target, u).value)
  }

  lemma DatesAscend(z: Zone, x: int, y: int)
    requires Regular(z) && x <= y
    ensures z.dateOf(x) <= z.dateOf(y)
  {
    DateIsWindow(z, x, z.dateOf(x));
    DateIsWindow(z, y, z.dateOf(y));
    if z.dateOf(y) + 1 < z.dateOf(x) {
      MidnightsAscend(z, z.dateOf(y) + 1, z.dateOf(x));
    }
  }

  lemma LaterIsSeen(place: Location, target: SolarTarget, after: int, last: int, v: int) returns (e: int)
    requires Regular(place.zone) && Later(place, target, after, last, v)
    ensures Seen(place, target, e) && InstantOn(place, target, e) == Some(v)
  {
    var date :| date <= last && DayEvent(place, target, date) == Some(v);
    DateIsWindow(place.zone, v, date);
    e :| FirstHit(place, target, date, e) && InstantOn(place, target, e) == Some(v);
  }

  /** Before an event stands a seen one, when the search answers the least event. */
  lemma LeastIsSeen(place: Location, target: SolarTarget, after: int, last: int, r: Option<int>, u: int)
    returns (e: int)
    requires Regular(place.zone)
    requires LeastLater(place, target, after, last, r) && LeastTrulyLater(place, target, after, last, r)
    requires InstantOn(place, target, u).Some?
    requires TrulyLater(place, target, after, last, InstantOn(place, target, u).value)
    ensures Seen(place, target, e) && after < InstantOn(place, target, e).value <= InstantOn(place, target, u).value
  {
    e := LaterIsSeen(place, target, after, last, r.value);
  }

  lemma NoneOverlookedIsLeast(place: Location, target: SolarTarget, after: int, last: int, r: Option<int>)
    requires Regular(place.zone) && LeastLater(place, target, after, last, r)
    requires forall u :: !Overlooked(place, target, after, last, u)
    ensures LeastTrulyLater(place, target, after, last, r)
  {
    if r.Some? {
      LaterIsTrulyLater(place, target, after, last, r.value);
    }
    forall v | TrulyLater(place, target, after, last, v) ensures r.Some? && r.value <= v {
      var x := LaterNotAfter(place, target, after, last, v);
    }
  }

  lemma SeenFalls(place: Location, target: SolarTarget, after: int, last: int, e: int, v: int) returns (x: int)
    requires Regular(place.zone) && Seen(place, target, e) && after < InstantOn(place, target, e).value <= v
    requires place.zone.dateOf(v) <= last
    ensures x <= v && Later(place, target, after, last, x)
  {
    x := InstantOn(place, target, e).value;
    InstantIsEvent(place, target, e, x);
    DatesAscend(place.zone, x, v);
    SeenIsLater(place, target, after, last, e, x);
  }

  /** If none is overlooked, the search's own events reach as far down as any. */
  lemma LaterNotAfter(place: Location, target: SolarTarget, after: int, last: int, v: int) returns (x: int)
    requires Regular(place.zone) && TrulyLater(place, target, after, last, v)
    requires forall u :: !Overlooked(place, target, after, last, u)
    ensures x <= v && Later(place, target, after, last, x)
  {
    var u :| FallsOn(place, target, u, v);
    InstantIsEvent(place, target, u, v);
    var e := SeenNotAfter(place, target, after, last, u);
    x := SeenFalls(place, target, after, last, e, v);
  }

  /** An event that is not overlooked is seen, or one between `after` and it is. */
  lemma SeenNotAfter(place: Location, target: SolarTarget, after: int, last: int, u: int) returns (e: int)
    requires InstantOn(place, target, u).Some? && !Overlooked(place, target, after, last, u)
    requires TrulyLater(place, target, after, last, InstantOn(place, target, u).value)
    ensures Seen(place, target, e) && after < InstantOn(place, target, e).value <= InstantOn(place, target, u).value
  {
    if Seen(place, target, u) {
      e := u;
    } else {
      e :| Seen(place, target, e) && after < InstantOn(place, target, e).value <= InstantOn(place, target, u).value;
    }
  }

  /** The search answers the least event there is, or that there is none, if and only if it overlooks
      none. */
  lemma NextEventIsTrueExactly(place: Location, target: SolarTarget, after: int)
    requires Regular(place.zone)
    ensures var last := place.zone.dateOf(after) + 400;
      LeastTrulyLater(place, target, after, last, NextEvent(place, target, after)) <==>
      forall u :: !Overlooked(place, target, after, last, u)
  {
    var last, r := place.zone.dateOf(after) + SEARCH_DAYS, NextEvent(place, target, after);
    NextEventIsLeast(place, target, after);
    if LeastTrulyLater(place, target, after, last, r) {
      forall u ensures !Overlooked(place, target, after, last, u) {
        var x := InstantOn(place, target, u);
        if x.Some? && TrulyLater(place, target, after, last, x.value) {
          var e := LeastIsSeen(place, target, after, last, r, u);
        }
      }
    }
    if forall u :: !Overlooked(place, target, after, last, u) {
      NoneOverlookedIsLeast(place, target, after, last, r);
    }
  }

  /** When every event is in reach of a fixed offset and no local date has two, none is overlooked. */
  lemma NextEventIsTrue(place: Location, target: SolarTarget, offset: int, after: int)
    requires place.zone == Fixed(offset)
    requires forall u :: OffsetOn(place, target, u).Some? ==> InReach(offset, OffsetOn(place, target, u).value)
    requires forall u, date :: Hits(place, target, date, u) ==> !Hits(place, target, date, u - 1)
    ensures var last := place.zone.dateOf(after) + 400;
      LeastTrulyLater(place, target, after, last, NextEvent(place, target, after))
  {
    FixedIsRegular(offset);
    forall u | InstantOn(place, target, u).Some? ensures Seen(place, target, u) {
      SeenExactly(place, target, offset, u);
      assert Hits(place, target, place.zone.dateOf(InstantOn(place, target, u).value), u);
    }
    NextEventIsTrueExactly(place, target, after);
  }

  /** A place whose sunrise passes midnight UTC from one date to the next: a minute after it up to
      date 0, a minute before it from then on. */
  const DRIFT: Location :=
    Location(UTC, (utcDate, altitude, rising) => Some(if utcDate <= 0 then MINUTE else -MINUTE), utcDate => 6 * HOUR)

  /** There the second sunrise of date 0 is skipped: asked after the first, the search answers with
      the one a day later. */
  lemma SecondSunriseIsSkipped(altitude: int)
    ensures var target := Crossing(altitude, true);
      && TrulyLater(DRIFT, target, MINUTE, SEARCH_DAYS, DAY - MINUTE)
      && NextEvent(DRIFT, target, MINUTE) == Some(2 * DAY - MINUTE)
  {
    var target := Crossing(altitude, true);
    assert FallsOn(DRIFT, target, 1, DAY - MINUTE);
    DriftEvent(target, 0, 0);
    DriftEvent(target, 1, 2);
    assert Search(DRIFT, target, MINUTE, 0, SEARCH_DAYS) == Search(DRIFT, target, MINUTE, 1, SEARCH_DAYS);
  }

  lemma DriftEvent(target: SolarTarget, localDate: int, utcDate: int)
    requires target.Crossing? && (localDate == utcDate == 0 || (localDate == 1 && utcDate == 2))
    ensures DayEvent(DRIFT, target, localDate) == InstantOn(DRIFT, target, utcDate)
  {
    ProbesAreTwoDates(0, localDate);
    assert FirstProbe(0, localDate) == localDate;
    assert FirstHit(DRIFT, target, localDate, utcDate);
    forall d | FirstHit(DRIFT, target, localDate, d) ensures d == utcDate {
    }
  }

  /** An ordinary place in zone UTC: the sun rises at 6, stands highest at 12 and sets at 18. */
  const ORDINARY: Location :=
    Location(UTC, (utcDate, altitude, rising) => Some(if rising then 6 * HOUR else 18 * HOUR), utcDate => 12 * HOUR)

  lemma OrdinaryEvent(target: SolarTarget, time: int)
    requires target == Noon || target.Crossing?
    requires time == if target == Noon then 12 * HOUR else if target.rising then 6 * HOUR else 18 * HOUR
    ensures DayEvent(ORDINARY, target, 0) == Some(time) && NextEvent(ORDINARY, target, 0) == Some(time)
  {
    ProbesAreTwoDates(0, 0);
    assert FirstProbe(0, 0) == 0 && FirstHit(ORDINARY, target, 0, 0);
    forall d | FirstHit(ORDINARY, target, 0, d) ensures d == 0 {
    }
  }

  /** Asked at midnight, it answers each of them at its own hour of that day. */
  lemma OrdinaryDay(altitude: int)
    ensures NextEvent(ORDINARY, Crossing(altitude, true), 0) == Some(6 * HOUR)
    ensures NextEvent(ORDINARY, Noon, 0) == Some(12 * HOUR)
    ensures NextEvent(ORDINARY, Crossing(altitude, false), 0) == Some(18 * HOUR)
  {
    OrdinaryEvent(Crossing(altitude, true), 6 * HOUR);
    OrdinaryEvent(Noon, 12 * HOUR);
    OrdinaryEvent(Crossing(altitude, false), 18 * HOUR);
  }
}
