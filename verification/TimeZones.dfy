/** Instants are microseconds of UTC; a local calendar maps them to dates and wall clocks. */
module TimeZones {
  import opened Units

  /** `dateOf`, `timeOf`: the local date and the time of day of an instant;
      `wall`: the instant of a local date and time of day (`datetime.combine`). */
  datatype Zone = Zone(dateOf: int -> int, timeOf: int -> int, wall: (int, int) -> int)

  /** `datetime.timezone(offset)`: the local clock is UTC plus a constant. */
  function Fixed(offset: int): Zone {
    Zone(x => (x + offset) / DAY, x => (x + offset) % DAY, (d, t) => d * DAY + t - offset)
  }

  const UTC: Zone := Fixed(0)

  function Midnight(z: Zone, date: int): int {
    z.wall(date, 0)
  }

  /** Local midnights ascend and cut the instants into the local dates. */
  ghost predicate Regular(z: Zone) {
    && (forall d :: Midnight(z, d) < Midnight(z, d + 1))
    && (forall x :: Midnight(z, z.dateOf(x)) <= x < Midnight(z, z.dateOf(x) + 1))
  }

  lemma FixedIsRegular(offset: int)
    ensures Regular(Fixed(offset))
  {
    var z := Fixed(offset);
    forall d ensures Midnight(z, d) < Midnight(z, d + 1) {
      assert (d + 1) * DAY == d * DAY + DAY;
    }
    forall x ensures Midnight(z, z.dateOf(x)) <= x < Midnight(z, z.dateOf(x) + 1) {
      var d := z.dateOf(x);
      assert (d + 1) * DAY == d * DAY + DAY;
    }
  }

  lemma {:induction false} MidnightsAscend(z: Zone, d: int, e: int)
    requires Regular(z) && d < e
    ensures Midnight(z, d) < Midnight(z, e)
    decreases e - d
  {
    if d + 1 < e {
      MidnightsAscend(z, d + 1, e);
    }
  }

  /** An instant is on a local date exactly when it lies in that date's window. */
  lemma DateIsWindow(z: Zone, x: int, d: int)
    requires Regular(z)
    ensures z.dateOf(x) == d <==> Midnight(z, d) <= x < Midnight(z, d + 1)
  {
    var e := z.dateOf(x);
    if d < e && d + 1 != e {
      MidnightsAscend(z, d + 1, e);
    }
    if e < d && e + 1 != d {
      MidnightsAscend(z, e + 1, d);
    }
  }
}
