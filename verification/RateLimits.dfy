/** The three-tier sliding-window limiter (`integrations/rate_limit.py`): pruned deques that answer
    like the full log of accepted requests, and a bound on every window of every run. */
module RateLimits {
  import opened Counting

  /** At most maxCalls requests per period. */
  datatype Tier = Tier(maxCalls: int, period: real)

  /** `_prune`: drops from the front what has left the window. */
  function Pruned(window: seq<real>, now: real, period: real): seq<real> {
    if window != [] && now - window[0] >= period then Pruned(window[1..], now, period) else window
  }

  predicate Allowed(tiers: seq<Tier>, log: seq<real>, now: real) {
    forall k :: 0 <= k < |tiers| ==> |Pruned(log, now, tiers[k].period)| < tiers[k].maxCalls
  }

  /** The log of accepted requests after one more request. */
  function Grown(tiers: seq<Tier>, log: seq<real>, now: real): seq<real> {
    if Allowed(tiers, log, now) then log + [now] else log
  }

  /** The log after requests at the given times. */
  function LogAfter(tiers: seq<Tier>, times: seq<real>): seq<real> {
    if times == [] then []
    else Grown(tiers, LogAfter(tiers, times[..|times| - 1]), times[|times| - 1])
  }

  ghost predicate Ascending(s: seq<real>) {
    forall i, j :: 0 <= i <= j < |s| ==> s[i] <= s[j]
  }

  ghost predicate NotAfter(s: seq<real>, t: real) {
    forall i :: 0 <= i < |s| ==> s[i] <= t
  }

  /** The times of the requests that were answered with yes. */
  function Accepted(times: seq<real>, answers: seq<bool>): seq<real>
    requires |answers| == |times|
  {
    if times == [] then []
    else
      var n := |times| - 1;
      Accepted(times[..n], answers[..n]) + if answers[n] then [times[n]] else []
  }

  /** The answer to request i is given from the log of the requests before it. */
  predicate AnsweredFromLog(tiers: seq<Tier>, times: seq<real>, i: nat, ok: bool)
    requires i < |times|
  {
    ok == Allowed(tiers, LogAfter(tiers, times[..i]), times[i])
  }

  ghost predicate FromLog(tiers: seq<Tier>, times: seq<real>, answers: seq<bool>) {
    && |answers| <= |times|
    && forall i :: 0 <= i < |answers| ==> AnsweredFromLog(tiers, times, i, answers[i])
  }

  lemma LogGrows(tiers: seq<Tier>, times: seq<real>, i: nat)
    requires i < |times|
    ensures LogAfter(tiers, times[..i + 1]) == Grown(tiers, LogAfter(tiers, times[..i]), times[i])
  {
    assert times[..i + 1][..i] == times[..i];
  }

  lemma {:induction false} AnswersAreLog(tiers: seq<Tier>, times: seq<real>, answers: seq<bool>)
    requires |answers| == |times| && FromLog(tiers, times, answers)
    ensures LogAfter(tiers, times) == Accepted(times, answers)
  {
    if times != [] {
      var n := |times| - 1;
      forall i | 0 <= i < n ensures AnsweredFromLog(tiers, times[..n], i, answers[..n][i]) {
        assert times[..n][..i] == times[..i];
        assert AnsweredFromLog(tiers, times, i, answers[i]);
      }
      assert AnsweredFromLog(tiers, times, n, answers[n]);
      AnswersAreLog(tiers, times[..n], answers[..n]);
    }
  }

  class OpenMeteoRateLimiter {
    const tiers: seq<Tier>
    var windows: seq<seq<real>>
    /** All accepted requests, and the latest reading of the clock. */
    ghost var log: seq<real>
    ghost var latest: real

    ghost predicate Valid() reads this {
      && |tiers| == |windows| == 3
      && tiers[0].period == 60.0 && tiers[1].period == 3600.0 && tiers[2].period == 86400.0
      && Ascending(log) && NotAfter(log, latest)
      && (forall k :: 0 <= k < 3 ==> windows[k] == Pruned(log, latest, tiers[k].period))
    }

    /** `since` is any moment the clock has reached. */
    constructor (ghost since: real, maxPerMinute: int := 500, maxPerHour: int := 4500, maxPerDay: int := 9000)
      ensures Valid() && log == [] && latest == since
      ensures tiers == [Tier(maxPerMinute, 60.0), Tier(maxPerHour, 3600.0), Tier(maxPerDay, 86400.0)]
    {
      tiers := [Tier(maxPerMinute, 60.0), Tier(maxPerHour, 3600.0), Tier(maxPerDay, 86400.0)];
      windows := [[], [], []];
      log, latest := [], since;
    }

    method Prune(k: nat, now: real)
      requires k < |windows| && k < |tiers|
      modifies this`windows
      ensures windows == old(windows)[k := Pruned(old(windows[k]), now, tiers[k].period)]
    {
      while |windows[k]| > 0 && now - windows[k][0] >= tiers[k].period
        invariant |windows| == |old(windows)| && windows == old(windows)[k := windows[k]]
        invariant Pruned(windows[k], now, tiers[k].period) == Pruned(old(windows[k]), now, tiers[k].period)
        decreases |windows[k]|
      {
        windows := windows[k := windows[k][1..]];
      }
    }

    method PruneAll(now: real)
      requires Valid() && latest <= now
      modifies this`windows, this`latest
      ensures Valid() && latest == now
    {
      for k := 0 to 3
        invariant |windows| == 3 && latest == old(latest)
        invariant forall i :: 0 <= i < k ==> windows[i] == Pruned(log, now, tiers[i].period)
        invariant forall i :: k <= i < 3 ==> windows[i] == Pruned(log, latest, tiers[i].period)
      {
        PrunedTwice(log, latest, now, tiers[k].period);
        Prune(k, now);
      }
      latest := now;
    }

    /** `check_and_acquire`: answers as the full log would; a refusal leaves no trace in it. */
    method CheckAndAcquire(now: real) returns (ok: bool)
      requires Valid() && latest <= now
      modifies this
      ensures Valid() && latest == now
      ensures ok == Allowed(tiers, old(log), now)
      ensures log == Grown(tiers, old(log), now) == if ok then old(log) + [now] else old(log)
    {
      PruneAll(now);
      if exists k :: 0 <= k < 3 && |windows[k]| >= tiers[k].maxCalls {
        return false;
      }
      windows := [windows[0] + [now], windows[1] + [now], windows[2] + [now]];
      forall k | 0 <= k < 3 ensures windows[k] == Pruned(log + [now], now, tiers[k].period) {
        PrunedAppend(log, now, tiers[k].period);
      }
      log := log + [now];
      return true;
    }

    /** Requests one after the other: the accepted ones are the log of the run. */
    method Serve(times: seq<real>) returns (answers: seq<bool>)
      requires Valid() && log == [] && Ascending(times) && (times != [] ==> latest <= times[0])
      modifies this
      ensures Valid() && |answers| == |times| && log == LogAfter(tiers, times) == Accepted(times, answers)
      ensures FromLog(tiers, times, answers)
    {
      answers := [];
      for i := 0 to |times|
        invariant Valid() && |answers| == i && log == LogAfter(tiers, times[..i]) && FromLog(tiers, times, answers)
        invariant i < |times| ==> latest <= times[i]
      {
        LogGrows(tiers, times, i);
        var ok := CheckAndAcquire(times[i]);
        assert AnsweredFromLog(tiers, times, i, ok);
        answers := answers + [ok];
      }
      assert times[..|times|] == times;
      AnswersAreLog(tiers, times, answers);
    }

    /** So what this object has accepted is at most n times a tier's maximum in any n periods. */
    lemma ServesWithinLimits(times: seq<real>, k: nat, a: real, n: nat)
      requires Valid() && Ascending(times) && log == LogAfter(tiers, times) && k < 3
      ensures Count(log, Within(a, After(a, n, tiers[k]))) <= n * Limit(tiers[k])
    {
      EveryWindowIsBounded(tiers, times, k, a, n);
    }

    /** The minute window is the end of the hour window, and that of the day window. */
    lemma WindowsNest()
      requires Valid()
      ensures |windows[0]| <= |windows[1]| && windows[0] == windows[1][|windows[1]| - |windows[0]|..]
      ensures |windows[1]| <= |windows[2]| && windows[1] == windows[2][|windows[2]| - |windows[1]|..]
    {
      ShorterWindowIsSuffix(log, latest, tiers[0].period, tiers[1].period);
      ShorterWindowIsSuffix(log, latest, tiers[1].period, tiers[2].period);
    }
  }

  // ------------------------------------------------------------------ pruning

  /** Pruning drops exactly the requests that are at least a period old. */
  lemma {:induction false} PrunedIsTail(window: seq<real>, now: real, period: real) returns (k: nat)
    ensures k <= |window| && Pruned(window, now, period) == window[k..]
    ensures forall i :: 0 <= i < k ==> now - window[i] >= period
    ensures k < |window| ==> now - window[k] < period
  {
    if window != [] && now - window[0] >= period {
      var r := PrunedIsTail(window[1..], now, period);
      k := r + 1;
      assert forall i :: 0 < i < k ==> window[i] == window[1..][i - 1];
    } else {
      k := 0;
    }
  }

  /** Having pruned earlier makes no difference. */
  lemma {:induction false} PrunedTwice(log: seq<real>, before: real, now: real, period: real)
    requires before <= now
    ensures Pruned(Pruned(log, before, period), now, period) == Pruned(log, now, period)
  {
    if log != [] && before - log[0] >= period {
      PrunedTwice(log[1..], before, now, period);
    }
  }

  lemma {:induction false} PrunedAppend(log: seq<real>, now: real, period: real)
    requires period > 0.0
    ensures Pruned(log + [now], now, period) == Pruned(log, now, period) + [now]
  {
    if log != [] && now - log[0] >= period {
      assert (log + [now])[1..] == log[1..] + [now];
      PrunedAppend(log[1..], now, period);
    } else if log == [] {
      assert log + [now] == [now];
    }
  }

  /** The window of a shorter period is the end of that of a longer one. */
  lemma ShorterWindowIsSuffix(log: seq<real>, now: real, short: real, long: real)
    requires short <= long && Ascending(log)
    ensures var s, l := Pruned(log, now, short), Pruned(log, now, long);
      |s| <= |l| && s == l[|l| - |s|..]
  {
    var a := PrunedIsTail(log, now, short);
    var b := PrunedIsTail(log, now, long);
    assert a < |log| ==> now - log[a] < short;
  }

  // ----------------------------------------------------------- every window

  function Within(a: real, b: real): real -> bool {
    (t: real) => a < t <= b
  }

  /** A request is refused exactly when some tier already has its maximum of accepted requests
      within its last period. */
  lemma RefusedWhenFull(tiers: seq<Tier>, log: seq<real>, now: real)
    requires Ascending(log) && NotAfter(log, now)
    ensures !Allowed(tiers, log, now) <==>
      exists k :: 0 <= k < |tiers| && Count(log, Within(now - tiers[k].period, now)) >= tiers[k].maxCalls
  {
    forall k | 0 <= k < |tiers|
      ensures |Pruned(log, now, tiers[k].period)| == Count(log, Within(now - tiers[k].period, now))
    {
      PrunedCounts(log, now, tiers[k].period);
    }
  }

  lemma {:induction false} PrunedCounts(log: seq<real>, now: real, period: real)
    requires Ascending(log) && NotAfter(log, now)
    ensures |Pruned(log, now, period)| == Count(log, Within(now - period, now))
  {
    if log != [] {
      assert forall i :: 0 <= i < |log[1..]| ==> log[1..][i] == log[i + 1];
      if now - log[0] >= period {
        PrunedCounts(log[1..], now, period);
      } else {
        CountAll(log, Within(now - period, now));
      }
    }
  }

  lemma {:induction false} CountAll<T>(s: seq<T>, p: T -> bool)
    requires forall i :: 0 <= i < |s| ==> p(s[i])
    ensures Count(s, p) == |s|
  {
    if s != [] {
      CountAll(s[1..], p);
    }
  }

  /** Any maxCalls + 1 accepted requests in a row take at least a period. */
  ghost predicate Spaced(log: seq<real>, tier: Tier) {
    forall i, j :: 0 <= i < |log| && j == i + tier.maxCalls && i <= j < |log| ==> log[j] - log[i] >= tier.period
  }

  lemma GrownIsSpaced(tiers: seq<Tier>, log: seq<real>, now: real, k: nat)
    requires Ascending(log) && NotAfter(log, now) && k < |tiers| && Spaced(log, tiers[k])
    ensures Spaced(Grown(tiers, log, now), tiers[k])
  {
    var log' := Grown(tiers, log, now);
    var cut := PrunedIsTail(log, now, tiers[k].period);
    forall i, j | 0 <= i < |log'| && j == i + tiers[k].maxCalls && i <= j < |log'|
      ensures log'[j] - log'[i] >= tiers[k].period
    {
      if j == |log| {
        assert i < cut;
      }
    }
  }

  /** In every run with a clock that never goes back the log ascends and is spaced for each tier. */
  lemma {:induction false} RunIsSpaced(tiers: seq<Tier>, times: seq<real>)
    requires Ascending(times)
    ensures Ascending(LogAfter(tiers, times))
    ensures times != [] ==> NotAfter(LogAfter(tiers, times), times[|times| - 1])
    ensures times == [] ==> LogAfter(tiers, times) == []
    ensures forall k :: 0 <= k < |tiers| ==> Spaced(LogAfter(tiers, times), tiers[k])
  {
    if times != [] {
      var init, now := times[..|times| - 1], times[|times| - 1];
      RunIsSpaced(tiers, init);
      forall k | 0 <= k < |tiers| ensures Spaced(LogAfter(tiers, times), tiers[k]) {
        GrownIsSpaced(tiers, LogAfter(tiers, init), now, k);
      }
    }
  }

  /** Dropping the first request keeps the spacing. */
  lemma SpacedTail(log: seq<real>, tier: Tier)
    requires log != [] && Ascending(log) && Spaced(log, tier)
    ensures Ascending(log[1..]) && Spaced(log[1..], tier)
  {
    assert forall i :: 0 <= i < |log[1..]| ==> log[1..][i] == log[i + 1];
  }

  /** The requests up to b come first. */
  lemma {:induction false} CountIsBlock(log: seq<real>, a: real, b: real) returns (n: nat)
    requires Ascending(log) && (log != [] ==> a < log[0])
    ensures n <= |log| && Count(log, Within(a, b)) == n
    ensures forall i :: 0 <= i < n ==> log[i] <= b
  {
    if log == [] || log[0] > b {
      n := 0;
      CountNone(log, Within(a, b));
    } else {
      assert forall i :: 0 <= i < |log[1..]| ==> log[1..][i] == log[i + 1];
      var r := CountIsBlock(log[1..], a, b);
      n := r + 1;
    }
  }

  lemma {:induction false} WindowBound(log: seq<real>, tier: Tier, a: real)
    requires Ascending(log) && Spaced(log, tier) && tier.maxCalls >= 0
    ensures Count(log, Within(a, a + tier.period)) <= tier.maxCalls
  {
    if log != [] && log[0] <= a {
      SpacedTail(log, tier);
      WindowBound(log[1..], tier, a);
    } else {
      assert tier.maxCalls < |log| ==> log[tier.maxCalls] - log[0] >= tier.period;
      var n := CountIsBlock(log, a, a + tier.period);
    }
  }

  lemma {:induction false} CountSplitsAt(log: seq<real>, a: real, b: real, c: real)
    requires a <= b <= c
    ensures Count(log, Within(a, c)) == Count(log, Within(a, b)) + Count(log, Within(b, c))
  {
    if log != [] {
      CountSplitsAt(log[1..], a, b, c);
    }
  }

  function Limit(tier: Tier): nat {
    if tier.maxCalls < 0 then 0 else tier.maxCalls
  }

  /** The end of n periods from a. */
  function After(a: real, n: nat, tier: Tier): real {
    a + n as real * tier.period
  }

  lemma {:induction false} LongWindowBound(log: seq<real>, tier: Tier, a: real, n: nat)
    requires Ascending(log) && Spaced(log, tier) && tier.maxCalls >= 0 && tier.period > 0.0
    ensures Count(log, Within(a, After(a, n, tier))) <= n * Limit(tier)
  {
    if n == 0 {
      assert After(a, 0, tier) == a;
      CountNone(log, Within(a, a));
    } else {
      var b := After(a, n - 1, tier);
      assert After(a, n, tier) == b + tier.period && a <= b;
      LongWindowBound(log, tier, a, n - 1);
      WindowBound(log, tier, b);
      CountSplitsAt(log, a, b, b + tier.period);
      assert n * Limit(tier) == (n - 1) * Limit(tier) + Limit(tier);
    }
  }

  /** For each tier, every run and every real a: at most n times the maximum is accepted in the n
      periods after a. A maximum of zero or less accepts nothing at all. */
  lemma EveryWindowIsBounded(tiers: seq<Tier>, times: seq<real>, k: nat, a: real, n: nat)
    requires Ascending(times) && k < |tiers| && tiers[k].period > 0.0
    ensures Count(LogAfter(tiers, times), Within(a, After(a, n, tiers[k]))) <= n * Limit(tiers[k])
  {
    if tiers[k].maxCalls < 0 {
      NothingAccepted(tiers, times, k);
      CountNone<real>([], Within(a, After(a, n, tiers[k])));
    } else {
      RunIsSpaced(tiers, times);
      LongWindowBound(LogAfter(tiers, times), tiers[k], a, n);
    }
  }

  lemma {:induction false} NothingAccepted(tiers: seq<Tier>, times: seq<real>, k: nat)
    requires k < |tiers| && tiers[k].maxCalls <= 0
    ensures LogAfter(tiers, times) == []
  {
    if times != [] {
      NothingAccepted(tiers, times[..|times| - 1], k);
      assert !(|Pruned([], times[|times| - 1], tiers[k].period)| < tiers[k].maxCalls);
    }
  }
}
