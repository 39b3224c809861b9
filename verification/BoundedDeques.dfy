/** `deque(maxlen=limit)`: appending beyond the limit drops from the left. */
module BoundedDeques {
  function LastOf<T>(s: seq<T>, limit: nat): seq<T> {
    if |s| <= limit then s else s[|s| - limit..]
  }

  /** Dropping at every append leaves the same as dropping once at the end. */
  lemma LastOfAppended<T>(s: seq<T>, x: T, limit: nat)
    ensures LastOf(LastOf(s, limit) + [x], limit) == LastOf(s + [x], limit)
  {
  }
}
