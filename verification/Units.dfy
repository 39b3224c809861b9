/** Lengths of time in microseconds. */
module Units {
  const SECOND: int := 1_000_000
  const MINUTE: int := 60_000_000
  const HOUR: int := 3_600_000_000
  const DAY: int := 86_400_000_000
}
