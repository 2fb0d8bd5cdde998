/** Durations in nanoseconds and whole seconds. */
module Clock {
  const SECOND: int := 1_000_000_000

  // Whole seconds of a duration, toward zero.
  function Secs(d: int): int {
    if d >= 0 then d / SECOND else -((-d) / SECOND)
  }

  /** Only what is short of a second is dropped, on either side of zero. */
  lemma SecsTruncate(d: int)
    ensures d >= 0 ==> Secs(d) * 1_000_000_000 <= d < (Secs(d) + 1) * 1_000_000_000
    ensures d < 0 ==> (Secs(d) - 1) * 1_000_000_000 < d <= Secs(d) * 1_000_000_000
  {
  }
}
