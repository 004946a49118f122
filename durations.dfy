/**
  Rust's `std::time::Duration`, as used by the reminder: a count of nanoseconds
  bounded by `Duration::MAX` (u64::MAX seconds plus 999,999,999 nanoseconds),
  with the saturating addition and subtraction the application relies on.
 */
module Durations {

  const NANOS_PER_SEC: nat := 1_000_000_000
  const U64_MAX: nat := 0xFFFF_FFFF_FFFF_FFFF

  /** `Duration::MAX`, in nanoseconds. */
  const MAX_DURATION: nat := U64_MAX * NANOS_PER_SEC + (NANOS_PER_SEC - 1)

  /** A `Duration`, in nanoseconds. */
  type Duration = d: nat | d <= MAX_DURATION

  /** `Duration::ZERO`, which is also `Duration::default()`. */
  const ZERO: Duration := 0

  /** `Duration::from_secs`, defined for every `u64` number of seconds. */
  function FromSecs(secs: nat): (d: Duration)
    requires secs <= U64_MAX
    ensures d / NANOS_PER_SEC == secs && d % NANOS_PER_SEC == 0
  {
    secs * NANOS_PER_SEC
  }

  /** `Duration::saturating_add`: the exact sum, or `Duration::MAX` when it overflows. */
  function SaturatingAdd(a: Duration, b: Duration): (r: Duration)
    ensures a <= r && b <= r
    ensures a + b <= MAX_DURATION <==> r == a + b
    ensures a + b > MAX_DURATION ==> r == MAX_DURATION
  {
    if a + b <= MAX_DURATION then a + b else MAX_DURATION
  }

  /** `Duration::saturating_sub`: the exact difference, or zero when it would be negative. */
  function SaturatingSub(a: Duration, b: Duration): (r: Duration)
    ensures r <= a
    ensures b <= a <==> r + b == a
    ensures a < b ==> r == ZERO
  {
    if b <= a then a - b else ZERO
  }

  /** Subtracting what was just added gives back the original, as long as the sum did not saturate. */
  lemma SubUndoesAdd(d: Duration, step: Duration)
    requires d + step <= MAX_DURATION
    ensures SaturatingSub(SaturatingAdd(d, step), step) == d
  {
  }

  /** Adding back what was just subtracted gives back the original, as long as the difference did not saturate. */
  lemma AddUndoesSub(d: Duration, step: Duration)
    requires step <= d
    ensures SaturatingAdd(SaturatingSub(d, step), step) == d
  {
  }

  /** Adding two amounts one after the other saturates exactly like adding their sum. */
  lemma SaturatingAddAssociates(a: Duration, b: Duration, c: Duration)
    requires b + c <= MAX_DURATION
    ensures SaturatingAdd(SaturatingAdd(a, b), c) == SaturatingAdd(a, b + c)
  {
  }
}
