/** Go's time.Duration constants; every duration and instant in the model is an int count of nanoseconds. */
module Durations {
  const Nanosecond: int := 1
  const Millisecond: int := 1_000_000
  const Second: int := 1_000 * Millisecond
  const Minute: int := 60 * Second
  const Hour: int := 60 * Minute
  const Day: int := 24 * Hour

  /** time.Time.Unix(): whole seconds since the epoch, rounded towards minus infinity. */
  function UnixSeconds(t: int): (s: int)
    ensures s * Second <= t < (s + 1) * Second
  {
    t / Second
  }
}
