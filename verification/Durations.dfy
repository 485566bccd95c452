module Durations {
  // In nanoseconds, as a time.Duration counts them.
  const SECOND: int := 1_000_000_000
}
