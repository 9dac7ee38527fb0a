/** Go's `time.Duration`: a count of nanoseconds. The model uses unbounded
    integers, so the int64 range of the original is not enforced. */
module Durations {

  type Duration = int

  const Nanosecond: Duration := 1
  const Millisecond: Duration := 1_000_000 * Nanosecond
  const Second: Duration := 1_000 * Millisecond
  const Minute: Duration := 60 * Second
}
