/** The Go built-in and `time` package types the model needs. Instants are
    unbounded integers counting nanoseconds; durations are `time.Duration`,
    a signed 64-bit count of nanoseconds. */
module GoTypes {

  newtype byte = x: int | 0 <= x < 0x100

  newtype int64 = x: int | -0x8000_0000_0000_0000 <= x < 0x8000_0000_0000_0000

  /** `time.Duration`: nanoseconds as a signed 64-bit integer. */
  type Duration = int64

  /** An instant, in nanoseconds on a single clock. */
  type Time = int

  const Nanosecond: Duration := 1
  const Second: Duration := 1_000_000_000
  const Minute: Duration := 60 * Second
  const Hour: Duration := 60 * Minute

  /** `t.Add(d)` without the overflow clamping of Go's wall clock. */
  function Add(t: Time, d: Duration): Time
  {
    t + d as int
  }

  /** `a.After(b)`. */
  predicate After(a: Time, b: Time)
  {
    a > b
  }
}
