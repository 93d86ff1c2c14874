/** Shared small types: optional values, time, and real-number helpers. */
module Basics {

  datatype Option<+T> = None | Some(value: T)

  datatype Outcome = Done | Failed(reason: string)

  /** Nanoseconds since the zero time, which stands for "not set". */
  type Time = int

  const ZERO_TIME: Time := 0
  const SECOND: int := 1_000_000_000
  const MINUTE: int := 60 * SECOND

  /** A missing time is replaced by the clock's reading. */
  function NormalizeTime(t: Time, clock: Time): Time {
    if t == ZERO_TIME then clock else t
  }

  function Abs(x: real): real {
    if x < 0.0 then -x else x
  }

  function Max(x: real, y: real): real {
    if x < y then y else x
  }

  function Min(x: real, y: real): real {
    if y < x then y else x
  }
}
