/** Steady-clock arithmetic (src/core/src/detail/time.hpp). */
module Clock {
  import opened Protocol

  /** Nanoseconds of the steady clock. The source uses the clock's epoch as "never". */
  type Time = int
  const NEVER: Time := 0
  const SECOND: Time := 1_000_000_000
  const CLOCK_MAX: Time := 0x7fff_ffff_ffff_ffff

  /** None is the `invalid_argument` for a duration the clock cannot hold. */
  function CheckedDuration(seconds: real): Option<nat> {
    var ticks := seconds * SECOND as real;
    if ticks < 0.0 || ticks >= CLOCK_MAX as real then None else Some(ticks.Floor)
  }

  function CheckedDeadline(origin: Time, seconds: real): Option<Time> {
    match CheckedDuration(seconds)
    case None => None
    case Some(ticks) => if origin > CLOCK_MAX - ticks then None else Some(origin + ticks)
  }

  /** A deadline is granted exactly when the duration is one the clock can hold and its whole ticks do not carry the
      origin beyond the end of the clock; it then lies at most one tick short of the exact sum. */
  lemma DeadlineNeverOverflows(origin: Time, seconds: real)
    ensures CheckedDeadline(origin, seconds).Some?
            <==> && 0.0 <= seconds * SECOND as real < CLOCK_MAX as real
                 && origin + (seconds * SECOND as real).Floor <= CLOCK_MAX
    ensures CheckedDeadline(origin, seconds).Some? ==>
              var d := CheckedDeadline(origin, seconds).value;
              && origin <= d <= CLOCK_MAX
              && d as real <= origin as real + seconds * SECOND as real < d as real + 1.0
  {
    var ticks := seconds * SECOND as real;
    assert ticks.Floor as real <= ticks < ticks.Floor as real + 1.0;
  }
}
