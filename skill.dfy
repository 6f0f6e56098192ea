/**
  Types shared by the skills of the behaviour engine: the exit tokens a skill
  hands back to the scheduler, an optional value, and the fixed-width integer
  arithmetic of the JVM (Java `long` and `int` wrap around).
 */
module Skill {

  datatype Option<T> = None | Some(value: T) {
    function GetOr(default: T): T {
      match this
      case Some(v) => v
      case None => default
    }
  }

  /** An exit token, as the scheduler receives it from `execute` or `end`. */
  datatype ExitToken =
    | Loop(ms: int)            // call `execute` again after `ms` milliseconds
    | Success(suffix: string)  // status SUCCESS; "" is plain `success`, otherwise `success.<suffix>`
    | ErrorTimeout             // status ERROR with suffix `timeout`
    | Fatal                    // unrecoverable failure

  const LONG_MIN: int := -0x8000_0000_0000_0000
  const LONG_MAX: int := 0x7FFF_FFFF_FFFF_FFFF
  const INT_MIN: int := -0x8000_0000
  const INT_MAX: int := 0x7FFF_FFFF
  const TWO_64: int := 0x1_0000_0000_0000_0000
  const TWO_32: int := 0x1_0000_0000

  /** `x` is a value of a Java/Kotlin `Long`. */
  predicate IsLong(x: int) { LONG_MIN <= x <= LONG_MAX }

  /** `x` is a value of a Java/Kotlin `Int`. */
  predicate IsInt(x: int) { INT_MIN <= x <= INT_MAX }

  /** The `Long` that JVM arithmetic yields for the mathematical result `x`. */
  function WrapLong(x: int): (r: int)
    ensures IsLong(r)
    ensures IsLong(x) ==> r == x
    ensures x > LONG_MAX && x <= LONG_MAX + TWO_64 ==> r == x - TWO_64
  {
    (x - LONG_MIN) % TWO_64 + LONG_MIN
  }

  /** Kotlin `Long.toInt()`: keeps the low 32 bits. */
  function LongToInt(x: int): (r: int)
    ensures IsInt(r)
    ensures IsInt(x) ==> r == x
  {
    (x - INT_MIN) % TWO_32 + INT_MIN
  }
}
