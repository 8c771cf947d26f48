/** Java-level vocabulary shared by the model: nullable references,
    the exceptions the modelled code throws or catches, and the 64-bit `long`. */
module Base {

  /** A Java reference that may be `null` (`None`). */
  datatype Option<+T> = None | Some(value: T) {
    function GetOr(default: T): T {
      match this
      case Some(v) => v
      case None => default
    }
  }

  /** The exceptions that cross the boundaries of the modelled code. */
  datatype JavaException =
    | NullPointer(message: string)      // java.lang.NullPointerException; "" when it carries no message
    | IllegalArgument(message: string)  // java.lang.IllegalArgumentException; "" for the client library's own
    | CallbackException                 // whatever an application-supplied callback threw

  /** A call that either returns a value or throws. */
  datatype Result<+T> = Ok(value: T) | Err(error: JavaException)

  /** A `void` call that either returns normally or throws. */
  datatype Outcome = Pass | Fail(error: JavaException)

  const LONG_MIN: int := -0x8000_0000_0000_0000
  const LONG_MAX: int := 0x7FFF_FFFF_FFFF_FFFF

  /** Java's `long`. */
  type Long = x: int | LONG_MIN <= x <= LONG_MAX

  /** Java's narrowing `(long)` cast of an integral value: exact inside the
      range of `long`, saturating at its bounds outside it. */
  function ToLong(x: int): (r: Long)
    ensures LONG_MIN <= x <= LONG_MAX ==> r == x
    ensures x > LONG_MAX ==> r == LONG_MAX
    ensures x < LONG_MIN ==> r == LONG_MIN
  {
    if x > LONG_MAX then LONG_MAX else if x < LONG_MIN then LONG_MIN else x
  }
}
