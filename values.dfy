/** Shared value types of the geometry model: optional values (PHP's null),
    fallible results (the library's exceptions) and the errors it raises. */
module Values {

  /** `None` stands for PHP's `null`. */
  datatype Option<T> = None | Some(value: T)

  /** The reasons an operation of the geometry model throws. */
  datatype GeoError =
    | UnexpectedValueType  // Point::set was given something that is not an array once parsed
    | UnparsableText       // the coordinate parser rejected a string
    | UnclosedRing         // Polygon::addRing was given a ring whose ends differ
    | SridMismatch         // a member's SRID differs from its container's
    | InvalidOrder         // setOrder was given neither 0 nor 1

  /** The value an operation returns, or the exception it throws. */
  datatype Result<T> = Success(value: T) | Failure(error: GeoError)

  /** The completion of an operation that returns nothing of interest. */
  datatype Outcome = Done | Failed(error: GeoError)
}
