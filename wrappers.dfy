/** Small value wrappers shared by the router model. */
module Wrappers {

  /** A value that may be absent: Java's `@Nullable` references. */
  datatype Option<+T> = None | Some(value: T) {

    /** The value if present, otherwise `default`. */
    function GetOr(default: T): T {
      match this
      case Some(v) => v
      case None => default
    }
  }

  /** A failure the router can observe: what a Java `Throwable` stands for in this model. */
  datatype Cause =
    | HandlerFailure(id: nat)          // anything user code throws
    | NoSuchElement                    // an empty request stream where one element was expected
    | IllegalArgument(message: string) // a caller error reported by the router itself

  /** How a synchronous call ends: it returns a value or it throws. */
  datatype Outcome<+T> = Ok(value: T) | Throw(cause: Cause)
}
