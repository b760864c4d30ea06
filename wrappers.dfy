/** Failure-carrying results that stand in for the exceptions the Java code throws. */
module Wrappers {

  /** The Java exception classes the modelled code throws. */
  datatype Exception =
    | IllegalArgument   // IllegalArgumentException
    | NumberFormat      // NumberFormatException (Integer.valueOf)
    | IllegalState      // IllegalStateException
    | IndexOutOfBounds  // IndexOutOfBoundsException (List.get / List.set)
    | NullPointer       // NullPointerException
    | Runtime           // RuntimeException

  datatype Option<+T> = None | Some(value: T)

  /** A value, or the exception that was thrown instead. */
  datatype Result<+T> = Ok(value: T) | Fail(exc: Exception) {
    predicate IsFailure() { Fail? }
    function PropagateFailure<U>(): Result<U> requires Fail? { Fail(exc) }
    function Extract(): T requires Ok? { value }
  }

  /** A value, or the typed error a checked operation refuses with (LoginError, SignUpError). */
  datatype Checked<+T, +E> = Done(value: T) | Refused(error: E)

  /** Completion of a void Java method: normal, or with an exception. */
  datatype Outcome = Pass | Throw(exc: Exception) {
    predicate IsFailure() { Throw? }
    function PropagateFailure(): Outcome requires Throw? { this }
  }
}
