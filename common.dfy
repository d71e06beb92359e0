/**
 * Failure-compatible wrappers shared by every component of the model: an optional
 * value (a C++ pointer that may be NULL), a result that carries either a value or the
 * error the source would throw, and an outcome for operations that return nothing, and the byte type.
 */
module Common {

  datatype Option<+T> = None | Some(value: T)

  datatype Result<+T, +E> = Success(value: T) | Failure(error: E) {
    predicate IsFailure() { Failure? }

    function PropagateFailure<U>(): Result<U, E>
      requires Failure?
    {
      Failure(error)
    }

    function Extract(): T
      requires Success?
    {
      value
    }
  }

  datatype Outcome<+E> = Pass | Fail(error: E)

  /** An unsigned char. */
  type byte = b: int | 0 <= b < 256
}
