/** Optional values, results and the Java exceptions the core raises. */
module Wrappers {

  /** A value that may be absent (a Java reference that may be null). */
  datatype Option<+T> = None | Some(value: T)

  /** The exceptions the modelled code throws, with their messages. */
  datatype Exception =
    | IllegalArgumentException(message: string)
    | IllegalStateException(message: string)
    | UnsupportedOperationException(message: string)
    /** Whatever a conversion service raises on its own (not found, conversion failed). */
    | ConversionException(message: string)

  /** The outcome of a Java call: a returned value or a thrown exception. */
  datatype Result<+T> = Success(value: T) | Failure(error: Exception) {

    predicate IsFailure() {
      Failure?
    }

    function PropagateFailure<U>(): Result<U>
      requires Failure?
    {
      Failure(error)
    }

    function Extract(): T
      requires Success?
    {
      value
    }
  }
}
