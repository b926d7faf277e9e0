/** Option and Result, the two failure-carrying datatypes the model uses for
    optional record fields and for operations that reject their input. */
module Wrappers {

  datatype Option<+T> = None | Some(value: T) {
    function GetOr(default: T): T {
      match this
      case Some(v) => v
      case None => default
    }
  }

  /** The outcome of an operation that either succeeds with a value or is
      rejected with the message of the error the source throws. */
  datatype Result<+R> = Success(value: R) | Failure(error: string) {
    predicate IsFailure() {
      Failure?
    }
  }
}
