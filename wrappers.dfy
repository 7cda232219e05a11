/** Option and Result, the two shapes the Kotlin code expresses with nullable types and exceptions. */
module Wrappers {

  /** A nullable value: `None` stands for Kotlin's `null`. */
  datatype Option<+T> = None | Some(value: T) {
    function GetOr(default: T): T {
      match this
      case Some(v) => v
      case None => default
    }
  }

  /** The outcome of an operation that can throw: `Failure` carries the exception that would be thrown. */
  datatype Result<+R, +E> = Success(value: R) | Failure(error: E)
}
