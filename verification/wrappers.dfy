/** Failure-carrying datatypes used throughout the model: an optional value, a value-or-error
    result, and an outcome that only reports an error. */
module Wrappers {

  /** A value that may be absent; stands for an omitted optional argument or a C# null. */
  datatype Option<+T> = None | Some(value: T) {

    /** The encapsulated value, or `default` when there is none. */
    function GetOr(default: T): T {
      match this
      case Some(v) => v
      case None => default
    }
  }

  /** What a C# member that returns a value or throws is modelled as. */
  datatype Result<+R, +E> = Success(value: R) | Failure(error: E)

  /** What a C# `void` member that may throw is modelled as. */
  datatype Outcome<+E> = Pass | Fail(error: E)
}
