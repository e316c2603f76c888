/** Option and Result: the model's stand-ins for null pointers and for thrown exceptions. */
module Wrappers {

  datatype Option<+T> = None | Some(value: T) {
    /** The value if present, otherwise `default` (the `has_value() ? value() : default` idiom). */
    function GetOr(default: T): T {
      match this
      case Some(v) => v
      case None => default
    }
  }

  /** `Failure(message)` stands for an exception thrown with that message. */
  datatype Result<+R> = Success(value: R) | Failure(message: string)

  /** The outcome of an operation that returns nothing but may throw. */
  datatype Outcome = Pass | Fail(message: string)
}
