/** Option and Result, the shapes Kotlin expresses with nullable types and exceptions. */
module Wrappers {

  /** A nullable value: `None` stands for Kotlin's `null`. */
  datatype Option<+T> = None | Some(value: T) {
    /** Kotlin's elvis operator `this ?: default`. */
    function GetOr(default: T): T {
      match this
      case Some(v) => v
      case None => default
    }
  }

  /** The value of a computation that may throw; `Err` carries the exception message. */
  datatype Result<+T> = Ok(value: T) | Err(message: string)
}
