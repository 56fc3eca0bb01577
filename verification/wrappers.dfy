/** Optional values, the model's stand-in for JavaScript's `null`, and completions that may throw. */
module Wrappers {

  datatype Option<+T> = None | Some(value: T) {

    /** The carried value, or `default` when there is none. */
    function GetOr(default: T): T {
      match this
      case Some(v) => v
      case None => default
    }
  }

  /** How a call ends: it returned a value, or it threw an Error with a message. */
  datatype Completion<T> = Returned(value: T) | Threw(message: string)
}
