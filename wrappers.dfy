/** Optional values and results with an error, as the Kotlin code uses `T?` and exceptions. */
module Wrappers {

  /** A Kotlin nullable value: `None` is `null`. */
  datatype Option<+T> = None | Some(value: T) {

    /** Kotlin's elvis operator `x ?: default`. */
    function GetOr(default: T): T {
      match this
      case Some(v) => v
      case None => default
    }
  }

  /** The outcome of a call that either returns a value or throws. */
  datatype Result<+T, +E> = Ok(value: T) | Err(error: E)

  /**
   * The answer of a suspending call that may throw: its value, or the
   * message of the exception (`None` for an exception without a message).
   */
  type Outcome<T> = Result<T, Option<string>>

  /** A Kotlin string template shows a null message as "null". */
  function MessageText(message: Option<string>): (text: string)
    ensures message.Some? ==> text == message.value
    ensures message.None? ==> text == "null"
  {
    message.GetOr("null")
  }
}
