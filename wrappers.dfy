/** Optional values and the outcome of a call that may throw. */
module Wrappers {

  /** A Kotlin nullable value: `None` stands for `null`. */
  datatype Option<+T> = None | Some(value: T) {
    /** Kotlin's elvis operator `this ?: default`. */
    function GetOr(default: T): T {
      match this
      case Some(v) => v
      case None => default
    }
  }

  /** The outcome of a Kotlin call that either returns a value or throws;
      a thrown exception carries its (nullable) message. */
  datatype Attempt<+T> = Done(value: T) | Thrown(message: Option<string>)
}
