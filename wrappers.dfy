/** Small value types shared by the modules: an optional value (a Kotlin nullable),
    a success-or-exception result, and a Kotlin argument that may be left at its default. */
module Wrappers {

  /** A Kotlin `T?`: `None` stands for `null`. */
  datatype Option<+T> = None | Some(value: T)

  /** The outcome of a call that either returns a value or throws. */
  datatype Result<+T, +E> = Success(value: T) | Failure(error: E)

  /** A call that returns nothing but may throw. */
  datatype Outcome<+E> = Pass | Fail(error: E)

  /** A Kotlin parameter with a default: `Keep` means the caller omitted it, so the
      default expression (usually the current value) is used. */
  datatype Arg<+T> = Keep | Given(value: T) {
    /** The value the parameter takes when `current` is its default. */
    function Or(current: T): T {
      match this
      case Keep => current
      case Given(v) => v
    }
  }
}
