/** The two failure-carrying shapes the core uses: Kotlin's nullable values
    (`T?`) become Option, and kotlin.Result becomes Result. */
module Wrappers {

  datatype Option<+T> = None | Some(value: T) {
    /** Kotlin's elvis operator `x ?: default`. */
    function GetOr(default: T): T {
      if Some? then value else default
    }
  }

  /** kotlin.Result<R>: either a value or the throwable it failed with. */
  datatype Result<+R, +E> = Success(value: R) | Failure(error: E)
}
