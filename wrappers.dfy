/** Optional values: `None` stands for JavaScript's `undefined`. */
module Wrappers {

  datatype Option<+T> = None | Some(value: T) {

    /** The value, or `default` when absent. */
    function GetOr(default: T): T {
      match this
      case Some(v) => v
      case None => default
    }

    /** The nullish-coalescing operator `this ?? other`. */
    function OrElse(other: Option<T>): Option<T> {
      if Some? then this else other
    }
  }
}
