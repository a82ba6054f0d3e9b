/** Swift's `Optional<T>` (`T?`): either `.none` (written `nil`) or `.some(value)`. */
module Optionals {

  datatype Option<+T> = None | Some(value: T) {

    /** The wrapped value, or `default` when there is none (a reference for `??`). */
    function GetOr(default: T): (r: T)
    {
      match this
      case Some(v) => v
      case None => default
    }
  }
}
