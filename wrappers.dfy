/** Swift's optionals, as the usual Some/None datatype. */
module Wrappers {

  datatype Option<T> = None | Some(value: T) {

    /** `x ?? default`: the wrapped value, or `default` when there is none. */
    function GetOr(default: T): T {
      match this
      case Some(v) => v
      case None => default
    }
  }
}
