// Python's `None`-or-value, used for optional fields and for the outcome of
// library calls that may raise.

module Wrappers {

  datatype Option<T> = None | Some(value: T) {
    /** `x if x is not None else d` */
    function GetOr(d: T): T {
      match this
      case None => d
      case Some(v) => v
    }
  }
}
