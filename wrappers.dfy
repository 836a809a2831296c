/** Small failure-carrying datatypes shared by the whole model. */
module Wrappers {

  /** Python's Optional[T]: a value or None. */
  datatype Option<+T> = None | Some(value: T) {
    function GetOr(default: T): T {
      match this
      case Some(v) => v
      case None => default
    }
  }

  /** The outcome of a Python call that may raise: it returns a value, or an
      exception propagates out of it. */
  datatype Reply<+T> = Returns(value: T) | Raises
}
