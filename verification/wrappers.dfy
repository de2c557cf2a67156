/** Option and Result, the two failure-carrying shapes the model uses in place
    of Python's `None` and raised exceptions. */
module Wrappers {

  /** A value that may be absent (Python's `Optional[...]`). */
  datatype Option<+T> = None | Some(value: T) {

    /** The value, or `default` when absent (Python's `dict.get(key, default)`). */
    function GetOr(default: T): T {
      match this
      case Some(v) => v
      case None => default
    }
  }

  /** The outcome of an operation that may raise. */
  datatype Result<+R, +E> = Success(value: R) | Failure(error: E)

  /** Python's `min` on two counts. */
  function Min(a: nat, b: nat): nat {
    if a <= b then a else b
  }
}
