/** Failure-compatible wrappers used throughout the model: `Option` stands for a
    pandas cell that may hold NaN / NaT, `Result` for a computation that may
    raise a configuration error. */
module Wrappers {

  /** A cell that is either missing (`None`, pandas NaN/NaT) or holds a value. */
  datatype Option<+T> = None | Some(value: T) {

    /** The value, or `default` when missing (pandas `fillna(default)`). */
    function GetOr(default: T): T {
      match this
      case Some(v) => v
      case None => default
    }
  }

  /** Either a computed value or the error a Python `raise` would produce. */
  datatype Result<+R, +E> = Success(value: R) | Failure(error: E) {

    predicate IsFailure() {
      Failure?
    }

    function PropagateFailure<U>(): Result<U, E>
      requires Failure?
    {
      Failure(error)
    }

    function Extract(): R
      requires Success?
    {
      value
    }
  }
}
