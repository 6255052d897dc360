/** Absent-or-present values and success-or-error results, used wherever the
    layout code reads a value that may be `null`/`undefined` or throws. */
module Options {

  /** `None` stands for JavaScript's `null` and `undefined` alike: the `??`
      operator treats both the same way. */
  datatype Option<+T> = None | Some(value: T) {

    /** The value, or `default` when absent: the `x ?? default` operator. */
    function GetOr(default: T): (r: T)
      ensures Some? ==> r == value
      ensures None? ==> r == default
    {
      match this
      case Some(v) => v
      case None => default
    }
  }

  /** The outcome of an operation that may throw. */
  datatype Result<+T, +E> = Ok(value: T) | Err(error: E)
}
