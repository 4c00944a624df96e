/** Failure-carrying datatypes shared by the whole model.
    `Option` stands for a Python value that may be `None` (or a dict key that
    may be missing); `Result` stands for a call that either returns or raises. */
module Wrappers {

  datatype Option<+T> = None | Some(value: T) {

    /** The wrapped value, or `default` when there is none (Python's `x or default`
        for values whose only falsy form is `None`). */
    function GetOr(default: T): T {
      match this
      case Some(v) => v
      case None => default
    }
  }

  /** `Ok` is a normal return; `Err` is a raised exception carrying what the
      caller can observe about it. */
  datatype Result<+T, +E> = Ok(value: T) | Err(error: E)
}
