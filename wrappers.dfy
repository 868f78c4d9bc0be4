/** Python's `Optional[...]` and the value-or-error shape of a call that may raise. */
module Wrappers {

  /** `None` or a present value, as Python's `Optional[T]`. */
  datatype Option<+T> = None | Some(value: T)

  /** The outcome of a call that either returns a value or raises an error. */
  datatype Result<+R, +E> = Success(value: R) | Failure(error: E)
}
