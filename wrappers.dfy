/** Option and Result values, standing for Python's None and for a call that
    either returns a value or raises an exception. */
module Wrappers {

  datatype Option<+T> = None | Some(value: T)

  /** `Success(v)`: the call returned `v`; `Failure(e)`: it raised an
      exception whose `str()` is `e`. */
  datatype Result<+R, +E> = Success(value: R) | Failure(error: E)
}
