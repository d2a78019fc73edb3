/** Wrappers used throughout the model: the source's
    `None` / raised exceptions become `None`, `Failure` and `Fail`. */
module Wrappers {

  datatype Option<+T> = None | Some(value: T)

  datatype Result<+R, +E> = Success(value: R) | Failure(error: E)

  /** The outcome of an `async def` that returns nothing or raises. */
  datatype Outcome<+E> = Pass | Fail(error: E)
}
