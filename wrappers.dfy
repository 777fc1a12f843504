/** Optional values and results with an error path, shared by every module. */
module Wrappers {

  /** A value that may be absent: Python's `None` versus a present value. */
  datatype Option<+T> = None | Some(value: T)

  /** The outcome of an operation that the source lets raise: `Err` stands for the exception. */
  datatype Result<+T> = Ok(value: T) | Err(error: string)
}
