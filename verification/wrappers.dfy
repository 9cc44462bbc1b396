/** Option and Result, used for the handler's absent fields and thrown errors. */
module Wrappers {

  datatype Option<+T> = None | Some(value: T)

  /** `Failure(e)` stands for a JavaScript `throw` whose error message is `e`. */
  datatype Result<+T, +E> = Success(value: T) | Failure(error: E)
}
