/** Option and Result, the two sum types the model is written with. */
module Wrappers {

  /** Either nothing or exactly one value. */
  datatype Option<+T> = None | Some(value: T)

  /** Either a value or the error that was raised instead of producing it. */
  datatype Result<+R, +E> = Success(value: R) | Failure(error: E)
}
