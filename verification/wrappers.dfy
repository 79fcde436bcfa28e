/** Failure-carrying datatypes shared by every module of the model. */
module Wrappers {

  /** An optional value; `None` models an empty `std::optional` / `boost::none`. */
  datatype Option<+T> = None | Some(value: T)

  /** Either a value or the error a C++ member would have thrown. */
  datatype Result<+T, +E> = Ok(value: T) | Err(error: E)

  /** A check that passes or fails with an error, for members returning `void`. */
  datatype Outcome<+E> = Pass | Fail(error: E)
}
