/** Option and Result values for the source's "maybe absent" and "raises" paths. */
module Wrappers {

  /** `None` stands for a missing value: JavaScript's NaN or `undefined`, Python's `None`. */
  datatype Option<+T> = None | Some(value: T)

  /** `Err` stands for an exception the source raises. */
  datatype Result<+T, +E> = Ok(value: T) | Err(error: E)
}
