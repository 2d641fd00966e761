/** Option and Result values shared by the sequence bookkeeping and the sampler. */
module Wrappers {

  /** An optional value, as Rust's `Option`. */
  datatype Option<+T> = None | Some(value: T)

  /** The outcome of a fallible operation, as Rust's `Result`. */
  datatype Result<+T, +E> = Success(value: T) | Failure(error: E)
}
