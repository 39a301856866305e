/** Option and Result: the null results and thrown runtime_errors of the C++ core. */
module Wrappers {
  datatype Option<T> = None | Some(value: T)

  /** `Err(message)` stands for a `std::runtime_error` thrown with that message. */
  datatype Result<T> = Ok(value: T) | Err(message: string)
  {
    predicate IsFailure() { Err? }
  }
}
