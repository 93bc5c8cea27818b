/** Success/failure values for the operations that raise in the source. */
module Wrappers {

  datatype Option<+T> = None | Some(value: T)

  /** `Err` stands for a Python exception escaping the modelled operation. */
  datatype Result<+T, +E> = Ok(value: T) | Err(error: E)
}
