/** Option and Result values used for the error paths of the modelled scripts. */
module Wrappers {

  datatype Option<+T> = None | Some(value: T)

  /** `Err` stands for a Python exception or a fatal C++ check: the caller sees no value. */
  datatype Result<+T, +E> = Ok(value: T) | Err(error: E)
}
