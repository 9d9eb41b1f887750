/** Option and Result, shared by every module of the model. */
module Prelude {
  datatype Option<+T> = None | Some(value: T)

  /** The source's exceptions become `Err`; what the exception says is an `Error` of the ledger. */
  datatype Result<+T, +E> = Ok(value: T) | Err(error: E)
}
