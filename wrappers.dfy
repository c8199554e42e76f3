/** Option and Result datatypes shared by the exchange model and the reducers. */
module Wrappers {

  /** A value that may be absent: `None` stands for the JavaScript `null` (or an absent field). */
  datatype Option<+T> = None | Some(value: T)

  /** The outcome of a contract call: `Ok` carries the emitted record, `Err` a revert reason. */
  datatype Result<+T, +E> = Ok(value: T) | Err(error: E)
}
