/** Option and Result values for JavaScript's `null`/`undefined` and for thrown errors. */
module Wrappers {

  /** A value that may be absent (`null` / `undefined` in the source). */
  datatype Option<+T> = None | Some(value: T)

  /** The outcome of an operation that can throw: a value or the error's message. */
  datatype Result<+R> = Ok(value: R) | Err(message: string)
}
