/** Optional values and call outcomes shared by the ledger modules. */
module Wrappers {

  /** A read-only view that may find nothing (Clarity's `optional`). */
  datatype Option<T> = None | Some(value: T)

  /** The outcome of a public call (Clarity's `response`): a value or a named error. */
  datatype Result<T, E> = Ok(value: T) | Err(error: E)
}
