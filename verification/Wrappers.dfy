/** Failure-compatible result types shared by the models. */
module Wrappers {

  /** A value that may be missing: the "no rows" answer of a query. */
  datatype Option<+T> = None | Some(value: T)

  /** A value or the error returned in its place. */
  datatype Result<+T> = Ok(value: T) | Err(error: string)
}
