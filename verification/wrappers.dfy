/** Optional values and tagged results, used for parsed form inputs and for
    validation outcomes. */
module Wrappers {

  /** A value that may be absent. A parsed form input is `None` when the text
      does not denote a finite number. */
  datatype Option<+T> = None | Some(value: T)

  /** The outcome of a validation gate: the validated value, or one error tag. */
  datatype Result<+T, +E> = Ok(value: T) | Err(error: E)
}
