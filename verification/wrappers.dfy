/** Failure-carrying result types shared by the scoring modules. */
module Wrappers {

  /** A value that may be absent, as a Python `dict.get` or `re.search` result. */
  datatype Option<+T> = None | Some(value: T)

  /** Either a computed value or the error the source would raise instead. */
  datatype Result<+T, +E> = Success(value: T) | Failure(error: E)
}
