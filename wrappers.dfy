/** Failure-carrying values shared by the crawler modules. */
module Wrappers {

  /** A value that may be absent; `None` stands for Go's non-nil error from a lookup or a parse. */
  datatype Option<+T> = None | Some(value: T)

  /** The Go pair `(value, error)`: exactly one of the two is meaningful. */
  datatype Result<+T, +E> = Success(value: T) | Failure(error: E)
}
