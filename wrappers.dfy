/** Option and Result, used for Python's `None` and for the exceptions the source raises. */
module Wrappers {

  datatype Option<+T> = None | Some(value: T)

  datatype Result<+R, +E> = Success(value: R) | Failure(error: E)

  /** Python truthiness of an optional string: `None` and `""` are false. */
  predicate Truthy(p: Option<string>) {
    p.Some? && p.value != ""
  }
}
