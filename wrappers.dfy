/** Optional values and results with an error message, used for Python's `None`
    and for the exceptions the build tooling raises and catches. */
module Wrappers {

  datatype Option<+T> = None | Some(value: T)

  datatype Result<+T> = Success(value: T) | Failure(error: string) {
    predicate IsFailure() { Failure? }
  }
}
