/** Option and Result, the two failure-compatible wrappers the model uses, and the
    truthiness of an optional id. */
module Wrappers {

  datatype Option<+T> = None | Some(value: T) {
    function GetOr(default: T): T {
      match this
      case Some(v) => v
      case None => default
    }
  }

  datatype Result<+R, +E> = Success(value: R) | Failure(error: E)

  /** Truthiness of a nullable id, the same in Python and JavaScript: null (None here)
      and 0 are false. */
  predicate Truthy(id: Option<int>) {
    id != None && id.value != 0
  }
}
