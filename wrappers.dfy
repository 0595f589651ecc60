/** Optional values and results with an error, the shapes that stand for Java's
    `Optional`/`null` and for exceptions in the rest of the model. */
module Wrappers {

  datatype Option<+T> = None | Some(value: T) {
    function GetOr(default: T): T {
      match this
      case Some(v) => v
      case None => default
    }
  }

  datatype Result<+R, +E> = Success(value: R) | Failure(error: E)

  /** JavaScript's truth test on a string that may be null or undefined:
      present and non-empty. */
  predicate Truthy(s: Option<string>) { s.Some? && s.value != "" }
}
