/** Optional values and the outcome of calls that can throw.

    Swift's `T?` becomes `Option<T>`; an `async throws -> T` call becomes a
    `Result<T, E>` that the caller supplies; an `async throws` call without a
    value becomes an `Outcome<E>`.
 */
module Wrappers {

  datatype Option<+T> = None | Some(value: T) {

    /** Swift's `??`: the wrapped value, or `default` when absent. */
    function GetOr(default: T): T {
      match this
      case Some(v) => v
      case None => default
    }
  }

  datatype Result<+T, +E> = Ok(value: T) | Err(error: E) {

    /** Swift's `try?`: the value on success, nil when the call threw. */
    function ToOption(): Option<T> {
      match this
      case Ok(v) => Some(v)
      case Err(_) => None
    }
  }

  datatype Outcome<+E> = Pass | Fail(error: E)

  /** A thrown Swift error. Which error was thrown never changes the state
      the model tracks, so it carries nothing. */
  datatype Error = Error
}
