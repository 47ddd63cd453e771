/** Optional values and outcomes used throughout the model.
    - `Option<T>` stands for a JSON field that may be `null` or `undefined`.
    - `Result<T, E>` stands for a promise that resolves to a value or rejects. */
module Wrappers {

  datatype Option<+T> = None | Some(value: T) {

    /** The wrapped value, or `default` when there is none. */
    function GetOr(default: T): T {
      match this
      case Some(v) => v
      case None => default
    }
  }

  datatype Result<+T, +E> = Ok(value: T) | Err(error: E) {

    /** Forgets the error: a rejected promise becomes `None`. */
    function ToOption(): Option<T> {
      match this
      case Ok(v) => Some(v)
      case Err(_) => None
    }
  }
}
