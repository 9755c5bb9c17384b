/** Option and Result, used for JavaScript's `undefined`/NaN results and for thrown errors. */
module Wrappers {

  datatype Option<+T> = None | Some(value: T)

  datatype Result<+R, +E> = Success(value: R) | Failure(error: E)

  /** The error carried by a failed result, or None when it succeeded. */
  function FailureOf<R, E>(r: Result<R, E>): Option<E>
  {
    match r
    case Success(_) => None
    case Failure(e) => Some(e)
  }
}
