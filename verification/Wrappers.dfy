/** Failure-carrying datatypes shared by the models. */
module Wrappers {

  datatype Option<+T> = None | Some(value: T)

  datatype Result<+R, +E> = Success(value: R) | Failure(error: E)

  /** The state after a call that changes nothing when it is refused. */
  function OrSame<R, E>(was: R, r: Result<R, E>): R {
    match r
    case Success(post) => post
    case Failure(_) => was
  }
}
