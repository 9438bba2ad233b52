/** Option, Result and Outcome types used across the model. */
module Wrappers {

  /** A value that may be absent: JavaScript's `null`/`undefined` next to a present value. */
  datatype Option<+T> = None | Some(value: T)

  /** The value of an operation that either yields a result or raises an error. */
  datatype Result<+R, +E> = Success(value: R) | Failure(error: E)

  /** Applies `f` to a success value and passes an error through unchanged. */
  function MapSuccess<R, S, E>(r: Result<R, E>, f: R -> S): (o: Result<S, E>)
    ensures o.Failure? <==> r.Failure?
    ensures o.Failure? ==> o.error == r.error
    ensures o.Success? ==> o.value == f(r.value)
  {
    match r
    case Success(v) => Success(f(v))
    case Failure(e) => Failure(e)
  }

  /** The outcome of an operation that changes state and may be rejected. */
  datatype Outcome<+E> = Pass | Fail(error: E)
}
