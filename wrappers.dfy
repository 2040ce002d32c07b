/** Option and Result, shaped like Rust's own, with what the model needs of them. */
module Wrappers {

  datatype Option<+T> = None | Some(value: T) {

    /** Rust's `Option::ok_or`: `Some(v)` becomes `Ok(v)`, `None` becomes `Err(error)`. */
    function OkOr<E>(error: E): (r: Result<T, E>)
      ensures r.Success? <==> Some?
      ensures Some? ==> r.value == value
      ensures None? ==> r.error == error
    {
      match this
      case Some(v) => Success(v)
      case None => Failure(error)
    }
  }

  /** Rust's `Result`: `Success` is `Ok`, `Failure` is `Err`; usable with `:-` like Rust's `?`. */
  datatype Result<+T, +E> = Success(value: T) | Failure(error: E) {

    predicate IsFailure() {
      Failure?
    }

    function PropagateFailure<U>(): Result<U, E>
      requires Failure?
    {
      Failure(error)
    }

    function Extract(): T
      requires Success?
    {
      value
    }

    /** Rust's `Result::map_err`. */
    function MapErr<F>(convert: E -> F): (r: Result<T, F>)
      ensures r.Success? <==> Success?
      ensures Success? ==> r.value == value
      ensures Failure? ==> r.error == convert(error)
    {
      match this
      case Success(v) => Success(v)
      case Failure(e) => Failure(convert(e))
    }
  }
}
