/** Swift's `Optional` and `Result`, and the outcome of a `throws` function. */
module Wrappers {

  /** `Optional<Wrapped>`: `nil` or a wrapped value. */
  datatype Option<+T> = None | Some(value: T)
  {
    /** `Optional.map`: applies `f` to a wrapped value, keeps `nil`. */
    function Map<U>(f: T -> U): (r: Option<U>)
      ensures r.Some? <==> Some?
      ensures r.Some? ==> r.value == f(value)
    {
      match this
      case None => None
      case Some(v) => Some(f(v))
    }

    /** `Optional.flatMap`: applies a failable `f` to a wrapped value, keeps `nil`. */
    function FlatMap<U>(f: T -> Option<U>): (r: Option<U>)
      ensures None? ==> r.None?
      ensures Some? ==> r == f(value)
    {
      match this
      case None => None
      case Some(v) => f(v)
    }
  }

  /** `Result<Success, Failure>`; also what a `throws` function returns or throws. */
  datatype Result<+T, +E> = Success(value: T) | Failure(error: E)
  {
    predicate IsFailure() {
      Failure?
    }

    function PropagateFailure<U>(): Result<U, E>
      requires Failure?
    {
      Failure(error)
    }

    function Extract(): T
      requires Success?
    {
      value
    }
  }
}
