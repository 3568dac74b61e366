/** Failure-compatible wrappers standing in for Rust's `Option` and `Result`.
    Where the source calls `.unwrap()` or `.expect(..)` and would panic, the
    model returns a `Failure` carrying what the panic would have reported. */
module Results {

  datatype Option<+T> = None | Some(value: T) {

    /** Rust's `Option::or`: keeps this value when present, else takes `other`. */
    function Or(other: Option<T>): (r: Option<T>)
      ensures Some? ==> r == this
      ensures None? ==> r == other
    {
      match this
      case Some(_) => this
      case None => other
    }
  }

  datatype Result<+T, +E> = Success(value: T) | Failure(error: E) {

    predicate IsFailure() {
      Failure?
    }

    function PropagateFailure<U>(): Result<U, E>
      requires Failure?
    {
      Failure(error)
    }

    function Extract(): T
      requires Success?
    {
      value
    }

    /** Forgets the error, keeping only whether a value was produced. */
    function ToOption(): Option<T>
    {
      match this
      case Success(v) => Some(v)
      case Failure(_) => None
    }
  }
}
