/** Results shared by the modules: the source's `null`/`undefined` and its exceptions. */
module Outcomes {

  datatype Option<+T> = None | Some(value: T)

  datatype Result<+T, +E> = Ok(value: T) | Err(error: E)

  /** The outcome of an effect that returns nothing: it completes or raises. */
  datatype Outcome<+E> = Done | Raised(error: E) {
    predicate IsFailure() {
      Raised?
    }

    function PropagateFailure(): Outcome<E>
      requires Raised?
    {
      this
    }
  }
}
