/** Outcome types shared by every module of the model. */
module Results {

  datatype Option<+T> = None | Some(value: T)

  /** The value and error pair a Go function returns; usable with `:-`. */
  datatype Result<+T, +E> = Success(value: T) | Failure(error: E) {

    predicate IsFailure() {
      Failure?
    }

    function PropagateFailure<U>(): Result<U, E>
      requires Failure?
    {
      Failure(error)
    }

    function Extract(): T
      requires Success?
    {
      value
    }
  }
}
