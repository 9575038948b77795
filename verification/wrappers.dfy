/** Outcome types shared by the model. A Python exception that ends the
    program (an `assert`, `exit(msg)`, an uncaught `ValueError`) becomes a
    `Failure` carrying the text the program would report. */
module Wrappers {

  datatype Option<+T> = None | Some(value: T)

  datatype Result<+T> = Success(value: T) | Failure(error: string) {

    predicate IsFailure() {
      Failure?
    }

    function PropagateFailure<U>(): Result<U>
      requires Failure?
    {
      Failure(error)
    }

    function Extract(): T
      requires Success?
    {
      value
    }
  }
}
