/** Failure-compatible result type for the two exceptions the geometry can raise. */
module Wrappers {

  /** `ParallelError` is the renderer's own exception (ray parallel to a plane);
      `ZeroDivisionError` is what Python raises for a float division by zero. */
  datatype Error = ParallelError | ZeroDivisionError

  /** Either the value an operation returns or the exception it raises. */
  datatype Result<+T> = Ok(value: T) | Err(error: Error) {

    predicate IsFailure() {
      Err?
    }

    function PropagateFailure<U>(): Result<U>
      requires Err?
    {
      Err(error)
    }

    function Extract(): T
      requires Ok?
    {
      value
    }
  }
}
