/** Failure-compatible result type for the sizing engine.
    Over the reals, the engine can fail only on division by zero and on the
    logarithm of a non-positive number; the model returns those two faults as
    values. Float overflow is not modelled. */
module Wrappers {

  /** The two run-time faults the engine can raise over the reals. */
  datatype Fault =
    | ZeroDivision  // `ZeroDivisionError` from a float division by zero
    | MathDomain    // `ValueError: math domain error` from `math.log(x)` with x <= 0

  datatype Result<+T> = Ok(value: T) | Err(fault: Fault) {

    predicate IsFailure() {
      Err?
    }

    function PropagateFailure<U>(): Result<U>
      requires Err?
    {
      Err(fault)
    }

    function Extract(): T
      requires Ok?
    {
      value
    }
  }
}
