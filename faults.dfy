/** Option and Result values, and the Python exceptions the core can raise
    without catching them. */
module Faults {

  datatype Option<+T> = None | Some(value: T)

  /** The exceptions that escape the core's functions: `units[i]` past the
      end of the unit tuple, and a division of the used capacity by zero. */
  datatype Fault = IndexError | ZeroDivisionError

  /** A computation that either yields a value or raises a `Fault`. */
  datatype Result<+T> = Ok(value: T) | Raised(fault: Fault) {

    predicate IsFailure() {
      Raised?
    }

    function PropagateFailure<U>(): Result<U>
      requires Raised?
    {
      Raised(fault)
    }

    function Extract(): T
      requires Ok?
    {
      value
    }
  }
}
