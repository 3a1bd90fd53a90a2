/** Failure-compatible results: a failed `CHECK` aborts the process. */
module Wrappers {

  datatype Option<+T> = None | Some(value: T)

  datatype Result<+T> = Ok(value: T) | CheckFailed {
    predicate IsFailure() {
      CheckFailed?
    }

    function PropagateFailure<U>(): Result<U>
      requires CheckFailed?
    {
      CheckFailed
    }

    function Extract(): T
      requires Ok?
    {
      value
    }
  }
}
