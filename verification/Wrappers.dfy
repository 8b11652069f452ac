/** Failure-compatible results shared by every module. */
module Wrappers {

  datatype Option<+T> = None | Some(value: T)

  /** The error classes a durable operation can report. */
  datatype FleetError = Invalid | NotFound | NotMember | Conflict | LeaseConflict | Persistence

  datatype Result<+T> = Ok(value: T) | Err(error: FleetError) {
    predicate IsFailure() {
      Err?
    }

    function PropagateFailure<U>(): Result<U>
      requires Err?
    {
      Err(error)
    }

    function Extract(): T
      requires Ok?
    {
      value
    }
  }

  /** The outcome of a guard: either nothing happened or the operation stops. */
  datatype Guard = Pass | Stop(error: FleetError) {
    predicate IsFailure() {
      Stop?
    }

    function PropagateFailure<U>(): Result<U>
      requires Stop?
    {
      Err(error)
    }
  }

  function Need(condition: bool, error: FleetError): (g: Guard)
    ensures g.Pass? <==> condition
  {
    if condition then Pass else Stop(error)
  }
}
