/**
  * Optional values and results that either carry a value or an error. The types are failure-compatible, so that
  * functions and methods can propagate errors. The errors abstract from message texts to the kinds a caller sees.
  */
module Wrappers {

  datatype Option<+T> = None | Some(value: T) {
    predicate IsFailure() { None? }
    function PropagateFailure<U>(): Option<U>
      requires None?
    {
      None
    }
    function Extract(): T
      requires Some?
    {
      value
    }
  }

  /** The errors the modelled code distinguishes; the message texts are not modelled. */
  datatype Error =
    | Unauthorized
    | BadBatch
    | NotCanonical
    | Cycle
    | IntentConflict
    | UnknownFact
    | UnknownFrontier
    | StoreLaw
    | Constraint
    | Incompatible
    | Panic

  datatype Result<+T> = Ok(value: T) | Err(error: Error) {
    predicate IsFailure() { Err? }
    function PropagateFailure<U>(): Result<U>
      requires Err?
    {
      Err(error)
    }
    function Extract(): T
      requires Ok?
    {
      value
    }
  }
}
