/** Outcomes of a restoration run: values that may be absent, and the
    exceptions with which a run ends without a reconstruction. */
module Failures {

  datatype Option<T> = None | Some(value: T)

  /** Why a run ends early, named after what the program raises there. */
  datatype Failure =
    | MissingKey(key: string)           // a dictionary lookup outside any try block
    | EmptyReduction(operation: string) // the minimum or maximum of a zero-size volume
    | InvalidData                       // the data check's assertion
    | Unbound(name: string)             // a local variable that option parsing left unassigned
    | WrongType(name: string)           // a save folder or save name that is not a string
    | UndefinedSchedule                 // log2 of a non-positive iteration count
    | NonFinite(pass: nat)              // a zero divisor in the given (0-based) pass

  datatype Result<T> = Ok(value: T) | Err(failure: Failure)
}
