/** Option and Outcome: absence of a value, and a computation that either
    returns a value or raises an exception that escapes to the caller. */
module Wrappers {

  datatype Option<+T> = None | Some(value: T)

  /** `Raised(error)` stands for a Python exception carrying the text `error`. */
  datatype Outcome<+T> = Ok(value: T) | Raised(error: string)
}
