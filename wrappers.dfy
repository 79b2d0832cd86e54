/** Option and the outcome of an awaited call that may throw. */
module Wrappers {

  datatype Option<+T> = None | Some(value: T)

  /** What a `catch` block receives: an `Error` object with a message, or any other thrown value. */
  datatype Thrown = ErrorObject(message: string) | NonErrorValue

  /** The result of an awaited external call: its value, or the exception it raised. */
  datatype Attempt<+T> = Ok(value: T) | Threw(thrown: Thrown)
}
