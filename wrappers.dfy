/** Option and Outcome: the values the model uses in place of Python's
    None and of exceptions raised by foreign calls. */
module Wrappers {

  datatype Option<+T> = None | Some(value: T)

  /** The outcome of a call into code outside the model: a payload, or the
      message `str(e)` of the exception it raised. */
  datatype Outcome<+T> = Ok(value: T) | Err(reason: string)
}
