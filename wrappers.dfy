/** Option and Result, the two failure-carrying types the model uses for Python's
    `None` returns and raised `ValueError`s. */
module Wrappers {

  datatype Option<+T> = None | Some(value: T)

  datatype Result<+T> = Ok(value: T) | Err(error: string)
}
