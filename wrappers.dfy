/** Option and Result shapes shared by the front end and the back end. */
module Wrappers {

  datatype Option<+T> = None | Some(value: T)

  /** The outcome of a call into code outside the model: a value, or the
      message of the exception (or rejected promise) it raised. */
  datatype Result<+T> = Ok(value: T) | Err(error: string)
}
