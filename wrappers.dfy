/** Option and Result, used for JavaScript's `undefined` and for thrown errors. */
module Wrappers {

  datatype Option<T> = None | Some(value: T)

  /** `Err` stands for an exception that the JavaScript code lets escape. */
  datatype Result<T> = Ok(value: T) | Err(error: string)

}
