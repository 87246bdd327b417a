/** Failure-carrying result types shared by the whole model. */
module Wrappers {

  datatype Option<+T> = None | Some(value: T)

  /** The outcome of a call that may raise: `Err` stands for a raised exception. */
  datatype Result<+T> = Ok(value: T) | Err(message: string)
}
