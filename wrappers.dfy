/** Failure-carrying result types shared by the adapters. */
module Wrappers {

  datatype Option<+T> = None | Some(value: T)

  /** A value, or the message of the error that prevented it. */
  datatype Result<+T> = Ok(value: T) | Err(error: string)

  /** What a call into a data provider hands back: its value, or the text
      of the exception it raised. */
  datatype Fetched<+T> = Got(value: T) | Raised(message: string)
}
