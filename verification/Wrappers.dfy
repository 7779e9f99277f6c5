/** The value wrappers the other modules share. */
module Wrappers {

  datatype Option<+T> = None | Some(value: T)

  datatype Result<+T, +E> = Ok(value: T) | Err(error: E)

  /** An error as the operator sees it: its text, and the HTTP code when an SCC API error is wrapped inside. */
  datatype Fault = Fault(code: Option<int>, text: string)
}
