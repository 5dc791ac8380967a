/** Small failure-carrying datatypes shared by the other modules. */
module Wrappers {

  /** A value that may be absent: JavaScript's `null`/`undefined` next to a real value. */
  datatype Option<+T> = None | Some(value: T)

  /** The outcome of a step that can throw; the error carries the thrown message. */
  datatype Result<+T> = Ok(value: T) | Err(error: string)
}
