/** Optional values and the results of the handlers' awaited steps. */
module Outcomes {

  datatype Option<+T> = None | Some(value: T)

  /** The value an awaited step produces, or the `message` of the error it throws. */
  datatype Result<+T> = Ok(value: T) | Err(message: string)

  /** A step that produces nothing on success (a `Promise<void>`). */
  datatype Outcome = Pass | Fail(message: string)
}
