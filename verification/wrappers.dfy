/** Optional values and success/failure results shared by every module.
    `Option` stands for TypeScript's `T | null | undefined`; `Result` stands for a
    call that either returns a value or throws an `Error` carrying a message. */
module Wrappers {

  datatype Option<+T> = None | Some(value: T) {

    /** The value, or `default` when there is none (the `??` operator). */
    function GetOr(default: T): T {
      match this
      case Some(v) => v
      case None => default
    }
  }

  datatype Result<+T, +E> = Ok(value: T) | Err(error: E)

  /** A step that either completes or fails with a message (a `Promise<void>`). */
  datatype Outcome<+E> = Pass | Fail(error: E)
}
