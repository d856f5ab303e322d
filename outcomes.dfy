/** Failure values for the places where the ray caster throws. */
module Outcomes {

  /** The two exceptions the core can raise. */
  datatype Error =
    | InvalidObject   // `isCollides` was given no object or a non-finite coordinate
    | RowOutOfRange   // `isCollides` indexed a map row that does not exist (a TypeError in JavaScript)

  datatype Option<T> = None | Some(value: T)

  /** A value, or the exception that replaced it. */
  datatype Result<T> = Ok(value: T) | Err(error: Error)

  /** A state change that either completed or was cut short by an exception. */
  datatype Outcome = Pass | Fail(error: Error)
}
