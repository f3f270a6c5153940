/** Failure-carrying values. Every error in the modelled program is a boxed
    `dyn Error` whose only observable part is its message, so errors are strings. */
module Wrappers {

  datatype Option<+T> = None | Some(value: T) {

    /** `unwrap_or`: the carried value, or `default` when absent. */
    function GetOr(default: T): T {
      match this
      case Some(v) => v
      case None => default
    }
  }

  /** `Result<T, Box<dyn Error>>`, the error reduced to its message. */
  datatype Result<+T> = Ok(value: T) | Err(error: string)

  /** `Result<(), Box<dyn Error>>`. */
  datatype Outcome = Pass | Fail(error: string)
}
