/** Failure-compatible wrappers shared by every module of the model. */
module Wrappers {

  /** An optional value: an absent field, a null reference. */
  datatype Option<+T> = None | Some(value: T) {
    /** The value, or `default` when absent. */
    function GetOr(default: T): T {
      if Some? then value else default
    }
  }

  /** A value or a thrown `Error`, represented by its message. */
  datatype Result<+T> = Ok(value: T) | Err(error: string)

  /** A promise with no value: it resolves, or it rejects with a message. */
  datatype Outcome = Pass | Fail(error: string)
}
