/** Small datatypes shared by every module: an optional value, and the way an
    awaited JavaScript promise settles. */
module Wrappers {

  datatype Option<+T> = None | Some(value: T) {
    function GetOr(default: T): T {
      match this
      case Some(v) => v
      case None => default
    }
  }

  /** The outcome of one awaited external call: it resolves with a value, or it
      rejects with an error whose `message` may be empty (or absent). */
  datatype Settled<+T> = Resolved(value: T) | Rejected(message: string)
}
