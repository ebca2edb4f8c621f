/** Failure-carrying values used where the JavaScript code returns null or throws. */
module Wrappers {

  /** `None` stands for JavaScript's null/undefined (an absent or missing value). */
  datatype Option<T> = None | Some(value: T) {
    function GetOr(default: T): T {
      match this
      case Some(v) => v
      case None => default
    }
  }

  /** The outcome of a call that either returns a value or throws an `Error` with a message. */
  datatype Result<T> = Ok(value: T) | Err(error: string)

  /** The outcome of a call that returns nothing or throws an `Error` with a message. */
  datatype Outcome = Pass | Fail(error: string)

  /** JavaScript truthiness of an optional string: present and not the empty string. */
  predicate Truthy(o: Option<string>) {
    o.Some? && o.value != ""
  }
}
