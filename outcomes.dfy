/** Optional request values and the replies a handler gives. */
module Outcomes {

  /** A value a JSON body may carry or leave out. */
  datatype Option<+T> = None | Some(value: T) {
    /** `data.get(key, default)`. */
    function GetOr(default: T): (r: T)
      ensures Some? ==> r == value
      ensures None? ==> r == default
    {
      match this
      case Some(v) => v
      case None => default
    }
  }

  /** Python truthiness of an optional integer field: absent and 0 are both falsy. */
  predicate Truthy(x: Option<int>) {
    x.Some? && x.value != 0
  }

  /** Python truthiness of an optional string field: absent and "" are both falsy. */
  predicate TruthyText(x: Option<string>) {
    x.Some? && x.value != ""
  }

  /** The error replies of the handlers, and the ValueError of a model validator. */
  datatype Error =
    | BadRequest    // HTTP 400
    | NotFound      // HTTP 404
    | ServerError   // an exception the handler does not catch: HTTP 500
    | InvalidValue  // ValueError raised by a column validator

  /** A reply carrying a value on success. */
  datatype Result<+T> = Ok(value: T) | Err(error: Error)

  /** A reply whose success carries only a message. */
  datatype Outcome = Done | Failed(error: Error)
}
