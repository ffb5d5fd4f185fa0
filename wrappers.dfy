/** Failure-carrying results shared by every module of the model. */
module Wrappers {

  datatype Option<+T> = None | Some(value: T)

  /** The error classes a request can end in. */
  datatype Error =
    | ServerError(message: string)      // any cache-store failure, surfaced by the cache services
    | BadRequestError(message: string)  // a media upload that came back without a public id
    | TypeError(message: string)        // reading a property of a document the store did not return
    | SyntaxError(message: string)      // `JSON.parse` of a request parameter that is not JSON
    | DatabaseError(message: string)    // an aggregation stage the document store rejects

  datatype Result<+T> = Ok(value: T) | Err(error: Error)

  /** Result of an operation that only changes state. */
  datatype Outcome = Pass | Fail(error: Error)

  /** The one message every cache service throws with. */
  const SERVER_ERROR_MESSAGE: string := "Server error. Try again."

  /**
   * A JavaScript value that is a string or `undefined` (a request-body
   * property the client did not send).
   */
  type Val = Option<string>

  /** The template-string form `${v}`: an absent value prints as "undefined". */
  function Template(v: Val): string {
    match v
    case Some(x) => x
    case None => "undefined"
  }

  /** JavaScript truthiness of a string-or-undefined value. */
  predicate Truthy(v: Val) {
    v.Some? && v.value != ""
  }

  /** `v ? v : ''`: the value when it is truthy, the empty string otherwise. */
  function OrEmpty(v: Val): string {
    if Truthy(v) then v.value else ""
  }
}
