/** Shared vocabulary of the client: optional values, the outcome of one
    request to the REST server, and the result descriptor every store
    operation hands back to its caller. */
module Common {

  datatype Option<T> = None | Some(value: T) {
    function GetOr(default: T): T {
      match this
      case Some(v) => v
      case None => default
    }
  }

  /** What one HTTP request produced. `Ok` carries the response body; `Err`
      stands for a rejected request: `serverMsg` is the `message` field of
      the error response body (absent when there was no response or no such
      field) and `transportMsg` is the transport error's own message. */
  datatype Response<T> =
    | Ok(payload: T)
    | Err(serverMsg: Option<string>, transportMsg: Option<string>)

  /** The `{ success, ... }` descriptor the stores return. */
  datatype OpResult<T> = Success(value: T) | Failure(message: string)

  /** The JavaScript idiom `m || fallback` on an optional string: an absent
      value and the empty string (which is falsy) both fall through. */
  function OrElse(m: Option<string>, fallback: string): (r: string)
    ensures r == fallback || (m.Some? && r == m.value)
    ensures r == fallback <== m.None? || m.value == ""
    ensures m.Some? && m.value != "" ==> r == m.value
    ensures fallback != "" ==> r != ""
  {
    if m.Some? && m.value != "" then m.value else fallback
  }

  /** Message a store reports for a failed request:
      `error.response?.data?.message || fallback`. */
  function ServerMessage<T>(resp: Response<T>, fallback: string): (r: string)
    requires resp.Err?
    ensures fallback != "" ==> r != ""
    ensures resp.serverMsg.Some? && resp.serverMsg.value != "" ==> r == resp.serverMsg.value
    ensures resp.serverMsg.None? ==> r == fallback
    ensures resp.serverMsg.Some? && resp.serverMsg.value == "" ==> r == fallback
  {
    OrElse(resp.serverMsg, fallback)
  }
}
