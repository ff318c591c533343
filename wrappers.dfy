/** Values shared by every part of the model: optional values, server replies and
    the JavaScript truthiness tests the components apply to them. */
module Wrappers {

  /** `T | null | undefined`: the source never distinguishes null from undefined
      where it matters, so both are `None`. */
  datatype Option<+T> = None | Some(value: T) {
    function GetOr(default: T): (r: T)
      ensures Some? ==> r == value
      ensures None? ==> r == default
    {
      if Some? then value else default
    }
  }

  /** An `HttpErrorResponse`: its status and the `error` field of its JSON body. */
  datatype HttpError = HttpError(status: int, serverError: Option<string>)

  /** What the REST API answered to one request: the decoded body, or an error. */
  datatype Reply<+T> = Ok(body: T) | Failed(error: HttpError)

  /** JavaScript truthiness of a `string | null | undefined`: absent and '' are falsy. */
  predicate Truthy(s: Option<string>) {
    s.Some? && s.value != ""
  }

  /** `s || fallback` for a possibly absent string. */
  function OrElse(s: Option<string>, fallback: string): (r: string)
    ensures Truthy(s) ==> r == s.value
    ensures !Truthy(s) ==> r == fallback
    ensures r != "" || fallback == ""
  {
    if Truthy(s) then s.value else fallback
  }

  /** `error.error?.error || fallback`: the text a component shows for a failed call. */
  function ErrorText(e: HttpError, fallback: string): (text: string)
    ensures fallback != "" ==> text != ""
    ensures text == fallback || (e.serverError.Some? && text == e.serverError.value)
  {
    OrElse(e.serverError, fallback)
  }
}
