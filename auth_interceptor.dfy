/** The HTTP interceptor: it adds the bearer token to every request (section 2.1
    of RFC 6750) and answers a 401 with a logout. */
module Interceptor {
  import opened Wrappers
  import Auth

  /** An outgoing request; header names are kept as written. */
  datatype HttpRequest = HttpRequest(verb: string, url: string, headers: map<string, string>)

  const AuthorizationHeader := "Authorization"
  const BearerPrefix := "Bearer "

  /** The request sent on: the original when `getToken()` is falsy, otherwise a
      clone whose `Authorization` header is `Bearer <token>`. */
  function WithBearer(req: HttpRequest, token: Option<string>): (out: HttpRequest)
    ensures !Truthy(token) ==> out == req
    ensures Truthy(token) ==>
              && out.verb == req.verb && out.url == req.url
              && out.headers.Keys == req.headers.Keys + {AuthorizationHeader}
              && out.headers[AuthorizationHeader] == BearerPrefix + token.value
              && (forall h :: h in req.headers && h != AuthorizationHeader ==> out.headers[h] == req.headers[h])
  {
    if Truthy(token) then
      req.(headers := req.headers[AuthorizationHeader := BearerPrefix + token.value])
    else req
  }

  /** What a server reads back from an `Authorization` header. */
  function BearerCredential(header: string): (token: Option<string>)
    ensures token.Some? ==> header == BearerPrefix + token.value
  {
    if |header| >= |BearerPrefix| && header[..|BearerPrefix|] == BearerPrefix
    then Some(header[|BearerPrefix|..]) else None
  }

  /** The credential a server reads from the forwarded request is the stored token. */
  lemma BearerRoundTrip(req: HttpRequest, token: Option<string>)
    requires Truthy(token)
    ensures BearerCredential(WithBearer(req, token).headers[AuthorizationHeader]) == token
  {
    var header := BearerPrefix + token.value;
    assert header[..|BearerPrefix|] == BearerPrefix;
    assert header[|BearerPrefix|..] == token.value;
  }

  class AuthInterceptor {
    const authService: Auth.AuthService

    constructor (authService: Auth.AuthService)
      ensures this.authService == authService
    {
      this.authService := authService;
    }

    /** `intercept(req, next)`, request side. */
    method Intercept(req: HttpRequest) returns (forwarded: HttpRequest)
      ensures forwarded == WithBearer(req, authService.storedToken)
      ensures !authService.HasToken() ==> forwarded == req
    {
      forwarded := WithBearer(req, authService.storedToken);
    }

    /** `intercept(req, next)`, error side, with the reply to the logout it may
        trigger. A 401 subscribes to `logout()`: on success its `tap` clears the
        session and navigates to the login page, then `complete` navigates there
        again; on failure neither runs and the session stays. The error is
        re-raised unchanged in every case. */
    method OnError(error: HttpError, logoutReply: Reply<()>)
      returns (rethrown: HttpError, logoutSent: bool, navigations: seq<string>)
      requires authService.Valid()
      modifies authService
      ensures authService.Valid()
      ensures rethrown == error
      ensures logoutSent <==> error.status == 401
      ensures !logoutSent ==> unchanged(authService) && navigations == []
      ensures logoutSent && logoutReply.Ok? ==>
                authService.storedToken == None && authService.currentUser == None
                && !authService.authenticated
                && navigations == [Auth.LoginPath, Auth.LoginPath]
      ensures logoutSent && logoutReply.Failed? ==> unchanged(authService) && navigations == []
    {
      rethrown := error;
      logoutSent := error.status == 401;
      navigations := [];
      if logoutSent {
        var nav := authService.Logout(logoutReply);
        if logoutReply.Ok? {
          navigations := [nav.value, Auth.LoginPath];
        }
      }
    }
  }
}
