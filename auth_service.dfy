/** The session manager (`AuthService`): the token persisted under the
    `voting_app_token` key, the current user and the authenticated flag that the
    two BehaviorSubjects broadcast. Server replies and the clock are parameters;
    the payload parser of the token is fixed when the service is created. */
module Auth {
  import opened Wrappers
  import Jwt

  datatype User = User(id: string, name: string, email: string, createdAt: string)

  /** Body of POST /auth/login, /auth/register and /auth/refresh. */
  datatype AuthResponse = AuthResponse(message: string, token: string, user: User)

  /** Body of PUT /auth/profile: the updated user, when the server sends one. */
  datatype ProfileResponse = ProfileResponse(user: Option<User>)

  /** Fields of PUT /auth/profile that a caller may send. */
  datatype ProfileUpdate = ProfileUpdate(name: Option<string>, currentPassword: Option<string>,
                                         newPassword: Option<string>)

  const LoginPath := "/auth/login"

  class AuthService {
    /** localStorage['voting_app_token'] */
    var storedToken: Option<string>
    /** currentUserSubject.value */
    var currentUser: Option<User>
    /** isAuthenticatedSubject.value */
    var authenticated: bool
    /** `JSON.parse(atob(segment)).exp` on well-formed segments */
    const parse: string -> Jwt.ExpClaim

    /** Every transition that raises the flag also sets the user. */
    ghost predicate Valid()
      reads this
    {
      authenticated ==> currentUser.Some?
    }

    /** A fresh service: both subjects start at null / false, the storage holds
        whatever an earlier visit left there. */
    constructor (persisted: Option<string>, parse: string -> Jwt.ExpClaim)
      ensures Valid()
      ensures storedToken == persisted && currentUser == None && !authenticated
      ensures this.parse == parse
    {
      storedToken := persisted;
      currentUser := None;
      authenticated := false;
      this.parse := parse;
    }

    /** `if (token)`: `getToken()` returned a non-empty string. */
    predicate HasToken()
      reads this
    {
      Truthy(storedToken)
    }

    /** `isTokenValid()`: a stored token whose `exp` claim is absent or not yet past. */
    function IsTokenValid(now: int): (valid: bool)
      reads this
      ensures !HasToken() ==> !valid
      ensures valid <==> HasToken() && match Jwt.DecodeExp(storedToken.value, parse)
                                       case Malformed => false
                                       case Missing => true
                                       case ExpiresAt(exp) => now <= exp
    {
      HasToken() && !Jwt.IsTokenExpired(storedToken.value, now, parse)
    }

    /** A token valid now was valid at every earlier time. */
    lemma ValidityOnlyLapses(earlier: int, now: int)
      requires earlier <= now
      requires IsTokenValid(now)
      ensures IsTokenValid(earlier)
    {
    }

    /** `clearAuthData()` */
    method ClearAuthData()
      modifies this
      ensures Valid()
      ensures storedToken == None && currentUser == None && !authenticated
    {
      storedToken := None;
      currentUser := None;
      authenticated := false;
    }

    /** The `tap` shared by login and register: store the token, publish the user
        and the flag, schedule a refresh. Returns the timer delay. */
    method StartSession(response: AuthResponse, now: int) returns (refreshMs: Option<int>)
      modifies this
      ensures Valid()
      ensures storedToken == Some(response.token) && currentUser == Some(response.user) && authenticated
      ensures refreshMs == Jwt.RefreshTimerMs(Jwt.DecodeExp(response.token, parse), now)
    {
      storedToken := Some(response.token);
      currentUser := Some(response.user);
      authenticated := true;
      refreshMs := Jwt.RefreshTimerMs(Jwt.DecodeExp(response.token, parse), now);
    }

    /** `login(credentials)` and its reply: success starts a session, an error
        leaves everything as it was. */
    method Login(reply: Reply<AuthResponse>, now: int) returns (refreshMs: Option<int>)
      requires Valid()
      modifies this
      ensures Valid()
      ensures reply.Ok? ==> storedToken == Some(reply.body.token) && currentUser == Some(reply.body.user)
                            && authenticated
      ensures reply.Ok? ==> refreshMs == Jwt.RefreshTimerMs(Jwt.DecodeExp(reply.body.token, parse), now)
      ensures reply.Failed? ==> unchanged(this) && refreshMs == None
    {
      refreshMs := None;
      if reply.Ok? {
        refreshMs := StartSession(reply.body, now);
      }
    }

    /** `register(userData)` and its reply: the same effect as login. */
    method Register(reply: Reply<AuthResponse>, now: int) returns (refreshMs: Option<int>)
      requires Valid()
      modifies this
      ensures Valid()
      ensures reply.Ok? ==> storedToken == Some(reply.body.token) && currentUser == Some(reply.body.user)
                            && authenticated
      ensures reply.Ok? ==> refreshMs == Jwt.RefreshTimerMs(Jwt.DecodeExp(reply.body.token, parse), now)
      ensures reply.Failed? ==> unchanged(this) && refreshMs == None
    {
      refreshMs := None;
      if reply.Ok? {
        refreshMs := StartSession(reply.body, now);
      }
    }

    /** `logout()` and its reply: the local session is cleared, and the router sent
        to the login page, only when the server call succeeds. */
    method Logout(reply: Reply<()>) returns (navigateTo: Option<string>)
      requires Valid()
      modifies this
      ensures Valid()
      ensures reply.Ok? ==> storedToken == None && currentUser == None && !authenticated
      ensures reply.Ok? <==> navigateTo == Some(LoginPath)
      ensures reply.Failed? ==> unchanged(this) && navigateTo == None
    {
      navigateTo := None;
      if reply.Ok? {
        ClearAuthData();
        navigateTo := Some(LoginPath);
      }
    }

    /** The synchronous part of `loadUserFromToken()`: no token leaves everything
        alone, an expired token is cleared without asking the server, and a live
        one issues GET /auth/profile (`fetch`) without changing anything yet. */
    method LoadUserFromToken(now: int) returns (fetch: bool)
      requires Valid()
      modifies this
      ensures Valid()
      ensures !old(HasToken()) ==> unchanged(this) && !fetch
      ensures old(HasToken()) && Jwt.IsTokenExpired(old(storedToken).value, now, parse) ==>
                storedToken == None && currentUser == None && !authenticated && !fetch
      ensures fetch <==> old(IsTokenValid(now))
      ensures fetch ==> unchanged(this)
    {
      fetch := false;
      if HasToken() {
        if Jwt.IsTokenExpired(storedToken.value, now, parse) {
          ClearAuthData();
        } else {
          fetch := true;
        }
      }
    }

    /** The subscriber of that profile fetch, for the token it was issued with:
        success publishes the user and the flag and schedules a refresh, a 401
        clears the session, any other error keeps the token and the state. */
    method OnProfileReply(token: string, reply: Reply<User>, now: int) returns (refreshMs: Option<int>)
      requires Valid()
      modifies this
      ensures Valid()
      ensures reply.Ok? ==> currentUser == Some(reply.body) && authenticated
                            && storedToken == old(storedToken)
                            && refreshMs == Jwt.RefreshTimerMs(Jwt.DecodeExp(token, parse), now)
      ensures reply.Failed? && reply.error.status == 401 ==>
                storedToken == None && currentUser == None && !authenticated && refreshMs == None
      ensures reply.Failed? && reply.error.status != 401 ==> unchanged(this) && refreshMs == None
    {
      refreshMs := None;
      match reply
      case Ok(user) =>
        currentUser := Some(user);
        authenticated := true;
        refreshMs := Jwt.RefreshTimerMs(Jwt.DecodeExp(token, parse), now);
      case Failed(e) =>
        if e.status == 401 {
          ClearAuthData();
        }
    }

    /** `refreshToken()` with the reply of POST /auth/refresh: nothing is sent
        without a token; success replaces the token (user and flag untouched)
        and reschedules, failure clears the session. */
    method RefreshToken(reply: Reply<AuthResponse>, now: int) returns (sent: bool, refreshMs: Option<int>)
      requires Valid()
      modifies this
      ensures Valid()
      ensures sent <==> old(HasToken())
      ensures !sent ==> unchanged(this) && refreshMs == None
      ensures sent && reply.Ok? ==> storedToken == Some(reply.body.token)
                                    && currentUser == old(currentUser) && authenticated == old(authenticated)
                                    && refreshMs == Jwt.RefreshTimerMs(Jwt.DecodeExp(reply.body.token, parse), now)
      ensures sent && reply.Failed? ==> storedToken == None && currentUser == None && !authenticated
                                        && refreshMs == None
    {
      sent := HasToken();
      refreshMs := None;
      if sent {
        match reply
        case Ok(response) =>
          storedToken := Some(response.token);
          refreshMs := Jwt.RefreshTimerMs(Jwt.DecodeExp(response.token, parse), now);
        case Failed(_) =>
          ClearAuthData();
      }
    }

    /** `updateProfile(data)` and its reply: a returned user replaces the current
        one; token and flag never change. */
    method UpdateProfile(reply: Reply<ProfileResponse>)
      requires Valid()
      modifies this
      ensures Valid()
      ensures storedToken == old(storedToken) && authenticated == old(authenticated)
      ensures reply.Ok? && reply.body.user.Some? ==> currentUser == reply.body.user
      ensures !(reply.Ok? && reply.body.user.Some?) ==> currentUser == old(currentUser)
    {
      if reply.Ok? && reply.body.user.Some? {
        currentUser := reply.body.user;
      }
    }
  }

  /** A logout that completes while the profile fetch of `loadUserFromToken` is in
      flight does not stop that fetch: its success raises the flag again with no
      token stored. */
  method LogoutDuringProfileFetch(token: string, user: User, now: int, parse: string -> Jwt.ExpClaim)
    returns (fetched: bool, authenticated: bool, storedToken: Option<string>)
    requires token != "" && !Jwt.IsTokenExpired(token, now, parse)
    ensures fetched && authenticated && storedToken == None
  {
    var auth := new AuthService(Some(token), parse);
    fetched := auth.LoadUserFromToken(now);
    var nav := auth.Logout(Ok(()));
    var refresh := auth.OnProfileReply(token, Ok(user), now);
    authenticated, storedToken := auth.authenticated, auth.storedToken;
  }
}
