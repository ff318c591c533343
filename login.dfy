/** The login form, and the round trip through the guard's redirect. */
module LoginPage {
  import opened Wrappers
  import Validators
  import Auth
  import Jwt
  import Guards

  /** Body of POST /auth/login. */
  datatype Credentials = Credentials(email: string, password: string)

  const DefaultReturnUrl := "/polls"
  const LoginSucceeded := "登入成功！"
  const LoginFailed := "登入失敗，請檢查您的帳號密碼"

  /** `loginForm.valid`. */
  predicate CredentialsValid(email: string, password: string) {
    Validators.Required(email) && Validators.Email(email) && Validators.Required(password)
  }

  class LoginForm {
    var email: string
    var password: string
    var isLoading: bool
    var returnUrl: string

    constructor ()
      ensures email == "" && password == "" && !isLoading && returnUrl == DefaultReturnUrl
    {
      email, password := "", "";
      isLoading := false;
      returnUrl := DefaultReturnUrl;
    }

    /** `ngOnInit()`: the `returnUrl` query parameter, or the poll list when it is
        absent or empty. */
    method NgOnInit(returnParam: Option<string>)
      modifies this
      ensures Truthy(returnParam) ==> returnUrl == returnParam.value
      ensures !Truthy(returnParam) ==> returnUrl == DefaultReturnUrl
      ensures returnUrl != ""
      ensures email == old(email) && password == old(password) && isLoading == old(isLoading)
    {
      returnUrl := OrElse(returnParam, DefaultReturnUrl);
    }

    /** What the user typed into the two fields. */
    method Fill(email: string, password: string)
      modifies this
      ensures this.email == email && this.password == password
      ensures isLoading == old(isLoading) && returnUrl == old(returnUrl)
    {
      this.email, this.password := email, password;
    }

    /** `onSubmit()`: only for a valid form and no request in flight. */
    method OnSubmit() returns (request: Option<Credentials>)
      modifies this
      ensures request.Some? <==> old(CredentialsValid(email, password)) && !old(isLoading)
      ensures request.Some? ==> isLoading && request.value == Credentials(email, password)
      ensures request.None? ==> unchanged(this)
      ensures email == old(email) && password == old(password) && returnUrl == old(returnUrl)
    {
      request := None;
      if CredentialsValid(email, password) && !isLoading {
        isLoading := true;
        request := Some(Credentials(email, password));
      }
    }

    /** The `login` subscriber. Success starts the session and goes to `returnUrl`
        with the flag still raised; an error shows the server's message or a
        default and lowers the flag. */
    method OnLoginReply(auth: Auth.AuthService, reply: Reply<Auth.AuthResponse>, now: int)
      returns (navigateTo: Option<string>, message: string, refreshMs: Option<int>)
      requires auth.Valid()
      modifies this, auth
      ensures auth.Valid()
      ensures reply.Ok? ==> navigateTo == Some(returnUrl) && message == LoginSucceeded && isLoading == old(isLoading)
      ensures reply.Ok? ==> auth.authenticated && auth.storedToken == Some(reply.body.token)
                            && auth.currentUser == Some(reply.body.user)
      ensures reply.Failed? ==> navigateTo == None && message == ErrorText(reply.error, LoginFailed)
                                && !isLoading && unchanged(auth)
      ensures email == old(email) && password == old(password) && returnUrl == old(returnUrl)
    {
      refreshMs := auth.Login(reply, now);
      if reply.Ok? {
        navigateTo := Some(returnUrl);
        message := LoginSucceeded;
      } else {
        navigateTo := None;
        message := ErrorText(reply.error, LoginFailed);
        isLoading := false;
      }
    }
  }

  /** A visitor without a session asks for `url`: the guard sends them to the login
      page carrying `url` as `returnUrl`; a successful login navigates with the
      command `[url]`; and the guard now lets the same navigation through. */
  method ReturnAfterLogin(url: string, email: string, password: string, response: Auth.AuthResponse,
                          now: int, parse: string -> Jwt.ExpClaim)
    returns (firstAllowed: bool, redirect: Option<Guards.Navigation>, navigatedWith: Option<string>, secondAllowed: bool)
    requires url != "" && CredentialsValid(email, password)
    ensures !firstAllowed && redirect == Some(Guards.Navigation(Auth.LoginPath, Some(url)))
    ensures navigatedWith == Some(url)
    ensures secondAllowed
  {
    var auth := new Auth.AuthService(None, parse);
    var guard := new Guards.AuthGuard(auth);
    var fetch;
    firstAllowed, redirect, fetch := guard.CanActivate(url, now);
    var login := new LoginForm();
    login.NgOnInit(redirect.value.returnUrl);
    login.Fill(email, password);
    var request := login.OnSubmit();
    var message, refreshMs;
    navigatedWith, message, refreshMs := login.OnLoginReply(auth, Ok(response), now);
    var navigation;
    secondAllowed, navigation, fetch := guard.CanActivate(url, now);
  }
}
