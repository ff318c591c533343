/** The registration form. */
module RegisterPage {
  import opened Wrappers
  import Validators
  import Auth

  /** Body of POST /auth/register: the form value without `confirmPassword`. */
  datatype RegisterRequest = RegisterRequest(name: string, email: string, password: string)

  const RegisterSucceeded := "註冊成功！歡迎加入 VotingApp"
  const RegisterFailed := "註冊失敗，請稍後再試"
  const AfterRegister := "/polls"

  /** This form's `passwordMatchValidator`: any difference is a mismatch, even
      while one of the two fields is still empty. */
  predicate PasswordMismatch(password: string, confirm: string) {
    password != confirm
  }

  /** `registerForm.valid`: the field rules and the group's match rule. */
  predicate RegistrationValid(name: string, email: string, password: string, confirm: string) {
    && Validators.Required(name) && Validators.MinLength(name, 2)
    && Validators.Required(email) && Validators.Email(email)
    && Validators.Required(password) && Validators.MinLength(password, 6)
    && Validators.Required(confirm)
    && !PasswordMismatch(password, confirm)
  }

  /** A valid form carries a name of at least 2 UTF-16 code units and a password
      of at least 6 that was typed twice the same. */
  lemma ValidRegistration(name: string, email: string, password: string, confirm: string)
    requires RegistrationValid(name, email, password, confirm)
    ensures Validators.Utf16Length(name) >= 2 && Validators.Utf16Length(password) >= 6
    ensures password == confirm && email != ""
  {
    Validators.RequiredMinLength(name, 2);
    Validators.RequiredMinLength(password, 6);
  }

  class RegisterForm {
    var name: string
    var email: string
    var password: string
    var confirmPassword: string
    var isLoading: bool

    constructor ()
      ensures name == "" && email == "" && password == "" && confirmPassword == "" && !isLoading
    {
      name, email, password, confirmPassword := "", "", "", "";
      isLoading := false;
    }

    /** What the user typed into the four fields. */
    method Fill(name: string, email: string, password: string, confirm: string)
      modifies this
      ensures this.name == name && this.email == email && this.password == password
      ensures confirmPassword == confirm && isLoading == old(isLoading)
    {
      this.name, this.email, this.password, confirmPassword := name, email, password, confirm;
    }

    predicate FormValid()
      reads this
    {
      RegistrationValid(name, email, password, confirmPassword)
    }

    /** `onSubmit()`: only for a valid form and no request in flight. */
    method OnSubmit() returns (request: Option<RegisterRequest>)
      modifies this
      ensures request.Some? <==> old(FormValid()) && !old(isLoading)
      ensures request.Some? ==> isLoading && request.value == RegisterRequest(name, email, password)
      ensures request.Some? ==> Validators.Utf16Length(request.value.password) >= 6 && request.value.password == confirmPassword
      ensures request.None? ==> unchanged(this)
      ensures name == old(name) && email == old(email) && password == old(password)
      ensures confirmPassword == old(confirmPassword)
    {
      request := None;
      if FormValid() && !isLoading {
        ValidRegistration(name, email, password, confirmPassword);
        isLoading := true;
        request := Some(RegisterRequest(name, email, password));
      }
    }

    /** The `register` subscriber. Success starts the session and goes to the
        poll list with the flag still raised; an error shows the server's message
        or a default and lowers the flag. */
    method OnRegisterReply(auth: Auth.AuthService, reply: Reply<Auth.AuthResponse>, now: int)
      returns (navigateTo: Option<string>, message: string, refreshMs: Option<int>)
      requires auth.Valid()
      modifies this, auth
      ensures auth.Valid()
      ensures reply.Ok? ==> navigateTo == Some(AfterRegister) && message == RegisterSucceeded
                            && isLoading == old(isLoading)
      ensures reply.Ok? ==> auth.authenticated && auth.storedToken == Some(reply.body.token)
                            && auth.currentUser == Some(reply.body.user)
      ensures reply.Failed? ==> navigateTo == None && message == ErrorText(reply.error, RegisterFailed)
                                && !isLoading && unchanged(auth)
      ensures name == old(name) && email == old(email) && password == old(password)
      ensures confirmPassword == old(confirmPassword)
    {
      refreshMs := auth.Register(reply, now);
      if reply.Ok? {
        navigateTo := Some(AfterRegister);
        message := RegisterSucceeded;
      } else {
        navigateTo := None;
        message := ErrorText(reply.error, RegisterFailed);
        isLoading := false;
      }
    }
  }
}
