/** The profile page: the name form, the password form and the profile fetch. */
module ProfilePage {
  import opened Wrappers
  import Validators
  import Auth
  import RegisterPage

  /** This form's `passwordMatchValidator`: a mismatch needs both fields filled. */
  predicate PasswordMismatch(newPassword: string, confirm: string) {
    newPassword != "" && confirm != "" && newPassword != confirm
  }

  /** The two password-match rules differ exactly while one field is empty and
      the other is not: registration reports a mismatch there, the profile does not. */
  lemma MismatchValidatorsDiffer(password: string, confirm: string)
    ensures PasswordMismatch(password, confirm) ==> RegisterPage.PasswordMismatch(password, confirm)
    ensures (RegisterPage.PasswordMismatch(password, confirm) && !PasswordMismatch(password, confirm)) <==>
              (password != confirm && (password == "" || confirm == ""))
  {
  }

  /** `profileForm.valid`; the e-mail control is disabled and never counts. */
  predicate ProfileValid(name: string) {
    Validators.Required(name) && Validators.MinLength(name, 2)
  }

  /** `passwordForm.valid`. */
  predicate PasswordChangeValid(current: string, newPassword: string, confirm: string) {
    && Validators.Required(current)
    && Validators.Required(newPassword) && Validators.MinLength(newPassword, 6)
    && Validators.Required(confirm)
    && !PasswordMismatch(newPassword, confirm)
  }

  /** Because both fields are required, the weaker match rule is enough here: a
      valid password form has the new password typed twice the same. */
  lemma ValidPasswordChange(current: string, newPassword: string, confirm: string)
    requires PasswordChangeValid(current, newPassword, confirm)
    ensures newPassword == confirm && Validators.Utf16Length(newPassword) >= 6 && current != ""
  {
    Validators.RequiredMinLength(newPassword, 6);
  }

  class ProfileView {
    var currentUser: Option<Auth.User>
    var name: string
    var email: string
    var currentPassword: string
    var newPassword: string
    var confirmPassword: string
    var isLoading: bool
    var isSubmitting: bool
    var isChangingPassword: bool

    constructor ()
      ensures currentUser == None && name == "" && email == ""
      ensures currentPassword == "" && newPassword == "" && confirmPassword == ""
      ensures !isLoading && !isSubmitting && !isChangingPassword
    {
      currentUser := None;
      name, email := "", "";
      currentPassword, newPassword, confirmPassword := "", "", "";
      isLoading, isSubmitting, isChangingPassword := false, false, false;
    }

    /** `loadUserProfile()`: raise the flag and fetch the profile. */
    method LoadUserProfile()
      modifies this
      ensures isLoading
      ensures currentUser == old(currentUser) && name == old(name) && email == old(email)
      ensures currentPassword == old(currentPassword) && newPassword == old(newPassword)
      ensures confirmPassword == old(confirmPassword)
      ensures isSubmitting == old(isSubmitting) && isChangingPassword == old(isChangingPassword)
    {
      isLoading := true;
    }

    /** The `getUserProfile` subscriber: success shows the user in the name form
        (an absent user empties it); an error keeps what was shown. */
    method OnProfileLoaded(reply: Reply<Auth.ProfileResponse>)
      modifies this
      ensures !isLoading
      ensures reply.Ok? ==> currentUser == reply.body.user
      ensures reply.Ok? && reply.body.user.Some? ==> name == reply.body.user.value.name && email == reply.body.user.value.email
      ensures reply.Ok? && reply.body.user.None? ==> name == "" && email == ""
      ensures reply.Failed? ==> currentUser == old(currentUser) && name == old(name) && email == old(email)
      ensures currentPassword == old(currentPassword) && newPassword == old(newPassword)
      ensures confirmPassword == old(confirmPassword)
      ensures isSubmitting == old(isSubmitting) && isChangingPassword == old(isChangingPassword)
    {
      if reply.Ok? {
        currentUser := reply.body.user;
        if currentUser.Some? {
          name, email := currentUser.value.name, currentUser.value.email;
        } else {
          name, email := "", "";
        }
      }
      isLoading := false;
    }

    /** `onSubmit()`: only for a valid form and no update in flight; sends the name alone. */
    method OnSubmit() returns (update: Option<Auth.ProfileUpdate>)
      modifies this
      ensures update.Some? <==> old(ProfileValid(name)) && !old(isSubmitting)
      ensures update.Some? ==> isSubmitting && update.value == Auth.ProfileUpdate(Some(name), None, None)
      ensures update.None? ==> unchanged(this)
      ensures currentUser == old(currentUser) && name == old(name) && email == old(email)
      ensures currentPassword == old(currentPassword) && newPassword == old(newPassword)
      ensures confirmPassword == old(confirmPassword)
      ensures isLoading == old(isLoading) && isChangingPassword == old(isChangingPassword)
    {
      update := None;
      if ProfileValid(name) && !isSubmitting {
        isSubmitting := true;
        update := Some(Auth.ProfileUpdate(Some(name), None, None));
      }
    }

    /** The subscriber of the name update: success reloads the profile; the flag
        drops on both outcomes. */
    method OnProfileUpdateReply(auth: Auth.AuthService, reply: Reply<Auth.ProfileResponse>)
      requires auth.Valid()
      modifies this, auth
      ensures auth.Valid()
      ensures !isSubmitting
      ensures reply.Ok? ==> isLoading
      ensures reply.Failed? ==> isLoading == old(isLoading) && auth.currentUser == old(auth.currentUser)
      ensures auth.storedToken == old(auth.storedToken) && auth.authenticated == old(auth.authenticated)
      ensures currentUser == old(currentUser) && name == old(name) && email == old(email)
      ensures currentPassword == old(currentPassword) && newPassword == old(newPassword)
      ensures confirmPassword == old(confirmPassword) && isChangingPassword == old(isChangingPassword)
    {
      auth.UpdateProfile(reply);
      if reply.Ok? {
        LoadUserProfile();
      }
      isSubmitting := false;
    }

    /** `onPasswordChange()`: only for a valid form and no change in flight;
        sends the current and the new password, never the confirmation. */
    method OnPasswordChange() returns (update: Option<Auth.ProfileUpdate>)
      modifies this
      ensures update.Some? <==> old(PasswordChangeValid(currentPassword, newPassword, confirmPassword))
                                && !old(isChangingPassword)
      ensures update.Some? ==> isChangingPassword
      ensures update.Some? ==> update.value == Auth.ProfileUpdate(None, Some(currentPassword), Some(newPassword))
      ensures update.Some? ==> newPassword == confirmPassword && Validators.Utf16Length(newPassword) >= 6
      ensures update.None? ==> unchanged(this)
      ensures currentUser == old(currentUser) && name == old(name) && email == old(email)
      ensures currentPassword == old(currentPassword) && newPassword == old(newPassword)
      ensures confirmPassword == old(confirmPassword)
      ensures isLoading == old(isLoading) && isSubmitting == old(isSubmitting)
    {
      update := None;
      if PasswordChangeValid(currentPassword, newPassword, confirmPassword) && !isChangingPassword {
        ValidPasswordChange(currentPassword, newPassword, confirmPassword);
        isChangingPassword := true;
        update := Some(Auth.ProfileUpdate(None, Some(currentPassword), Some(newPassword)));
      }
    }

    /** The subscriber of the password change: success empties the password form
        (`reset()`); the flag drops on both outcomes. */
    method OnPasswordReply(auth: Auth.AuthService, reply: Reply<Auth.ProfileResponse>)
      requires auth.Valid()
      modifies this, auth
      ensures auth.Valid()
      ensures !isChangingPassword
      ensures reply.Ok? ==> currentPassword == "" && newPassword == "" && confirmPassword == ""
      ensures reply.Failed? ==> currentPassword == old(currentPassword) && newPassword == old(newPassword)
                                && confirmPassword == old(confirmPassword) && auth.currentUser == old(auth.currentUser)
      ensures auth.storedToken == old(auth.storedToken) && auth.authenticated == old(auth.authenticated)
      ensures currentUser == old(currentUser) && name == old(name) && email == old(email)
      ensures isLoading == old(isLoading) && isSubmitting == old(isSubmitting)
    {
      auth.UpdateProfile(reply);
      if reply.Ok? {
        currentPassword, newPassword, confirmPassword := "", "", "";
      }
      isChangingPassword := false;
    }
  }
}
