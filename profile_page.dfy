/** The profile settings page (src/pages/ProfilePage.tsx): the profile and password
    forms' validation and the password form's reset after a successful change. */
module Profile {
  import opened Wrappers
  import opened Constants
  import opened AuthContext

  /** The `errors` object of the page: a message per field, or no key. */
  datatype ProfileErrors = ProfileErrors(
    name: Option<string>,
    currentPassword: Option<string>,
    newPassword: Option<string>,
    confirmPassword: Option<string>)

  const NO_PROFILE_ERRORS: ProfileErrors := ProfileErrors(None, None, None, None)

  // ---------------------------------------------------------------------------
  // Validation

  /** The errors `validateProfileForm` stores; it replaces the whole errors object. */
  function ProfileFormErrors(name: string): (e: ProfileErrors)
    ensures e == NO_PROFILE_ERRORS <==> name != ""
    ensures e.name.Some? ==> e.name.value == REQUIRED
    ensures e.currentPassword == None && e.newPassword == None && e.confirmPassword == None
  {
    ProfileErrors(if name == "" then Some(REQUIRED) else None, None, None, None)
  }

  function CurrentPasswordError(current: string): (e: Option<string>)
    ensures e.Some? <==> current == ""
    ensures e.Some? ==> e.value == REQUIRED
  {
    if current == "" then Some(REQUIRED) else None
  }

  function NewPasswordError(newPassword: string): (e: Option<string>)
    ensures newPassword == "" ==> e == Some(REQUIRED)
    ensures 0 < |newPassword| < 6 ==> e == Some(PASSWORD_MIN_LENGTH)
    ensures e == None <==> |newPassword| >= 6
  {
    if newPassword == "" then Some(REQUIRED)
    else if |newPassword| < 6 then Some(PASSWORD_MIN_LENGTH)
    else None
  }

  function ConfirmPasswordError(confirm: string, newPassword: string): (e: Option<string>)
    ensures confirm == "" ==> e == Some(REQUIRED)
    ensures confirm != "" && confirm != newPassword ==> e == Some(PASSWORD_MATCH)
    ensures e == None <==> confirm != "" && confirm == newPassword
  {
    if confirm == "" then Some(REQUIRED)
    else if confirm != newPassword then Some(PASSWORD_MATCH)
    else None
  }

  /** What the password form accepts. */
  predicate PasswordFormValid(current: string, newPassword: string, confirm: string)
  {
    current != "" && |newPassword| >= 6 && confirm == newPassword
  }

  /** The errors `validatePasswordForm` stores: the three checks run side by side. */
  function PasswordFormErrors(current: string, newPassword: string, confirm: string): (e: ProfileErrors)
    ensures e.name == None
    ensures e.currentPassword == CurrentPasswordError(current)
    ensures e.newPassword == NewPasswordError(newPassword)
    ensures e.confirmPassword == ConfirmPasswordError(confirm, newPassword)
    ensures e == NO_PROFILE_ERRORS <==> PasswordFormValid(current, newPassword, confirm)
  {
    ProfileErrors(None, CurrentPasswordError(current), NewPasswordError(newPassword),
                  ConfirmPasswordError(confirm, newPassword))
  }

  /** No field's error hides another's: each field's message depends only on its own
      inputs, whatever the other fields hold. */
  lemma PasswordChecksIndependent(c1: string, n1: string, k1: string, c2: string, n2: string, k2: string)
    ensures PasswordFormErrors(c1, n1, k1).currentPassword == PasswordFormErrors(c1, n2, k2).currentPassword
    ensures PasswordFormErrors(c1, n1, k1).newPassword == PasswordFormErrors(c2, n1, k2).newPassword
    ensures PasswordFormErrors(c1, n1, k1).confirmPassword == PasswordFormErrors(c2, n1, k1).confirmPassword
  {
  }

  // ---------------------------------------------------------------------------
  // The page

  class ProfilePage {
    var name: string
    var email: string
    var currentPassword: string
    var newPassword: string
    var confirmPassword: string
    var errors: ProfileErrors
    var isLoading: bool

    constructor ()
      ensures name == "" && email == ""
      ensures currentPassword == "" && newPassword == "" && confirmPassword == ""
      ensures errors == NO_PROFILE_ERRORS && !isLoading
    {
      name, email := "", "";
      currentPassword, newPassword, confirmPassword := "", "", "";
      errors := NO_PROFILE_ERRORS;
      isLoading := false;
    }

    /** The effect on `user`: a signed-in user's name and email fill the form. */
    method LoadUser(user: Option<User>)
      modifies this`name, this`email
      ensures user.Some? ==> name == user.value.name && email == user.value.email
      ensures user.None? ==> name == old(name) && email == old(email)
    {
      if user.Some? {
        name := user.value.name;
        email := user.value.email;
      }
    }

    /** `validateProfileForm`: fills a fresh errors object and stores it. */
    method ValidateProfileForm() returns (valid: bool)
      modifies this`errors
      ensures errors == ProfileFormErrors(name)
      ensures valid <==> name != ""
    {
      var newErrors := NO_PROFILE_ERRORS;
      if name == "" {
        newErrors := newErrors.(name := Some(REQUIRED));
      }
      errors := newErrors;
      valid := newErrors == NO_PROFILE_ERRORS;
    }

    /** `validatePasswordForm`: three independent checks fill a fresh errors object. */
    method ValidatePasswordForm() returns (valid: bool)
      modifies this`errors
      ensures errors == PasswordFormErrors(currentPassword, newPassword, confirmPassword)
      ensures valid <==> PasswordFormValid(currentPassword, newPassword, confirmPassword)
    {
      var newErrors := NO_PROFILE_ERRORS;
      if currentPassword == "" {
        newErrors := newErrors.(currentPassword := Some(REQUIRED));
      }
      if newPassword == "" {
        newErrors := newErrors.(newPassword := Some(REQUIRED));
      } else if |newPassword| < 6 {
        newErrors := newErrors.(newPassword := Some(PASSWORD_MIN_LENGTH));
      }
      if confirmPassword == "" {
        newErrors := newErrors.(confirmPassword := Some(REQUIRED));
      } else if confirmPassword != newPassword {
        newErrors := newErrors.(confirmPassword := Some(PASSWORD_MATCH));
      }
      errors := newErrors;
      valid := newErrors == NO_PROFILE_ERRORS;
    }

    /** `handleUpdateProfile`: validates and sends the name; the page keeps no result. */
    method HandleUpdateProfile(reply: Reply)
      modifies this`errors, this`isLoading
      ensures errors == ProfileFormErrors(old(name))
      ensures isLoading == (if old(name) != "" then false else old(isLoading))
    {
      var valid := ValidateProfileForm();
      if !valid {
        return;
      }
      isLoading := true;
      isLoading := false;
    }

    /** `handleChangePassword` with `reply` the answer to the password request. */
    method HandleChangePassword(reply: Reply)
      modifies this`errors, this`isLoading, this`currentPassword, this`newPassword, this`confirmPassword
      ensures errors == PasswordFormErrors(old(currentPassword), old(newPassword), old(confirmPassword))
      ensures var valid := PasswordFormValid(old(currentPassword), old(newPassword), old(confirmPassword));
        && isLoading == (if valid then false else old(isLoading))
        && (if valid && reply.Succeeded?
            then currentPassword == "" && newPassword == "" && confirmPassword == ""
            else currentPassword == old(currentPassword) && newPassword == old(newPassword)
                 && confirmPassword == old(confirmPassword))
    {
      var valid := ValidatePasswordForm();
      if !valid {
        return;
      }
      isLoading := true;
      if reply.Succeeded? {
        currentPassword := "";
        newPassword := "";
        confirmPassword := "";
      }
      isLoading := false;
    }

    /** `handleLogout`: logs the provider out (navigation and the toast are not modelled). */
    method HandleLogout(auth: AuthProvider)
      requires auth.Valid()
      modifies auth
      ensures auth.State() == LogoutStep(old(auth.State()))
      ensures auth.Valid()
    {
      auth.Logout();
    }
  }
}
