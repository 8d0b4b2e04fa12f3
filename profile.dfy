/** The profile page's two forms: name and e-mail, and the password
    change. */
module Profile {
  import opened Common
  import opened Forms

  const NameEmpty := "Name cannot be empty"
  const EmailInvalid := "Please enter a valid email address"
  const CurrentPasswordRequired := "Current password is required"
  const NewPasswordTooShort := "New password must be at least 6 characters"
  const PasswordsDiffer := "New passwords do not match"
  const MinPasswordLength := 6

  /** The checks of `handleProfileSubmit`, first failure first: a blank
      name, then a blank or malformed e-mail address. */
  function ProfileError(name: string, email: string): (r: Option<string>)
    ensures IsBlank(name) ==> r == Some(NameEmpty)
    ensures !IsBlank(name) && !EmailShape(email) ==> r == Some(EmailInvalid)
  {
    if IsBlank(name) then Some(NameEmpty)
    else if IsBlank(email) || !EmailShape(email) then Some(EmailInvalid)
    else None
  }

  /** The profile is sent exactly when the name is non-blank and the
      e-mail address has the x@y.z shape; the blank-e-mail test adds
      nothing to the pattern. */
  lemma ProfileAcceptedIff(name: string, email: string)
    ensures ProfileError(name, email).None? <==> !IsBlank(name) && EmailShape(email)
  {
    if EmailShape(email) {
      EmailShapeNotBlank(email);
    }
  }

  /** The checks of `handlePasswordSubmit`, in their order: a current
      password, a new one of at least 6 characters, and a matching
      confirmation. */
  function PasswordError(currentPassword: string, newPassword: string, confirmPassword: string): (r: Option<string>)
    ensures r.None? <==> currentPassword != "" && |newPassword| >= MinPasswordLength && newPassword == confirmPassword
    ensures currentPassword == "" ==> r == Some(CurrentPasswordRequired)
    ensures currentPassword != "" && |newPassword| < MinPasswordLength ==> r == Some(NewPasswordTooShort)
  {
    if currentPassword == "" then Some(CurrentPasswordRequired)
    else if |newPassword| < MinPasswordLength then Some(NewPasswordTooShort)
    else if newPassword != confirmPassword then Some(PasswordsDiffer)
    else None
  }

  /** What the server did with a request: accepted it, refused it with an
      optional message, or the call threw with an optional message in its
      response body. */
  datatype ApiOutcome = Accepted | Refused(message: Option<string>) | Threw(message: Option<string>)

  /** `message || fallback` */
  function MessageOr(message: Option<string>, fallback: string): (r: string)
    ensures Truthy(message) ==> r == message.value
    ensures !Truthy(message) ==> r == fallback
  {
    if Truthy(message) then message.value else fallback
  }

  /** The signed-in user kept in the browser's storage. */
  datatype StoredUser = StoredUser(name: string, email: string, role: Option<string>)

  /** The page's form state. */
  class ProfileView {
    var name: string
    var email: string
    var currentPassword: string
    var newPassword: string
    var confirmPassword: string
    var error: Option<string>
    var storedUser: Option<StoredUser>

    constructor (stored: Option<StoredUser>)
      ensures name == "" && email == "" && error.None? && storedUser == stored
      ensures currentPassword == "" && newPassword == "" && confirmPassword == ""
    {
      name, email := "", "";
      currentPassword, newPassword, confirmPassword := "", "", "";
      error := None;
      storedUser := stored;
    }

    /** `handleProfileSubmit`: an invalid form is refused with a message and
        nothing is sent; an accepted update is copied into the stored user,
        when there is one; a refused or failed one sets the page error. */
    method HandleProfileSubmit(outcome: ApiOutcome) returns (sent: bool, toastMessage: Option<string>)
      modifies this
      ensures sent <==> ProfileError(old(name), old(email)).None?
      ensures !sent ==> toastMessage == ProfileError(name, email) && error == old(error) && storedUser == old(storedUser)
      ensures sent && outcome.Accepted? ==>
        && toastMessage == Some("Profile updated successfully") && error.None?
        && storedUser == (if old(storedUser).Some? then Some(old(storedUser).value.(name := name, email := email)) else None)
      ensures sent && outcome.Refused? ==>
        toastMessage.None? && error == Some(MessageOr(outcome.message, "Failed to update profile")) && storedUser == old(storedUser)
      ensures sent && outcome.Threw? ==>
        && error == Some(MessageOr(outcome.message, "Failed to update profile"))
        && toastMessage == error && storedUser == old(storedUser)
      ensures name == old(name) && email == old(email)
      ensures currentPassword == old(currentPassword) && newPassword == old(newPassword) && confirmPassword == old(confirmPassword)
    {
      if IsBlank(name) {
        return false, Some(NameEmpty);
      }
      if IsBlank(email) || !EmailShape(email) {
        return false, Some(EmailInvalid);
      }
      sent := true;
      error := None;
      match outcome
      case Accepted =>
        toastMessage := Some("Profile updated successfully");
        if storedUser.Some? {
          storedUser := Some(storedUser.value.(name := name, email := email));
        }
      case Refused(message) =>
        error := Some(MessageOr(message, "Failed to update profile"));
        toastMessage := None;
      case Threw(message) =>
        error := Some(MessageOr(message, "Failed to update profile"));
        toastMessage := error;
    }

    /** `handlePasswordSubmit`: an invalid change is refused with a message
        and nothing is sent; an accepted change clears the three fields. */
    method HandlePasswordSubmit(outcome: ApiOutcome) returns (sent: bool, toastMessage: Option<string>)
      modifies this
      ensures sent <==> PasswordError(old(currentPassword), old(newPassword), old(confirmPassword)).None?
      ensures !sent ==>
        && toastMessage == PasswordError(currentPassword, newPassword, confirmPassword)
        && currentPassword == old(currentPassword) && newPassword == old(newPassword)
        && confirmPassword == old(confirmPassword) && error == old(error)
      ensures sent && outcome.Accepted? ==>
        && toastMessage == Some("Password updated successfully") && error.None?
        && currentPassword == "" && newPassword == "" && confirmPassword == ""
      ensures sent && !outcome.Accepted? ==>
        && error == Some(MessageOr(outcome.message, "Failed to update password"))
        && toastMessage == (if outcome.Threw? then error else None)
        && currentPassword == old(currentPassword) && newPassword == old(newPassword)
        && confirmPassword == old(confirmPassword)
      ensures name == old(name) && email == old(email) && storedUser == old(storedUser)
    {
      if currentPassword == "" {
        return false, Some(CurrentPasswordRequired);
      }
      if |newPassword| < MinPasswordLength {
        return false, Some(NewPasswordTooShort);
      }
      if newPassword != confirmPassword {
        return false, Some(PasswordsDiffer);
      }
      sent := true;
      error := None;
      match outcome
      case Accepted =>
        toastMessage := Some("Password updated successfully");
        currentPassword, newPassword, confirmPassword := "", "", "";
      case Refused(message) =>
        error := Some(MessageOr(message, "Failed to update password"));
        toastMessage := None;
      case Threw(message) =>
        error := Some(MessageOr(message, "Failed to update password"));
        toastMessage := error;
    }
  }
}
