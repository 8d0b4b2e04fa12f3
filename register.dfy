/** The registration form's checks. */
module Register {
  import opened Common
  import Profile

  const PasswordsDiffer := "Passwords do not match"
  const PasswordTooShort := "Password must be at least 6 characters"

  /** The account the register call creates. */
  datatype Registration = Registration(name: string, email: string, password: string)

  /** `handleRegister`: a mismatched confirmation is reported first, then a
      password shorter than 6 characters; only when both pass is the
      register call made, with the name, e-mail and password. */
  function HandleRegister(name: string, email: string, password: string, confirmPassword: string)
    : (r: Result<Registration, string>)
    ensures r.Ok? <==> password == confirmPassword && |password| >= Profile.MinPasswordLength
    ensures password != confirmPassword ==> r == Err(PasswordsDiffer)
    ensures password == confirmPassword && |password| < Profile.MinPasswordLength ==> r == Err(PasswordTooShort)
    ensures r.Ok? ==> r.value == Registration(name, email, password)
  {
    if password != confirmPassword then Err(PasswordsDiffer)
    else if |password| < Profile.MinPasswordLength then Err(PasswordTooShort)
    else Ok(Registration(name, email, password))
  }

  /** The two pages check the same two conditions in opposite orders: a short
      password that does not match its confirmation is a mismatch here and
      a too-short password on the profile page. */
  lemma ChecksInOppositeOrder()
    ensures HandleRegister("a", "a@b.c", "abc", "abd") == Err(PasswordsDiffer)
    ensures Profile.PasswordError("old", "abc", "abd") == Some(Profile.NewPasswordTooShort)
  {
  }

  /** A password the registration form accepts also passes the profile
      page's checks once the current password is given. */
  lemma AcceptedHereAcceptedOnProfile(name: string, email: string, password: string, current: string)
    requires HandleRegister(name, email, password, password).Ok? && current != ""
    ensures Profile.PasswordError(current, password, password).None?
  {
  }
}
