/** The login page: the error passed back in the query string, what a
    login attempt shows, and where the browser goes once the cart has been
    synchronised. */
module Login {
  import opened Common

  const AdminLanding := "/admin/products"
  const LoginSucceeded := "Login successful"
  const LoginFailed := "Login failed"

  /** `error.replace(/_/g, ' ')`: every underscore becomes a space and
      every other character stays. */
  function UnderscoresToSpaces(s: string): (r: string)
    ensures |r| == |s|
    ensures forall i | 0 <= i < |s| :: r[i] == (if s[i] == '_' then ' ' else s[i])
    decreases |s|
  {
    if |s| == 0 then ""
    else [if s[0] == '_' then ' ' else s[0]] + UnderscoresToSpaces(s[1..])
  }

  /** The toast for the `error` query parameter, if it is set and
      non-empty. */
  function ErrorToast(error: Option<string>): (r: Option<string>)
    ensures r.Some? <==> Truthy(error)
    ensures r.Some? ==> r.value == UnderscoresToSpaces(error.value)
    ensures r.Some? ==> |r.value| == |error.value| && forall i | 0 <= i < |r.value| :: r.value[i] != '_'
    ensures r.Some? ==> forall i | 0 <= i < |r.value| && error.value[i] != '_' :: r.value[i] == error.value[i]
  {
    if Truthy(error) then Some(UnderscoresToSpaces(error.value)) else None
  }

  /** Replacing underscores twice changes nothing more. */
  lemma UnderscoresToSpacesIdempotent(s: string)
    ensures UnderscoresToSpaces(UnderscoresToSpaces(s)) == UnderscoresToSpaces(s)
  {
  }

  /** A visitor who is already signed in is sent home on arrival. */
  function OnArrival(loggedIn: bool): (r: Option<string>)
    ensures r.Some? <==> loggedIn
    ensures r.Some? ==> r.value == "/"
  {
    if loggedIn then Some("/") else None
  }

  /** Where the browser goes after the cart sync: an admin to the product
      administration, anyone else to the `redirect` query parameter, or to
      '/' when it is missing or empty. */
  function RedirectTarget(isAdmin: bool, redirect: Option<string>): (r: string)
    ensures r != ""
    ensures isAdmin ==> r == AdminLanding
    ensures !isAdmin && Truthy(redirect) ==> r == redirect.value
    ensures !isAdmin && !Truthy(redirect) ==> r == "/"
  {
    if isAdmin then AdminLanding
    else if Truthy(redirect) then redirect.value
    else "/"
  }

  /** How `syncCartAfterLogin` settled. */
  datatype SyncOutcome = Synced | SyncFailed

  /** `handleLoginSuccess`: the `then` and the `catch` of the cart sync each
      choose a target; a failed sync never keeps the user on the page. */
  function AfterSync(sync: SyncOutcome, isAdmin: bool, redirect: Option<string>): (r: string)
    ensures r == RedirectTarget(isAdmin, redirect)
  {
    match sync
    case Synced =>
      if isAdmin then AdminLanding
      else if Truthy(redirect) then redirect.value else "/"
    case SyncFailed =>
      if isAdmin then AdminLanding
      else if Truthy(redirect) then redirect.value else "/"
  }

  /** What the login request did: accepted, or rejected with the server's
      message, if any. */
  datatype LoginResponse = Accepted | Rejected(message: Option<string>)

  /** What `handleLogin` does: the toast, whether the cart sync is started
      and where the browser then goes; the spinner is off either way. */
  datatype LoginEffect = LoginEffect(toast: string, syncStarted: bool, navigate: Option<string>, loading: bool)

  /** `handleLogin`. `isAdmin` is the stored session's role as read after
      the sync. */
  function HandleLogin(response: LoginResponse, sync: SyncOutcome, isAdmin: bool, redirect: Option<string>)
    : (r: LoginEffect)
    ensures !r.loading
    ensures r.syncStarted <==> response.Accepted?
    ensures r.navigate.Some? <==> r.syncStarted
    ensures response.Accepted? ==> r.toast == LoginSucceeded && r.navigate == Some(RedirectTarget(isAdmin, redirect))
    ensures response.Rejected? && Truthy(response.message) ==> r.toast == response.message.value
    ensures response.Rejected? && !Truthy(response.message) ==> r.toast == LoginFailed
  {
    match response
    case Accepted => LoginEffect(LoginSucceeded, true, Some(AfterSync(sync, isAdmin, redirect)), false)
    case Rejected(message) => LoginEffect(if Truthy(message) then message.value else LoginFailed, false, None, false)
  }
}
