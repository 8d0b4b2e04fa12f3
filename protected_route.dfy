/** The route guard: a page behind it is shown only to a signed-in user,
    and an admin-only page only to a signed-in admin. */
module ProtectedRoute {
  import opened Common
  import Api

  /** The authorisation rule. */
  predicate Authorized(adminOnly: bool, loggedIn: bool, admin: bool)
    ensures Authorized(adminOnly, loggedIn, admin) ==> loggedIn
    ensures Authorized(adminOnly, loggedIn, admin) && adminOnly ==> admin
    ensures loggedIn && (admin || !adminOnly) ==> Authorized(adminOnly, loggedIn, admin)
  {
    if adminOnly then loggedIn && admin else loggedIn
  }

  /** An admin-only route is stricter than a plain protected one. */
  lemma AdminOnlyIsStricter(loggedIn: bool, admin: bool)
    ensures Authorized(true, loggedIn, admin) ==> Authorized(false, loggedIn, admin)
    ensures Authorized(true, loggedIn, admin) <==> loggedIn && admin
  {
  }

  /** What the guard renders: nothing yet, a redirect, or the page. */
  datatype View = Nothing | Redirect(to: string) | Children

  /** The guard's state: the check runs once, after a short delay. */
  class RouteGuard {
    const adminOnly: bool
    var authChecked: bool
    var isAuthorized: bool

    constructor (adminOnly: bool)
      ensures this.adminOnly == adminOnly && !authChecked && !isAuthorized
    {
      this.adminOnly := adminOnly;
      authChecked := false;
      isAuthorized := false;
    }

    /** The delayed check: the session is read and the verdict recorded. */
    method CheckAuth(session: Api.SessionStore, parse: string -> Api.StoredJson)
      modifies this
      ensures authChecked
      ensures isAuthorized <==> Authorized(adminOnly, session.IsLoggedIn(), session.IsAdmin(parse))
    {
      var isLoggedIn := session.token.Some?;
      var isAdmin := Truthy(session.user) && parse(session.user.value).UserObject?
                     && parse(session.user.value).user.role == Some("admin");
      isAuthorized := if adminOnly then isLoggedIn && isAdmin else isLoggedIn;
      authChecked := true;
    }

    /** The render: nothing before the check; after it, the page for an
        authorised user, otherwise a redirect to '/' from an admin-only
        route and to '/login' from any other. */
    function Render(): (v: View)
      reads this
      ensures v.Nothing? <==> !authChecked
      ensures v.Children? <==> authChecked && isAuthorized
      ensures v.Redirect? ==> v.to == (if adminOnly then "/" else "/login")
    {
      if !authChecked then Nothing
      else if !isAuthorized then Redirect(if adminOnly then "/" else "/login")
      else Children
    }
  }

  /** Once checked, the page is shown exactly to the users the rule
      authorises, and everyone else is sent away; a signed-out visitor of
      a plain protected page is sent to the login page. */
  method Guard(adminOnly: bool, session: Api.SessionStore, parse: string -> Api.StoredJson)
    returns (v: View)
    ensures v.Children? <==> Authorized(adminOnly, session.IsLoggedIn(), session.IsAdmin(parse))
    ensures !v.Children? ==> v == Redirect(if adminOnly then "/" else "/login")
    ensures !adminOnly && !session.IsLoggedIn() ==> v == Redirect("/login")
  {
    var guard := new RouteGuard(adminOnly);
    guard.CheckAuth(session, parse);
    v := guard.Render();
  }
}
