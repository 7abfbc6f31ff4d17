/** The route guard wrapped around both dashboards. */
module ProtectedRoute {
  import opened Wrappers
  import opened Text
  import opened Roles
  import opened AuthContext

  datatype Decision = RedirectToLogin | RenderChildren

  /** An unauthenticated visitor is sent to the login page; so is one whose
      lower-cased role is not listed, when a list is given. A list, even an
      empty one, is truthy. */
  function Guard(isAuthenticated: bool, role: Option<string>, allowedRoles: Option<seq<string>>): (d: Decision)
    ensures !isAuthenticated ==> d == RedirectToLogin
    ensures isAuthenticated && allowedRoles.None? ==> d == RenderChildren
    ensures allowedRoles == Some([]) ==> d == RedirectToLogin
    ensures d == RenderChildren <==>
      isAuthenticated && (allowedRoles.None? || (role.Some? && Lower(role.value) in allowedRoles.value))
  {
    if !isAuthenticated then RedirectToLogin
    else if allowedRoles.Some? && !(role.Some? && Lower(role.value) in allowedRoles.value) then RedirectToLogin
    else RenderChildren
  }

  function GuardSession(s: Session, allowedRoles: Option<seq<string>>): Decision {
    Guard(s.isAuthenticated, s.role, allowedRoles)
  }

  /** The roles each dashboard route admits. */
  function AllowedRoles(r: Route): seq<string> {
    match r
    case AdminDashboardRoute => ["admin"]
    case UserDashboardRoute => ["user"]
  }

  /** After a logout every protected page redirects. */
  lemma LoggedOutRedirects(allowedRoles: Option<seq<string>>)
    ensures GuardSession(LoggedOut, allowedRoles) == RedirectToLogin
  {
  }

  /** A consistent session is admitted to a page without a role list
      exactly when someone is logged in. */
  lemma NoListAdmitsAnyUser(s: Session)
    requires Consistent(s)
    ensures GuardSession(s, None) == RenderChildren <==> s.user.Some?
  {
  }

  /** Login stores the lower-cased role, so the guard admits a logged-in
      user to a dashboard exactly when the role, in any letter case,
      names it. */
  lemma LoginAdmitsIff(data: UserRecord, r: Route)
    requires data.role.Some?
    ensures GuardSession(LoginStep(data), Some(AllowedRoles(r))) == RenderChildren <==>
      Lower(data.role.value) == AllowedRoles(r)[0]
  {
    LowerIdempotent(data.role.value);
  }

  /** For a role without surrounding white space, the dashboard the login
      page navigates to is one the guard admits. */
  lemma DestinationAdmitted(data: UserRecord, r: Route)
    requires data.role.Some? && Trim(data.role.value) == data.role.value
    requires Destination(data.role.value) == Some(r)
    ensures GuardSession(LoginStep(data), Some(AllowedRoles(r))) == RenderChildren
  {
    LoginAdmitsIff(data, r);
  }

  /** The login page trims the role before choosing a dashboard but the
      session stores it untrimmed, so the role " admin" is sent to the admin
      dashboard and turned back by its guard. */
  lemma PaddedRoleBouncedBack(data: UserRecord)
    requires data.role == Some(" admin")
    ensures Destination(data.role.value) == Some(AdminDashboardRoute)
    ensures GuardSession(LoginStep(data), Some(AllowedRoles(AdminDashboardRoute))) == RedirectToLogin
  {
    var role := data.role.value;
    assert role == [' '] + "admin";
    PaddedTrim([' '], "admin", []);
    assert [' '] + "admin" + [] == role;
    assert Lower("admin") == "admin";
    LoginAdmitsIff(data, AdminDashboardRoute);
    assert Lower(role)[0] == ' ';
  }
}
