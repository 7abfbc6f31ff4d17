/** The role dispatch shared by the sign-up and login pages: the role the
    server returns, trimmed and lower-cased, picks the dashboard. */
module Roles {
  import opened Wrappers
  import opened Text

  datatype Route = AdminDashboardRoute | UserDashboardRoute

  /** The URL each dashboard route navigates to; the two are distinct. */
  function Path(r: Route): (p: string)
    ensures p == "/admin-dashboard" <==> r == AdminDashboardRoute
    ensures p == "/user-dashboard" <==> r == UserDashboardRoute
  {
    match r
    case AdminDashboardRoute => "/admin-dashboard"
    case UserDashboardRoute => "/user-dashboard"
  }

  /** `role.trim().toLowerCase()`. */
  function NormalizeRole(role: string): (n: string)
    ensures |n| <= |role|
    ensures n == [] || (!IsJsSpace(n[0]) && !IsJsSpace(n[|n| - 1]))
    ensures forall i :: 0 <= i < |n| ==> !IsUpper(n[i])
  {
    Lower(Trim(role))
  }

  /** "admin" goes to the admin dashboard, "user" to the user dashboard,
      anything else to no dashboard. */
  function Destination(role: string): (r: Option<Route>)
    ensures r == Some(AdminDashboardRoute) <==> NormalizeRole(role) == "admin"
    ensures r == Some(UserDashboardRoute) <==> NormalizeRole(role) == "user"
  {
    var n := NormalizeRole(role);
    if n == "admin" then Some(AdminDashboardRoute)
    else if n == "user" then Some(UserDashboardRoute)
    else None
  }

  /** Normalizing twice is normalizing once. */
  lemma NormalizeIdempotent(role: string)
    ensures NormalizeRole(NormalizeRole(role)) == NormalizeRole(role)
  {
    var t := Trim(role);
    TrimLowerCommute(t);
    TrimIdempotent(role);
    LowerIdempotent(t);
  }

  /** The destination depends only on the normalized role, so letter case
      and surrounding white space do not matter. */
  lemma DestinationOfNormalized(role: string)
    ensures Destination(NormalizeRole(role)) == Destination(role)
  {
    NormalizeIdempotent(role);
  }

  /** " Admin " is sent to the admin dashboard. */
  lemma PaddedAdminExample(role: string)
    requires role == " Admin "
    ensures Destination(role) == Some(AdminDashboardRoute)
  {
    PaddedAdminTrims(role);
    LowerAdmin();
  }

  lemma PaddedAdminTrims(role: string)
    requires role == " Admin "
    ensures Trim(role) == "Admin"
  {
    var core := "Admin";
    assert role == [' '] + core + [' '];
    PaddedTrim([' '], core, [' ']);
  }

  lemma LowerAdmin()
    ensures Lower("Admin") == "admin"
  {
  }

  /** Trimming drops exactly the white-space padding around a core that
      starts and ends with a non-white character. */
  lemma {:induction false} PaddedTrim(pre: string, core: string, post: string)
    requires forall i :: 0 <= i < |pre| ==> IsJsSpace(pre[i])
    requires forall i :: 0 <= i < |post| ==> IsJsSpace(post[i])
    requires core != [] && !IsJsSpace(core[0]) && !IsJsSpace(core[|core| - 1])
    ensures Trim(pre + core + post) == core
  {
    TrimStartPadded(pre, core + post);
    assert pre + core + post == pre + (core + post);
    TrimEndPadded(core, post);
  }

  lemma {:induction false} TrimStartPadded(pre: string, rest: string)
    requires forall i :: 0 <= i < |pre| ==> IsJsSpace(pre[i])
    requires rest != [] && !IsJsSpace(rest[0])
    ensures TrimStart(pre + rest) == rest
    decreases |pre|
  {
    if pre == [] {
      assert pre + rest == rest;
    } else {
      assert (pre + rest)[1..] == pre[1..] + rest;
      TrimStartPadded(pre[1..], rest);
    }
  }

  lemma {:induction false} TrimEndPadded(core: string, post: string)
    requires forall i :: 0 <= i < |post| ==> IsJsSpace(post[i])
    requires core != [] && !IsJsSpace(core[|core| - 1])
    ensures TrimEnd(core + post) == core
    decreases |post|
  {
    if post == [] {
      assert core + post == core;
    } else {
      var s := core + post;
      assert s[..|s| - 1] == core + post[..|post| - 1];
      TrimEndPadded(core, post[..|post| - 1]);
    }
  }
}
