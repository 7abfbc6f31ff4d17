/** The login page's submit handler: check the response, log in, then pick
    the dashboard from the role. */
module Login {
  import opened Wrappers
  import opened Roles
  import opened AuthContext

  const MissingFields := "Missing required login fields in response"
  const LoginFallback := "Login failed. Please try again."

  /** What the login call produced: the three response fields (absent ones
      are `None`), or an error with an optional message. */
  datatype LoginOutcome =
    | LoginOk(accessToken: Option<string>, role: Option<string>, username: Option<string>)
    | LoginFailed(message: Option<string>)

  /** The three fields are all present and non-empty. */
  predicate Complete(o: LoginOutcome) {
    o.LoginOk? && Truthy(o.accessToken) && Truthy(o.role) && Truthy(o.username)
  }

  /** What the handler does: the record passed to `login` (if it is
      called), the dashboard it navigates to (if any) and the error shown. */
  datatype LoginResult = LoginResult(loggedIn: Option<UserRecord>, navigation: Option<Route>, error: string)

  function LoginDecision(o: LoginOutcome): (r: LoginResult)
    ensures r.loggedIn.Some? <==> Complete(o)
    ensures r.loggedIn.Some? ==> r.loggedIn.value == UserRecord(o.accessToken, o.role, o.username)
    ensures r.navigation.Some? ==> r.loggedIn.Some? && r.navigation == Destination(o.role.value)
    ensures r.navigation.Some? <==> r.error == ""
    ensures o.LoginOk? && !Complete(o) ==> r.error == MissingFields
    ensures Complete(o) && Destination(o.role.value).None? ==> r.error == "Invalid role received: " + o.role.value
    ensures o.LoginFailed? ==> r.error == OrElse(o.message, LoginFallback)
  {
    match o
    case LoginOk(token, role, username) =>
      if !(Truthy(token) && Truthy(role) && Truthy(username)) then
        LoginResult(None, None, MissingFields)
      else
        var data := UserRecord(token, role, username);
        var dest := Destination(role.value);
        if dest.Some? then LoginResult(Some(data), dest, "")
        else LoginResult(Some(data), None, "Invalid role received: " + role.value)
    case LoginFailed(message) =>
      LoginResult(None, None, if Truthy(message) then message.value else LoginFallback)
  }

  /** An unrecognised role is reported as an error after `login` already
      ran, so the session is left logged in. */
  lemma InvalidRoleStaysLoggedIn(o: LoginOutcome)
    requires Complete(o) && Destination(o.role.value).None?
    ensures LoginDecision(o).loggedIn.Some?
    ensures LoginStep(LoginDecision(o).loggedIn.value).isAuthenticated
    ensures LoginDecision(o).navigation.None?
  {
  }

  /** The fallback message is never empty, so every failure shows an
      error. */
  lemma FailureAlwaysShowsError(o: LoginOutcome)
    requires LoginDecision(o).navigation.None?
    ensures LoginDecision(o).error != ""
  {
  }

  class LoginPage {
    var error: string
    var isLoading: bool
    var navigation: Option<Route>
    const auth: AuthProvider

    constructor (a: AuthProvider)
      ensures auth == a && error == "" && !isLoading && navigation == None
    {
      auth := a;
      error := "";
      isLoading := false;
      navigation := None;
    }

    /** `handleSubmit` for one outcome of the login call; on both paths the
        loading flag ends false. */
    method HandleSubmit(o: LoginOutcome)
      modifies this, auth
      ensures var r := LoginDecision(o);
        && error == r.error
        && navigation == (if r.navigation.Some? then r.navigation else old(navigation))
        && (r.loggedIn.Some? ==> auth.State() == LoginStep(r.loggedIn.value) && auth.persisted == r.loggedIn)
        && (r.loggedIn.None? ==> auth.State() == old(auth.State()) && auth.persisted == old(auth.persisted))
      ensures !isLoading
    {
      isLoading := true;
      error := "";
      var r := LoginDecision(o);
      if r.loggedIn.Some? {
        auth.Login(r.loggedIn.value);
      }
      error := r.error;
      if r.navigation.Some? {
        navigation := r.navigation;
      }
      isLoading := false;
    }
  }
}
