/** The authentication context: who is logged in, held in three state
    fields and persisted as one JSON record under the storage key "user". */
module AuthContext {
  import opened Wrappers
  import opened Text

  /** The record passed to `login` and persisted; any field may be absent. */
  datatype UserRecord = UserRecord(accessToken: Option<string>, role: Option<string>, username: Option<string>)

  /** The three state fields `user`, `isAuthenticated` and `role`. */
  datatype Session = Session(user: Option<UserRecord>, isAuthenticated: bool, role: Option<string>)

  const LoggedOut := Session(None, false, None)

  /** The invariant the three transitions keep: authenticated exactly when a
      user and a role are set, and the role is lower case. */
  predicate Consistent(s: Session) {
    && (s.isAuthenticated <==> s.role.Some?)
    && (s.isAuthenticated <==> s.user.Some?)
    && (s.role.Some? ==> Lower(s.role.value) == s.role.value)
  }

  /** The mount effect: a stored record with a token and a role restores
      the session; otherwise the state is left as it is. */
  function InitStep(s: Session, stored: Option<UserRecord>): (r: Session)
    ensures stored.Some? && Truthy(stored.value.accessToken) && Truthy(stored.value.role) ==>
      r == Session(stored, true, Some(Lower(stored.value.role.value)))
    ensures !(stored.Some? && Truthy(stored.value.accessToken) && Truthy(stored.value.role)) ==> r == s
  {
    if stored.Some? && Truthy(stored.value.accessToken) && Truthy(stored.value.role) then
      Session(stored, true, Some(Lower(stored.value.role.value)))
    else s
  }

  /** `login(userData)`; calling `toLowerCase` on a missing role would
      throw, so the role must be present. */
  function LoginStep(data: UserRecord): (r: Session)
    requires data.role.Some?
    ensures Consistent(r) && r.isAuthenticated
    ensures r.user == Some(data) && r.role == Some(Lower(data.role.value))
  {
    Session(Some(data), true, Some(Lower(data.role.value)))
  }

  /** `logout()`. */
  function LogoutStep(s: Session): (r: Session)
    ensures Consistent(r) && !r.isAuthenticated
  {
    LoggedOut
  }

  /** Every reachable state is consistent. */
  lemma InitKeepsConsistent(s: Session, stored: Option<UserRecord>)
    requires Consistent(s)
    ensures Consistent(InitStep(s, stored))
  {
    if stored.Some? && Truthy(stored.value.accessToken) && Truthy(stored.value.role) {
      LowerIdempotent(stored.value.role.value);
    }
  }

  /** Logging in and then out is the same as never having logged in, and
      logging out twice is logging out once. */
  lemma LoginLogoutRoundTrip(data: UserRecord)
    requires data.role.Some?
    ensures LogoutStep(LoginStep(data)) == LoggedOut
    ensures LogoutStep(LogoutStep(LoginStep(data))) == LogoutStep(LoginStep(data))
  {
  }

  /** After a reload the persisted record brings back the very session the
      login created, exactly when the record has a token and a non-empty
      role; otherwise the page starts logged out. */
  lemma ReloadRestoresLogin(data: UserRecord)
    requires data.role.Some?
    ensures InitStep(LoggedOut, Some(data)) == LoginStep(data) <==>
      Truthy(data.accessToken) && data.role.value != ""
    ensures !(Truthy(data.accessToken) && data.role.value != "") ==> InitStep(LoggedOut, Some(data)) == LoggedOut
  {
  }

  /** After a logout nothing is persisted, so a reload stays logged out. */
  lemma ReloadAfterLogout()
    ensures InitStep(LoggedOut, None) == LoggedOut
  {
  }

  class AuthProvider {
    var user: Option<UserRecord>
    var isAuthenticated: bool
    var role: Option<string>
    /** The value under the storage key "user". */
    var persisted: Option<UserRecord>

    function State(): Session
      reads this
    {
      Session(user, isAuthenticated, role)
    }

    /** The initial render: logged out, whatever is stored. */
    constructor (stored: Option<UserRecord>)
      ensures State() == LoggedOut && persisted == stored
      ensures Consistent(State())
    {
      user := None;
      isAuthenticated := false;
      role := None;
      persisted := stored;
    }

    /** The mount effect, reading the persisted record. */
    method Init()
      requires Consistent(State())
      modifies this
      ensures State() == InitStep(old(State()), persisted)
      ensures persisted == old(persisted)
      ensures Consistent(State())
    {
      InitKeepsConsistent(State(), persisted);
      var stored := persisted;
      if stored.Some? && Truthy(stored.value.accessToken) && Truthy(stored.value.role) {
        user := stored;
        isAuthenticated := true;
        role := Some(Lower(stored.value.role.value));
      }
    }

    method Login(data: UserRecord)
      requires data.role.Some?
      modifies this
      ensures State() == LoginStep(data) && persisted == Some(data)
      ensures Consistent(State())
    {
      persisted := Some(data);
      user := Some(data);
      isAuthenticated := true;
      role := Some(Lower(data.role.value));
    }

    method Logout()
      modifies this
      ensures State() == LoggedOut && persisted == None
      ensures Consistent(State())
    {
      persisted := None;
      user := None;
      isAuthenticated := false;
      role := None;
    }
  }
}
