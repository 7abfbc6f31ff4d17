/** The sign-up page: the password-strength meter and what a sign-up
    response does to local storage, the error banner and navigation. */
module Signup {
  import opened Wrappers
  import opened Text
  import opened Roles

  // ---------------------------------------------------------------------
  // calculatePasswordStrength and the meter
  // ---------------------------------------------------------------------

  /** `/[A-Z]/`, `/[0-9]/` and `/[^A-Za-z0-9]/` find a match. */
  predicate HasUpper(p: string) { exists i :: 0 <= i < |p| && IsUpper(p[i]) }
  predicate HasDigit(p: string) { exists i :: 0 <= i < |p| && IsDigit(p[i]) }
  predicate HasSpecial(p: string) { exists i :: 0 <= i < |p| && !IsAlnum(p[i]) }

  /** Number of the four criteria a password meets. */
  function CriteriaMet(p: string): (n: nat)
    ensures n <= 4
  {
    (if |p| >= 8 then 1 else 0) + (if HasUpper(p) then 1 else 0) +
    (if HasDigit(p) then 1 else 0) + (if HasSpecial(p) then 1 else 0)
  }

  /** Each criterion met adds 25 to a score that starts at 0. */
  function PasswordStrength(p: string): (score: nat)
    ensures score in {0, 25, 50, 75, 100}
    ensures score == 25 * CriteriaMet(p)
  {
    var score := 0;
    var score := if |p| >= 8 then score + 25 else score;
    var score := if HasUpper(p) then score + 25 else score;
    var score := if HasDigit(p) then score + 25 else score;
    if HasSpecial(p) then score + 25 else score
  }

  /** Typing one more character never weakens the password: every match
      found before is still there. */
  lemma AppendNeverLowers(p: string, c: char)
    ensures PasswordStrength(p + [c]) >= PasswordStrength(p)
  {
    var q := p + [c];
    if HasUpper(p) {
      var i :| 0 <= i < |p| && IsUpper(p[i]);
      assert q[i] == p[i];
    }
    if HasDigit(p) {
      var i :| 0 <= i < |p| && IsDigit(p[i]);
      assert q[i] == p[i];
    }
    if HasSpecial(p) {
      var i :| 0 <= i < |p| && !IsAlnum(p[i]);
      assert q[i] == p[i];
    }
  }

  /** Extending a password by any text never weakens it. */
  lemma {:induction false} ExtendNeverLowers(p: string, suffix: string)
    ensures PasswordStrength(p + suffix) >= PasswordStrength(p)
    decreases |suffix|
  {
    if suffix == [] {
      assert p + suffix == p;
    } else {
      var init := suffix[..|suffix| - 1];
      ExtendNeverLowers(p, init);
      AppendNeverLowers(p + init, suffix[|suffix| - 1]);
      assert p + init + [suffix[|suffix| - 1]] == p + suffix;
    }
  }

  /** "password" meets only the length criterion; "Passw0rd!" meets all
      four. */
  lemma StrengthExamples(weak: string, strong: string)
    requires weak == "password" && strong == "Passw0rd!"
    ensures PasswordStrength(weak) == 25
    ensures PasswordStrength(strong) == 100
  {
    assert !HasUpper(weak) && !HasDigit(weak) && !HasSpecial(weak) by {
      forall i | 0 <= i < |weak| ensures IsLower(weak[i]) {
      }
    }
    assert IsUpper(strong[0]) && IsDigit(strong[5]) && !IsAlnum(strong[8]);
  }

  /** `getPasswordStrengthText`. */
  function StrengthText(score: int): (text: string)
    ensures text == "Weak" <==> score < 25
    ensures text == "Fair" <==> 25 <= score < 50
    ensures text == "Good" <==> 50 <= score < 75
    ensures text == "Strong" <==> 75 <= score
  {
    if score < 25 then "Weak"
    else if score < 50 then "Fair"
    else if score < 75 then "Good"
    else "Strong"
  }

  /** `getPasswordStrengthColor`. */
  function StrengthColor(score: int): (color: string)
    ensures color == "bg-red-500" <==> score < 25
    ensures color == "bg-orange-500" <==> 25 <= score < 50
    ensures color == "bg-yellow-500" <==> 50 <= score < 75
    ensures color == "bg-green-500" <==> 75 <= score
  {
    if score < 25 then "bg-red-500"
    else if score < 50 then "bg-orange-500"
    else if score < 75 then "bg-yellow-500"
    else "bg-green-500"
  }

  /** The text and the colour use the same thresholds: two scores share a
      text exactly when they share a colour. */
  lemma TextAndColorAgree(a: int, b: int)
    ensures StrengthText(a) == StrengthText(b) <==> StrengthColor(a) == StrengthColor(b)
  {
  }

  /** On the scores the meter can show, the text names the number of
      criteria met: none is Weak, one Fair, two Good, three or four
      Strong. */
  lemma TextOfPassword(p: string)
    ensures CriteriaMet(p) == 0 ==> StrengthText(PasswordStrength(p)) == "Weak"
    ensures CriteriaMet(p) == 1 ==> StrengthText(PasswordStrength(p)) == "Fair"
    ensures CriteriaMet(p) == 2 ==> StrengthText(PasswordStrength(p)) == "Good"
    ensures CriteriaMet(p) >= 3 ==> StrengthText(PasswordStrength(p)) == "Strong"
  {
  }

  // ---------------------------------------------------------------------
  // handleSubmit
  // ---------------------------------------------------------------------

  const SignupFallback := "Failed to sign up"

  /** What the sign-up call produced: the response body's three fields
      (absent ones are `None`), or an error with an optional `detail`. */
  datatype SignupOutcome =
    | SignupOk(accessToken: Option<string>, role: Option<string>, username: Option<string>)
    | SignupFailed(detail: Option<string>)

  /** `localStorage.setItem(key, value)` stores `String(value)`: a missing
      field is stored as "undefined". */
  function Stored(v: Option<string>): (s: string)
    ensures v.Some? ==> s == v.value
    ensures v.None? ==> s == "undefined"
  {
    if v.Some? then v.value else "undefined"
  }

  /** The three keys written for a successful call, before the role is
      looked at. */
  function SignupWrites(storage: map<string, string>, outcome: SignupOutcome): (r: map<string, string>)
    ensures outcome.SignupFailed? ==> r == storage
    ensures outcome.SignupOk? ==> r.Keys == storage.Keys + {"token", "role", "username"}
    ensures outcome.SignupOk? ==>
      r["token"] == Stored(outcome.accessToken) && r["role"] == Stored(outcome.role) &&
      r["username"] == Stored(outcome.username)
    ensures forall k :: k in storage && k !in {"token", "role", "username"} ==> r[k] == storage[k]
  {
    if outcome.SignupOk? then
      storage["token" := Stored(outcome.accessToken)]["role" := Stored(outcome.role)]
             ["username" := Stored(outcome.username)]
    else storage
  }

  /** Where the page goes and which error it shows. A missing role makes
      `role.trim()` throw, which lands in the generic failure message. */
  datatype SignupResult = SignupResult(navigation: Option<Route>, error: string)

  function SignupDecision(outcome: SignupOutcome): (r: SignupResult)
    ensures r.navigation.Some? <==> outcome.SignupOk? && outcome.role.Some? && Destination(outcome.role.value).Some?
    ensures r.navigation.Some? ==> r.navigation == Destination(outcome.role.value) && r.error == ""
    ensures outcome.SignupOk? && outcome.role.Some? && Destination(outcome.role.value).None? ==>
      r.error == "Invalid user role: " + outcome.role.value
    ensures outcome.SignupOk? && outcome.role.None? ==> r.error == SignupFallback
    ensures outcome.SignupFailed? ==> r.error == OrElse(outcome.detail, SignupFallback)
  {
    match outcome
    case SignupOk(_, role, _) =>
      if role.None? then SignupResult(None, SignupFallback)
      else if Destination(role.value).Some? then SignupResult(Destination(role.value), "")
      else SignupResult(None, "Invalid user role: " + role.value)
    case SignupFailed(detail) => SignupResult(None, OrElse(detail, SignupFallback))
  }

  /** A response with an unrecognised role is still written to storage,
      role included, while the page reports the role as invalid. */
  lemma InvalidRoleIsPersisted(storage: map<string, string>, token: Option<string>, role: string, username: Option<string>)
    requires Destination(role).None?
    ensures var outcome := SignupOk(token, Some(role), username);
      SignupWrites(storage, outcome)["role"] == role &&
      SignupDecision(outcome).navigation.None? &&
      SignupDecision(outcome).error == "Invalid user role: " + role
  {
  }

  class SignupPage {
    var storage: map<string, string>
    var error: string
    var isLoading: bool
    var navigation: Option<Route>

    constructor (initialStorage: map<string, string>)
      ensures storage == initialStorage && error == "" && !isLoading && navigation == None
    {
      storage := initialStorage;
      error := "";
      isLoading := false;
      navigation := None;
    }

    /** `handleSubmit` for one outcome of the sign-up call. */
    method HandleSubmit(outcome: SignupOutcome)
      modifies this
      ensures storage == SignupWrites(old(storage), outcome)
      ensures error == SignupDecision(outcome).error
      ensures navigation == if SignupDecision(outcome).navigation.Some?
                            then SignupDecision(outcome).navigation else old(navigation)
      ensures !isLoading
    {
      isLoading := true;
      error := "";
      storage := SignupWrites(storage, outcome);
      var result := SignupDecision(outcome);
      error := result.error;
      if result.navigation.Some? {
        navigation := result.navigation;
      }
      isLoading := false;
    }
  }
}
