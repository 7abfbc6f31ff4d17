/** What the two ticket forms share: a map from field name to error
    message, and the rule that editing a field clears that field's error. */
module Forms {
  import opened Wrappers

  /** `errors[name]`, or `None` when the field has no entry. */
  function Lookup(errors: map<string, string>, name: string): (r: Option<string>)
    ensures r.Some? <==> name in errors
    ensures r.Some? ==> r.value == errors[name]
  {
    if name in errors then Some(errors[name]) else None
  }

  /** `if (errors[name]) setErrors(prev => ({ ...prev, [name]: '' }))`: an
      error that is present and non-empty becomes the empty string; the
      entry stays. */
  function ClearError(errors: map<string, string>, name: string): (r: map<string, string>)
    ensures r.Keys == errors.Keys
    ensures name in r ==> r[name] == ""
    ensures forall k :: k in errors && k != name ==> r[k] == errors[k]
  {
    if Truthy(Lookup(errors, name)) then errors[name := ""] else errors
  }

  /** Clearing twice is clearing once. */
  lemma ClearErrorIdempotent(errors: map<string, string>, name: string)
    ensures ClearError(ClearError(errors, name), name) == ClearError(errors, name)
  {
  }

  /** Clearing one field never affects whether the form has any entry. */
  lemma ClearErrorKeepsEntries(errors: map<string, string>, name: string)
    ensures ClearError(errors, name) == map[] <==> errors == map[]
  {
    if errors == map[] {
      assert ClearError(errors, name) == errors;
    } else {
      var k :| k in errors;
      assert k in ClearError(errors, name);
    }
  }
}
