/** The text ticket form: a subject, a description and an optional admin
    note, validated before they are handed to the submit callback. */
module TextTicketForm {
  import opened Wrappers
  import opened Text
  import opened Forms

  const SubjectRequired := "Subject is required"
  const SubjectTooShort := "Subject must be at least 5 characters"
  const BodyRequired := "Description is required"
  const BodyTooShort := "Description must be at least 10 characters"

  /** A blank field is reported as missing; otherwise the untrimmed length
      is compared with the minimum. */
  function FieldError(value: string, minLength: nat, required: string, tooShort: string): Option<string> {
    if IsBlank(value) then Some(required)
    else if |value| < minLength then Some(tooShort)
    else None
  }

  /** The map `validateForm` builds: one entry per invalid field. */
  function ValidationErrors(subject: string, body: string): (errs: map<string, string>)
    ensures errs.Keys <= {"subject", "body"}
    ensures "subject" in errs <==> IsBlank(subject) || |subject| < 5
    ensures "body" in errs <==> IsBlank(body) || |body| < 10
  {
    var s := FieldError(subject, 5, SubjectRequired, SubjectTooShort);
    var b := FieldError(body, 10, BodyRequired, BodyTooShort);
    var withSubject := if s.Some? then map["subject" := s.value] else map[];
    if b.Some? then withSubject["body" := b.value] else withSubject
  }

  /** Which message each invalid field gets: "required" for a blank field,
      the minimum-length message otherwise. */
  lemma ValidationMessages(subject: string, body: string)
    ensures var errs := ValidationErrors(subject, body);
      && ("subject" in errs ==> errs["subject"] == if IsBlank(subject) then SubjectRequired else SubjectTooShort)
      && ("body" in errs ==> errs["body"] == if IsBlank(body) then BodyRequired else BodyTooShort)
  {
  }

  /** The form is valid exactly when both fields have a non-white character
      and reach their minimum lengths. */
  lemma ValidIff(subject: string, body: string)
    ensures ValidationErrors(subject, body) == map[] <==>
      (exists i :: 0 <= i < |subject| && !IsJsSpace(subject[i])) && |subject| >= 5 &&
      (exists i :: 0 <= i < |body| && !IsJsSpace(body[i])) && |body| >= 10
  {
    BlankIffAllSpace(subject);
    BlankIffAllSpace(body);
    var errs := ValidationErrors(subject, body);
    if errs == map[] {
      assert "subject" !in errs && "body" !in errs;
    }
  }

  /** A white-space-only subject is "required", however long it is. */
  lemma BlankSubjectIsRequired(subject: string, body: string)
    requires forall i :: 0 <= i < |subject| ==> IsJsSpace(subject[i])
    ensures var errs := ValidationErrors(subject, body);
      "subject" in errs && errs["subject"] == SubjectRequired
  {
    BlankIffAllSpace(subject);
    ValidationMessages(subject, body);
  }

  /** The length check counts the padding: a subject with a non-white first
      character and five characters in all passes even when its trimmed text
      is shorter, such as "ab" followed by three spaces. */
  lemma PaddedSubjectPasses(subject: string, body: string)
    requires |subject| >= 5 && !IsJsSpace(subject[0])
    ensures "subject" !in ValidationErrors(subject, body)
  {
    BlankIffAllSpace(subject);
  }

  /** Subject "Hi" with description "short desc here": only the subject is
      reported, as too short. */
  lemma ShortSubjectExample(s: string, b: string)
    requires s == "Hi" && b == "short desc here"
    ensures ValidationErrors(s, b) == map["subject" := SubjectTooShort]
  {
    BlankIffAllSpace(s);
    BlankIffAllSpace(b);
    assert !IsJsSpace(s[0]) && !IsJsSpace(b[0]);
    assert |s| == 2 && |b| == 15;
    ValidationMessages(s, b);
    var errs := ValidationErrors(s, b);
    assert errs.Keys == {"subject"};
  }

  class TextTicketForm {
    var formData: map<string, string>
    var errors: map<string, string>

    /** The three inputs always have a value. */
    predicate Valid()
      reads this
    {
      "subject" in formData && "body" in formData && "admin_solution" in formData
    }

    constructor ()
      ensures Valid()
      ensures formData == map["subject" := "", "body" := "", "admin_solution" := ""]
      ensures errors == map[]
    {
      formData := map["subject" := "", "body" := "", "admin_solution" := ""];
      errors := map[];
    }

    /** `validateForm`: earlier errors are replaced by the fresh map, and
        the answer is whether that map is empty. */
    method ValidateForm() returns (ok: bool)
      requires Valid()
      modifies this
      ensures Valid() && formData == old(formData)
      ensures errors == ValidationErrors(formData["subject"], formData["body"])
      ensures ok <==> errors == map[]
    {
      errors := ValidationErrors(formData["subject"], formData["body"]);
      ok := errors == map[];
    }

    /** `handleSubmit`: the form data go to the callback exactly when the
        form is valid. */
    method HandleSubmit() returns (submitted: Option<map<string, string>>)
      requires Valid()
      modifies this
      ensures Valid() && formData == old(formData)
      ensures errors == ValidationErrors(formData["subject"], formData["body"])
      ensures submitted.Some? <==> errors == map[]
      ensures submitted.Some? ==> submitted.value == formData
    {
      var ok := ValidateForm();
      if ok {
        submitted := Some(formData);
      } else {
        submitted := None;
      }
    }

    /** `handleChange`: the named field takes the new value, and only that
        field's error is cleared. */
    method HandleChange(name: string, value: string)
      requires Valid()
      modifies this
      ensures Valid()
      ensures formData == old(formData)[name := value]
      ensures errors == ClearError(old(errors), name)
    {
      formData := formData[name := value];
      errors := ClearError(errors, name);
    }
  }
}
