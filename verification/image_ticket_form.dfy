/** The screenshot ticket form: subject, description, optional admin note
    and an image file, sent as a multipart request. */
module ImageTicketForm {
  import opened Wrappers
  import opened Text
  import opened Forms

  const SubjectRequired := "Subject is required"
  const BodyRequired := "Description is required"
  const ImageRequired := "Screenshot is required"

  /** A chosen file: its name and its media type (`file.type`). */
  datatype ImageFile = ImageFile(name: string, mediaType: string)

  /** One field of the multipart body. */
  datatype Part = TextPart(name: string, value: string) | FilePart(name: string, file: ImageFile)

  /** The map `validateForm` builds: blank text fields and a missing image
      are reported; there are no minimum lengths. */
  function ValidationErrors(subject: string, body: string, image: Option<ImageFile>): (errs: map<string, string>)
    ensures errs.Keys <= {"subject", "body", "image"}
    ensures "subject" in errs <==> IsBlank(subject)
    ensures "body" in errs <==> IsBlank(body)
    ensures "image" in errs <==> image.None?
  {
    var withSubject := if IsBlank(subject) then map["subject" := SubjectRequired] else map[];
    var withBody := if IsBlank(body) then withSubject["body" := BodyRequired] else withSubject;
    if image.None? then withBody["image" := ImageRequired] else withBody
  }

  /** Each reported field carries its fixed message. */
  lemma ValidationMessages(subject: string, body: string, image: Option<ImageFile>)
    ensures var errs := ValidationErrors(subject, body, image);
      && ("subject" in errs ==> errs["subject"] == SubjectRequired)
      && ("body" in errs ==> errs["body"] == BodyRequired)
      && ("image" in errs ==> errs["image"] == ImageRequired)
  {
  }

  /** The form is valid exactly when subject and description each have a
      non-white character and an image is chosen. */
  lemma ValidIff(subject: string, body: string, image: Option<ImageFile>)
    ensures ValidationErrors(subject, body, image) == map[] <==>
      (exists i :: 0 <= i < |subject| && !IsJsSpace(subject[i])) &&
      (exists i :: 0 <= i < |body| && !IsJsSpace(body[i])) &&
      image.Some?
  {
    BlankIffAllSpace(subject);
    BlankIffAllSpace(body);
    var errs := ValidationErrors(subject, body, image);
    if errs == map[] {
      assert "subject" !in errs && "body" !in errs && "image" !in errs;
    }
  }

  /** The multipart body `handleSubmit` assembles. */
  function Payload(subject: string, body: string, adminSolution: string, image: ImageFile): (parts: seq<Part>)
    ensures |parts| == if adminSolution != "" then 4 else 3
    ensures parts[0] == TextPart("subject", subject) && parts[1] == TextPart("body", body)
    ensures parts[|parts| - 1] == FilePart("image", image)
  {
    [TextPart("subject", subject), TextPart("body", body)] +
    (if adminSolution != "" then [TextPart("admin_solution", adminSolution)] else []) +
    [FilePart("image", image)]
  }

  /** The admin note is sent exactly when it is non-empty, and then with its
      own value. */
  lemma AdminSolutionSentIffNonEmpty(subject: string, body: string, adminSolution: string, image: ImageFile)
    ensures TextPart("admin_solution", adminSolution) in Payload(subject, body, adminSolution, image)
            <==> adminSolution != ""
    ensures forall p :: p in Payload(subject, body, adminSolution, image) && p.name == "admin_solution" ==>
              p == TextPart("admin_solution", adminSolution)
  {
    var parts := Payload(subject, body, adminSolution, image);
    if adminSolution != "" {
      assert parts[2] == TextPart("admin_solution", adminSolution);
    }
  }

  /** `file.type.startsWith('image/')`: the only check on a chosen file. */
  predicate Accepts(file: Option<ImageFile>) {
    file.Some? && StartsWith(file.value.mediaType, "image/")
  }

  lemma MediaTypeGate(f: ImageFile)
    ensures Accepts(Some(f)) <==> |f.mediaType| >= 6 && f.mediaType[..6] == "image/"
    ensures !Accepts(None)
  {
  }

  class ImageTicketForm {
    var formData: map<string, string>
    var image: Option<ImageFile>
    var preview: Option<string>
    var errors: map<string, string>

    /** The three text inputs always have a value. */
    predicate Valid()
      reads this
    {
      "subject" in formData && "body" in formData && "admin_solution" in formData
    }

    constructor ()
      ensures Valid()
      ensures formData == map["subject" := "", "body" := "", "admin_solution" := ""]
      ensures image == None && preview == None && errors == map[]
    {
      formData := map["subject" := "", "body" := "", "admin_solution" := ""];
      image := None;
      preview := None;
      errors := map[];
    }

    method ValidateForm() returns (ok: bool)
      requires Valid()
      modifies this
      ensures Valid() && formData == old(formData)
      ensures image == old(image) && preview == old(preview)
      ensures errors == ValidationErrors(formData["subject"], formData["body"], image)
      ensures ok <==> errors == map[]
    {
      errors := ValidationErrors(formData["subject"], formData["body"], image);
      ok := errors == map[];
    }

    /** `handleSubmit`: the multipart body goes to the callback exactly when
        the form is valid. */
    method HandleSubmit() returns (submitted: Option<seq<Part>>)
      requires Valid()
      modifies this
      ensures Valid() && formData == old(formData)
      ensures image == old(image) && preview == old(preview)
      ensures errors == ValidationErrors(formData["subject"], formData["body"], image)
      ensures submitted.Some? <==> errors == map[]
      ensures submitted.Some? ==> image.Some?
      ensures submitted.Some? ==>
        submitted.value == Payload(formData["subject"], formData["body"], formData["admin_solution"], image.value)
    {
      var ok := ValidateForm();
      if ok {
        assert "image" !in errors;
        submitted := Some(Payload(formData["subject"], formData["body"], formData["admin_solution"], image.value));
      } else {
        submitted := None;
      }
    }

    /** `handleChange` on one of the text inputs. */
    method HandleChange(name: string, value: string)
      requires Valid()
      modifies this
      ensures Valid()
      ensures formData == old(formData)[name := value]
      ensures errors == ClearError(old(errors), name)
      ensures image == old(image) && preview == old(preview)
    {
      formData := formData[name := value];
      errors := ClearError(errors, name);
    }

    /** `handleImageChange`: a file whose type starts with "image/" becomes
        the image, its data URL the preview, and the image error is cleared;
        anything else changes nothing. The reader's asynchronous load is taken
        as complete, with `dataUrl` as its result. */
    method HandleImageChange(file: Option<ImageFile>, dataUrl: string)
      requires Valid()
      modifies this
      ensures Valid() && formData == old(formData)
      ensures Accepts(file) ==>
        image == file && preview == Some(dataUrl) && errors == ClearError(old(errors), "image")
      ensures !Accepts(file) ==>
        image == old(image) && preview == old(preview) && errors == old(errors)
    {
      if Accepts(file) {
        image := file;
        preview := Some(dataUrl);
        errors := ClearError(errors, "image");
      }
    }

    /** `removeImage`: image and preview are dropped, nothing else changes. */
    method RemoveImage()
      requires Valid()
      modifies this
      ensures Valid()
      ensures image == None && preview == None
      ensures formData == old(formData) && errors == old(errors)
    {
      image := None;
      preview := None;
    }
  }
}
