/** The NGO profile form that follows the creator wizard: a title, a
    description, one image, and the id of the creator taken from the
    `userId` query parameter. */
module NgoProfile {
  import opened Strings
  import opened Platform
  import opened ImageFiles

  datatype NgoForm = NgoForm(title: string, description: string, image: Option<File>, createdBy: string)

  const EmptyNgoForm := NgoForm("", "", None, "")

  /** The inputs bound to `handleChange`; `createdBy` has no input. */
  const NgoTextFields: set<Field> := {Title, Description}

  const NgoFields: set<Field> := {Title, Description, Image, CreatedBy}

  /** `{ ...prev, [name]: value }` for the title or the description. */
  function WithText(f: NgoForm, field: Field, v: string): (g: NgoForm)
    requires field in NgoTextFields
    ensures field == Title ==> g == f.(title := v)
    ensures field == Description ==> g == f.(description := v)
  {
    if field == Title then f.(title := v) else f.(description := v)
  }

  /** `URLSearchParams.get('userId')` on the location a navigation leads to:
      only the NGO form's route carries the parameter. */
  function UserIdParam(r: Route): (p: Option<string>)
    ensures p.Some? <==> r.CreateNgo?
    ensures r.CreateNgo? ==> p.value == r.userId
  {
    match r
    case CreateNgo(id) => Some(id)
    case _ => None
  }

  /** The query-parameter effect: a truthy `userId` becomes `createdBy`; a
      missing or empty one leaves the form as it was. */
  function WithQuery(f: NgoForm, userId: Option<string>): (g: NgoForm)
    ensures Truthy(userId) ==> g.createdBy == userId.value
    ensures !Truthy(userId) ==> g == f
    ensures g.title == f.title && g.description == f.description && g.image == f.image
  {
    if Truthy(userId) then f.(createdBy := userId.value) else f
  }

  const TitleRequired := "Title is required"
  const DescriptionRequired := "Description is required"
  const ImageRequired := "Image is required"
  const UserIdMissing := "User ID is missing"

  /** The map `validateForm` fills, given the outcome of each test. */
  function FillForm(titleBlank: bool, descriptionBlank: bool, noImage: bool, noCreator: bool): (e: Errors)
    ensures e.Keys <= NgoFields
    ensures Title in e <==> titleBlank
    ensures Title in e ==> e[Title] == TitleRequired
    ensures Description in e <==> descriptionBlank
    ensures Description in e ==> e[Description] == DescriptionRequired
    ensures Image in e <==> noImage
    ensures Image in e ==> e[Image] == ImageRequired
    ensures CreatedBy in e <==> noCreator
    ensures CreatedBy in e ==> e[CreatedBy] == UserIdMissing
  {
    var e1 := if titleBlank then map[Title := TitleRequired] else map[];
    var e2 := if descriptionBlank then e1[Description := DescriptionRequired] else e1;
    var e3 := if noImage then e2[Image := ImageRequired] else e2;
    if noCreator then e3[CreatedBy := UserIdMissing] else e3
  }

  /** `validateForm`: title and description are trimmed; `createdBy` is not. */
  function FormErrors(f: NgoForm): Errors {
    FillForm(IsBlank(f.title), IsBlank(f.description), f.image.None?, f.createdBy == "")
  }

  /** Which fields carry an error. */
  lemma FormFieldErrors(f: NgoForm)
    ensures Title in FormErrors(f) <==> !HasText(f.title)
    ensures Description in FormErrors(f) <==> !HasText(f.description)
    ensures Image in FormErrors(f) <==> f.image.None?
    ensures CreatedBy in FormErrors(f) <==> f.createdBy == ""
  {
    BlankIffNoText(f.title);
    BlankIffNoText(f.description);
  }

  /** The form passes exactly when title and description have text, an image
      is present and the creator id is not empty. */
  lemma FormValidIff(f: NgoForm)
    ensures FormErrors(f) == map[] <==>
      HasText(f.title) && HasText(f.description) && f.image.Some? && f.createdBy != ""
  {
    FormFieldErrors(f);
    EmptyIffNoFieldKey(FormErrors(f), NgoFields);
  }

  /** Typing into the title or the description leaves every other field's
      verdict as it was. */
  lemma EditIsLocal(f: NgoForm, field: Field, v: string)
    requires field in NgoTextFields
    ensures var g := WithText(f, field, v);
      && (field != Title ==> (Title in FormErrors(g) <==> Title in FormErrors(f)))
      && (field != Description ==> (Description in FormErrors(g) <==> Description in FormErrors(f)))
      && (Image in FormErrors(g) <==> Image in FormErrors(f))
      && (CreatedBy in FormErrors(g) <==> CreatedBy in FormErrors(f))
  {
  }

  /** Opened with a `userId` parameter that is missing or empty, the form
      keeps no creator and can never be submitted, whatever is typed into it. */
  lemma MissingUserIdBlocks(f: NgoForm, userId: Option<string>)
    requires f.createdBy == "" && !Truthy(userId)
    ensures WithQuery(f, userId) == f
    ensures FormErrors(WithQuery(f, userId)) != map[]
    ensures FormErrors(WithQuery(f, userId))[CreatedBy] == UserIdMissing
  {
  }

  /** The wizard's redirect hands a non-empty profile id to the form. */
  lemma RedirectCarriesCreator(f: NgoForm, id: string)
    requires id != ""
    ensures WithQuery(f, UserIdParam(CreateNgo(id))).createdBy == id
    ensures CreatedBy !in FormErrors(WithQuery(f, UserIdParam(CreateNgo(id))))
  {
  }

  const NgoFailureFallback := "Failed to create NGO profile. Please try again."
  const NgoCreatedMessage := "NGO profile created successfully!"

  class NgoProfileForm {
    var form: NgoForm
    var errors: Errors
    var uploading: bool
    var successMessage: string
    var errorMessage: string
    /** Every record handed to the NGO-creation endpoint, oldest first. */
    var sent: seq<NgoForm>
    var navigation: Option<Navigation>

    constructor ()
      ensures form == EmptyNgoForm && errors == map[] && !uploading
      ensures successMessage == "" && errorMessage == "" && sent == [] && navigation == None
    {
      form := EmptyNgoForm;
      errors := map[];
      uploading := false;
      successMessage, errorMessage := "", "";
      sent := [];
      navigation := None;
    }

    /** The effect that runs whenever the query string changes. */
    method ApplyQuery(userId: Option<string>)
      modifies this
      ensures form == WithQuery(old(form), userId)
      ensures errors == old(errors) && uploading == old(uploading)
      ensures successMessage == old(successMessage) && errorMessage == old(errorMessage)
      ensures sent == old(sent) && navigation == old(navigation)
    {
      if Truthy(userId) {
        form := form.(createdBy := userId.value);
      }
    }

    /** `handleChange` */
    method HandleChange(field: Field, value: string)
      requires field in NgoTextFields
      modifies this
      ensures form == WithText(old(form), field, value)
      ensures errors == old(errors) && uploading == old(uploading)
      ensures successMessage == old(successMessage) && errorMessage == old(errorMessage)
      ensures sent == old(sent) && navigation == old(navigation)
    {
      form := WithText(form, field, value);
    }

    /** `handleFileChange`: the same whitelist as the creator wizard; the
      error always goes under `image`. */
    method HandleFileChange(file: Option<File>)
      modifies this
      ensures file.None? ==> form == old(form) && errors == old(errors)
      ensures file.Some? && !IsAllowedImageName(file.value.name) ==>
        form == old(form) && errors == old(errors)[Image := InvalidImageMessage]
      ensures file.Some? && IsAllowedImageName(file.value.name) ==>
        form == old(form).(image := file) && errors == old(errors)[Image := ""]
      ensures uploading == old(uploading)
      ensures successMessage == old(successMessage) && errorMessage == old(errorMessage)
      ensures sent == old(sent) && navigation == old(navigation)
    {
      if file.None? {
        return;
      }
      if !IsAllowedImageName(file.value.name) {
        errors := errors[Image := InvalidImageMessage];
        return;
      }
      form := form.(image := file);
      errors := errors[Image := ""];
    }

    /** "Change Image": the image is dropped and nothing else changes. */
    method ChangeImage()
      modifies this
      ensures form == old(form).(image := None)
      ensures errors == old(errors) && uploading == old(uploading)
      ensures successMessage == old(successMessage) && errorMessage == old(errorMessage)
      ensures sent == old(sent) && navigation == old(navigation)
    {
      form := form.(image := None);
    }

    /** `validateForm`: replaces the whole error map. */
    method ValidateForm() returns (ok: bool)
      modifies this
      ensures errors == FormErrors(old(form)) && (ok <==> FormErrors(old(form)) == map[])
      ensures form == old(form) && uploading == old(uploading)
      ensures successMessage == old(successMessage) && errorMessage == old(errorMessage)
      ensures sent == old(sent) && navigation == old(navigation)
    {
      var f := form;
      var e := FormErrors(f);
      ok := e == map[];
      errors := e;
    }

    /** The synchronous part of `handleSubmit`. The submit button is disabled
      while uploading, which also blocks submitting with the Enter key. */
    method BeginSubmit() returns (requested: bool)
      requires !uploading
      modifies this
      ensures form == old(form) && errors == FormErrors(old(form))
      ensures requested <==> FormErrors(old(form)) == map[]
      ensures requested ==> (uploading && errorMessage == "" && successMessage == ""
                             && sent == old(sent) + [old(form)])
      ensures !requested ==> (!uploading && errorMessage == old(errorMessage)
                              && successMessage == old(successMessage) && sent == old(sent))
      ensures navigation == old(navigation)
    {
      requested := ValidateForm();
      if !requested {
        return;
      }
      uploading := true;
      errorMessage := "";
      successMessage := "";
      sent := sent + [form];
    }

    /** The rest of `handleSubmit`: success goes home, failure records a
      message, and `uploading` is cleared either way. The form keeps its
      contents. */
    method CompleteSubmit(reply: Reply<()>)
      requires uploading
      modifies this
      ensures !uploading
      ensures reply.Ok? ==> (navigation == Some(Navigation(Home, NoState))
                             && successMessage == NgoCreatedMessage && errorMessage == old(errorMessage))
      ensures !reply.Ok? ==> (errorMessage == ResponseMessageOr(reply, NgoFailureFallback)
                              && navigation == old(navigation) && successMessage == old(successMessage))
      ensures form == old(form) && errors == old(errors) && sent == old(sent)
    {
      if reply.Ok? {
        successMessage := NgoCreatedMessage;
        navigation := Some(Navigation(Home, NoState));
      } else {
        errorMessage := ResponseMessageOr(reply, NgoFailureFallback);
      }
      uploading := false;
    }
  }
}
