/** The help-creator profile wizard: step 1 collects identity fields, step 2
    an address and two uploads; the whole record is sent as one multipart
    request, and the new profile's id is carried to the NGO form. */
module CreatorProfile {
  import opened Strings
  import opened EmailRules
  import opened Platform
  import opened ImageFiles

  datatype ProfileForm = ProfileForm(
    firstName: string, lastName: string, email: string, phoneNumber: string,
    address: string, profilePic: Option<File>, verifyDocuments: Option<File>,
    password: string)

  const EmptyProfile := ProfileForm("", "", "", "", "", None, None, "")

  /** The inputs bound to `handleChange`. */
  const TextFields: set<Field> := {FirstName, LastName, Email, PhoneNumber, Address, Password}

  /** The inputs bound to `handleFileChange`; an input's name is the key its
      error goes under. */
  const FileSlots: set<Field> := {ProfilePic, VerifyDocuments}

  /** `{ ...prev, [name]: value }` for a text input. */
  function WithText(f: ProfileForm, field: Field, v: string): ProfileForm
    requires field in TextFields
  {
    match field
    case FirstName => f.(firstName := v)
    case LastName => f.(lastName := v)
    case Email => f.(email := v)
    case PhoneNumber => f.(phoneNumber := v)
    case Address => f.(address := v)
    case Password => f.(password := v)
  }

  /** `{ ...prev, [name]: file }` for a file input: only that slot changes. */
  function WithFile(f: ProfileForm, slot: Field, file: File): (g: ProfileForm)
    requires slot in FileSlots
    ensures slot == ProfilePic ==> g.profilePic == Some(file) && g.verifyDocuments == f.verifyDocuments
    ensures slot == VerifyDocuments ==> g.verifyDocuments == Some(file) && g.profilePic == f.profilePic
    ensures g.firstName == f.firstName && g.lastName == f.lastName && g.email == f.email
    ensures g.phoneNumber == f.phoneNumber && g.address == f.address && g.password == f.password
  {
    if slot == ProfilePic then f.(profilePic := Some(file)) else f.(verifyDocuments := Some(file))
  }

  const PhoneRequired := "Phone number is required"
  const AddressRequired := "Address is required"
  const ProfilePicRequired := "Profile picture is required"
  const DocumentRequired := "Verification document is required"

  const Step1Fields: set<Field> := {FirstName, LastName, Email, PhoneNumber, Password}
  const Step2Fields: set<Field> := {Address, ProfilePic, VerifyDocuments}

  /** The map `validateStep1` fills, one test after the other, given the
      outcome of each test. The email gets one message at most. */
  function FillStep1(firstNameBlank: bool, lastNameBlank: bool, emailBlank: bool,
                     emailMalformed: bool, phoneBlank: bool, passwordEmpty: bool): (e: Errors)
    ensures e.Keys <= Step1Fields
    ensures FirstName in e <==> firstNameBlank
    ensures FirstName in e ==> e[FirstName] == FirstNameRequired
    ensures LastName in e <==> lastNameBlank
    ensures LastName in e ==> e[LastName] == LastNameRequired
    ensures Email in e <==> emailBlank || emailMalformed
    ensures Email in e ==> e[Email] == (if emailBlank then EmailRequired else EmailInvalid)
    ensures PhoneNumber in e <==> phoneBlank
    ensures PhoneNumber in e ==> e[PhoneNumber] == PhoneRequired
    ensures Password in e <==> passwordEmpty
    ensures Password in e ==> e[Password] == PasswordRequired
  {
    var e1 := if firstNameBlank then map[FirstName := FirstNameRequired] else map[];
    var e2 := if lastNameBlank then e1[LastName := LastNameRequired] else e1;
    var e3 :=
      if emailBlank then e2[Email := EmailRequired]
      else if emailMalformed then e2[Email := EmailInvalid]
      else e2;
    var e4 := if phoneBlank then e3[PhoneNumber := PhoneRequired] else e3;
    if passwordEmpty then e4[Password := PasswordRequired] else e4
  }

  /** `validateStep1`: names, email and phone are trimmed before the emptiness
      test, the email shape is tested on the untrimmed value, and the password
      is not trimmed at all. */
  function Step1Errors(f: ProfileForm): Errors {
    FillStep1(IsBlank(f.firstName), IsBlank(f.lastName), IsBlank(f.email),
              !LooseEmail(f.email), IsBlank(f.phoneNumber), f.password == "")
  }

  /** The map `validateStep2` fills, given the outcome of each test. */
  function FillStep2(addressBlank: bool, noProfilePic: bool, noVerifyDocuments: bool): (e: Errors)
    ensures e.Keys <= Step2Fields
    ensures Address in e <==> addressBlank
    ensures Address in e ==> e[Address] == AddressRequired
    ensures ProfilePic in e <==> noProfilePic
    ensures ProfilePic in e ==> e[ProfilePic] == ProfilePicRequired
    ensures VerifyDocuments in e <==> noVerifyDocuments
    ensures VerifyDocuments in e ==> e[VerifyDocuments] == DocumentRequired
  {
    var e1 := if addressBlank then map[Address := AddressRequired] else map[];
    var e2 := if noProfilePic then e1[ProfilePic := ProfilePicRequired] else e1;
    if noVerifyDocuments then e2[VerifyDocuments := DocumentRequired] else e2
  }

  /** `validateStep2`: only the address and the two file slots are looked at. */
  function Step2Errors(f: ProfileForm): Errors {
    FillStep2(IsBlank(f.address), f.profilePic.None?, f.verifyDocuments.None?)
  }

  /** Which step-1 fields carry an error. A password of spaces has none. */
  lemma Step1FieldErrors(f: ProfileForm)
    ensures FirstName in Step1Errors(f) <==> !HasText(f.firstName)
    ensures LastName in Step1Errors(f) <==> !HasText(f.lastName)
    ensures Email in Step1Errors(f) <==> !LooseEmail(f.email)
    ensures PhoneNumber in Step1Errors(f) <==> !HasText(f.phoneNumber)
    ensures Password in Step1Errors(f) <==> f.password == ""
  {
    BlankIffNoText(f.firstName);
    BlankIffNoText(f.lastName);
    BlankIffNoText(f.phoneNumber);
    if LooseEmail(f.email) {
      LooseEmailHasText(f.email);
    }
  }

  /** Step 1 passes exactly when every rule of step 1 holds. */
  lemma Step1ValidIff(f: ProfileForm)
    ensures Step1Errors(f) == map[] <==>
      HasText(f.firstName) && HasText(f.lastName) && LooseEmail(f.email)
      && HasText(f.phoneNumber) && f.password != ""
  {
    Step1FieldErrors(f);
    EmptyIffNoFieldKey(Step1Errors(f), Step1Fields);
  }

  /** Which step-2 fields carry an error. */
  lemma Step2FieldErrors(f: ProfileForm)
    ensures Address in Step2Errors(f) <==> !HasText(f.address)
    ensures ProfilePic in Step2Errors(f) <==> f.profilePic.None?
    ensures VerifyDocuments in Step2Errors(f) <==> f.verifyDocuments.None?
  {
    BlankIffNoText(f.address);
  }

  /** Step 2 passes exactly when the address has text and both files are present. */
  lemma Step2ValidIff(f: ProfileForm)
    ensures Step2Errors(f) == map[] <==>
      HasText(f.address) && f.profilePic.Some? && f.verifyDocuments.Some?
  {
    Step2FieldErrors(f);
    EmptyIffNoFieldKey(Step2Errors(f), Step2Fields);
  }

  /** Step 2 never looks at the step-1 fields, so it can pass while they are
      all invalid. */
  lemma Step2IgnoresStep1(f: ProfileForm, g: ProfileForm)
    requires f.address == g.address && f.profilePic == g.profilePic
    requires f.verifyDocuments == g.verifyDocuments
    ensures Step2Errors(f) == Step2Errors(g)
  {
  }

  /** Typing into one input leaves every other field's verdict, in both
      steps, as it was: errors come and go field by field. */
  lemma EditIsLocal(f: ProfileForm, field: Field, v: string)
    requires field in TextFields
    ensures var g := WithText(f, field, v);
      && (field != FirstName ==> (FirstName in Step1Errors(g) <==> FirstName in Step1Errors(f)))
      && (field != LastName ==> (LastName in Step1Errors(g) <==> LastName in Step1Errors(f)))
      && (field != Email ==> (Email in Step1Errors(g) <==> Email in Step1Errors(f)))
      && (field != PhoneNumber ==> (PhoneNumber in Step1Errors(g) <==> PhoneNumber in Step1Errors(f)))
      && (field != Password ==> (Password in Step1Errors(g) <==> Password in Step1Errors(f)))
      && (field != Address ==> Step2Errors(g) == Step2Errors(f))
  {
    match field
    case FirstName => assert WithText(f, field, v) == f.(firstName := v);
    case LastName => assert WithText(f, field, v) == f.(lastName := v);
    case Email => assert WithText(f, field, v) == f.(email := v);
    case PhoneNumber => assert WithText(f, field, v) == f.(phoneNumber := v);
    case Address => assert WithText(f, field, v) == f.(address := v);
    case Password => assert WithText(f, field, v) == f.(password := v);
  }

  const ProfileFailureFallback := "Failed to create profile. Please try again."
  const ProfileCreatedMessage := "Profile created successfully! Redirecting..."

  class ProfileWizard {
    var step: int
    var form: ProfileForm
    var errors: Errors
    var uploading: bool
    var successMessage: string
    var errorMessage: string
    /** Every record handed to the profile-upload endpoint, oldest first. */
    var sent: seq<ProfileForm>
    var navigation: Option<Navigation>

    /** The wizard is on one of its two steps, and step 2 is reached only
      through `handleNext`, whose step-1 fields are then no longer rendered:
      on step 2 the record passes step 1. */
    ghost predicate Valid()
      reads this
    {
      (step == 1 || step == 2) && (step == 2 ==> Step1Errors(form) == map[])
    }

    constructor ()
      ensures Valid() && step == 1 && form == EmptyProfile && errors == map[]
      ensures !uploading && successMessage == "" && errorMessage == ""
      ensures sent == [] && navigation == None
    {
      step := 1;
      form := EmptyProfile;
      errors := map[];
      uploading := false;
      successMessage, errorMessage := "", "";
      sent := [];
      navigation := None;
    }

    /** `handleChange`, from an input of the step on screen: step 1 renders
      the names, email, phone and password, step 2 only the address. */
    method HandleChange(field: Field, value: string)
      requires Valid() && field in TextFields
      requires step == 1 ==> field in Step1Fields
      requires step == 2 ==> field == Address
      modifies this
      ensures Valid()
      ensures form == WithText(old(form), field, value)
      ensures step == old(step) && errors == old(errors) && uploading == old(uploading)
      ensures successMessage == old(successMessage) && errorMessage == old(errorMessage)
      ensures sent == old(sent) && navigation == old(navigation)
    {
      form := WithText(form, field, value);
    }

    /** `handleFileChange`: no file changes nothing; a refused name records the
      image message under the input's name and keeps the slot; an accepted
      file fills the slot and clears that one error. */
    method HandleFileChange(slot: Field, file: Option<File>)
      requires Valid() && step == 2 && slot in FileSlots
      modifies this
      ensures Valid()
      ensures file.None? ==> form == old(form) && errors == old(errors)
      ensures file.Some? && !IsAllowedImageName(file.value.name) ==>
        form == old(form) && errors == old(errors)[slot := InvalidImageMessage]
      ensures file.Some? && IsAllowedImageName(file.value.name) ==>
        form == WithFile(old(form), slot, file.value) && errors == old(errors)[slot := ""]
      ensures step == old(step) && uploading == old(uploading)
      ensures successMessage == old(successMessage) && errorMessage == old(errorMessage)
      ensures sent == old(sent) && navigation == old(navigation)
    {
      if file.None? {
        return;
      }
      if !IsAllowedImageName(file.value.name) {
        errors := errors[slot := InvalidImageMessage];
        return;
      }
      form := WithFile(form, slot, file.value);
      errors := errors[slot := ""];
    }

    /** `validateStep1`: replaces the whole error map, so errors left by step 2
      are dropped. */
    method ValidateStep1() returns (ok: bool)
      modifies this
      ensures errors == Step1Errors(old(form)) && (ok <==> Step1Errors(old(form)) == map[])
      ensures form == old(form) && step == old(step) && uploading == old(uploading)
      ensures successMessage == old(successMessage) && errorMessage == old(errorMessage)
      ensures sent == old(sent) && navigation == old(navigation)
    {
      var f := form;
      var e := Step1Errors(f);
      ok := e == map[];
      errors := e;
    }

    /** `validateStep2` */
    method ValidateStep2() returns (ok: bool)
      modifies this
      ensures errors == Step2Errors(old(form)) && (ok <==> Step2Errors(old(form)) == map[])
      ensures form == old(form) && step == old(step) && uploading == old(uploading)
      ensures successMessage == old(successMessage) && errorMessage == old(errorMessage)
      ensures sent == old(sent) && navigation == old(navigation)
    {
      var e := Step2Errors(form);
      errors := e;
      ok := e == map[];
    }

    /** `handleNext`: moves to step 2 only when step 1 passes. */
    method HandleNext()
      requires Valid()
      modifies this
      ensures Valid()
      ensures step == (if Step1Errors(old(form)) == map[] then 2 else old(step))
      ensures errors == Step1Errors(old(form))
      ensures form == old(form) && uploading == old(uploading)
      ensures successMessage == old(successMessage) && errorMessage == old(errorMessage)
      ensures sent == old(sent) && navigation == old(navigation)
    {
      var ok := ValidateStep1();
      if ok {
        step := 2;
      }
    }

    /** The Back button: step 1, unconditionally and without validating. */
    method Back()
      modifies this
      ensures Valid() && step == 1
      ensures form == old(form) && errors == old(errors) && uploading == old(uploading)
      ensures successMessage == old(successMessage) && errorMessage == old(errorMessage)
      ensures sent == old(sent) && navigation == old(navigation)
    {
      step := 1;
    }

    /** The synchronous part of `handleSubmit`, up to the request. The submit
      button exists only on step 2 and is disabled while uploading. A form
      that fails step 2 sends nothing. */
    method BeginSubmit() returns (requested: bool)
      requires Valid() && step == 2 && !uploading
      modifies this
      ensures Valid() && step == old(step) && form == old(form)
      ensures errors == Step2Errors(old(form))
      ensures requested ==> Step1Errors(old(form)) == map[] && Step2Errors(old(form)) == map[]
      ensures requested <==> Step2Errors(old(form)) == map[]
      ensures requested ==> (uploading && errorMessage == "" && successMessage == ""
                             && sent == old(sent) + [old(form)])
      ensures !requested ==> (!uploading && errorMessage == old(errorMessage)
                              && successMessage == old(successMessage) && sent == old(sent))
      ensures navigation == old(navigation)
    {
      requested := ValidateStep2();
      if !requested {
        return;
      }
      uploading := true;
      errorMessage := "";
      successMessage := "";
      sent := sent + [form];
    }

    /** The rest of `handleSubmit`, once the request settles: a created
      profile navigates to the NGO form with its id in the query string; a
      failure records the server's message or the fallback; either way
      `uploading` is cleared. */
    method CompleteSubmit(reply: Reply<string>)
      requires Valid() && uploading
      modifies this
      ensures Valid() && !uploading
      ensures reply.Ok? ==> (navigation == Some(Navigation(CreateNgo(reply.payload), NoState))
                             && successMessage == ProfileCreatedMessage && errorMessage == old(errorMessage))
      ensures !reply.Ok? ==> (errorMessage == ResponseMessageOr(reply, ProfileFailureFallback)
                              && navigation == old(navigation) && successMessage == old(successMessage))
      ensures step == old(step) && form == old(form) && errors == old(errors) && sent == old(sent)
    {
      if reply.Ok? {
        navigation := Some(Navigation(CreateNgo(reply.payload), NoState));
        successMessage := ProfileCreatedMessage;
      } else {
        errorMessage := ResponseMessageOr(reply, ProfileFailureFallback);
      }
      uploading := false;
    }
  }
}
