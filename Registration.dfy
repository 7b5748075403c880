/** The registration form: names, an email under the strict rule, a password
    with a length rule and its confirmation, and a role. A valid form is
    posted as JSON without the confirmation. */
module Registration {
  import opened Strings
  import opened EmailRules
  import opened Platform

  datatype RegisterForm = RegisterForm(
    firstName: string, lastName: string, email: string,
    password: string, confirmPassword: string, role: string)

  /** The initial record, and the one the form is reset to. */
  const InitialRegisterForm := RegisterForm("", "", "", "", "", "help_seeker")

  /** The inputs bound to `handleChange`, the role select included. */
  const RegisterInputs: set<Field> := {FirstName, LastName, Email, Password, ConfirmPassword, Role}

  const RegisterFields: set<Field> := {FirstName, LastName, Email, Password, ConfirmPassword}

  /** `s.length` must reach this. */
  const MinPasswordLength := 6

  /** `{ ...prev, [name]: value }` */
  function WithInput(f: RegisterForm, field: Field, v: string): (g: RegisterForm)
    requires field in RegisterInputs
    ensures field == FirstName ==> g == f.(firstName := v)
    ensures field == LastName ==> g == f.(lastName := v)
    ensures field == Email ==> g == f.(email := v)
    ensures field == Password ==> g == f.(password := v)
    ensures field == ConfirmPassword ==> g == f.(confirmPassword := v)
    ensures field == Role ==> g == f.(role := v)
  {
    match field
    case FirstName => f.(firstName := v)
    case LastName => f.(lastName := v)
    case Email => f.(email := v)
    case Password => f.(password := v)
    case ConfirmPassword => f.(confirmPassword := v)
    case Role => f.(role := v)
  }

  const PasswordTooShort := "Password must be at least 6 characters"
  const PasswordsDiffer := "Passwords do not match"

  /** The map `validate` fills, given the outcome of each test. The email and
      the password each get one message at most. */
  function FillRegister(firstNameBlank: bool, lastNameBlank: bool, emailBlank: bool, emailMalformed: bool,
                        passwordEmpty: bool, passwordShort: bool, mismatch: bool): (e: Errors)
    ensures e.Keys <= RegisterFields
    ensures FirstName in e <==> firstNameBlank
    ensures FirstName in e ==> e[FirstName] == FirstNameRequired
    ensures LastName in e <==> lastNameBlank
    ensures LastName in e ==> e[LastName] == LastNameRequired
    ensures Email in e <==> emailBlank || emailMalformed
    ensures Email in e ==> e[Email] == (if emailBlank then EmailRequired else EmailInvalid)
    ensures Password in e <==> passwordEmpty || passwordShort
    ensures Password in e ==>
      e[Password] == (if passwordEmpty then PasswordRequired else PasswordTooShort)
    ensures ConfirmPassword in e <==> mismatch
    ensures ConfirmPassword in e ==> e[ConfirmPassword] == PasswordsDiffer
  {
    var e1 := if firstNameBlank then map[FirstName := FirstNameRequired] else map[];
    var e2 := if lastNameBlank then e1[LastName := LastNameRequired] else e1;
    var e3 :=
      if emailBlank then e2[Email := EmailRequired]
      else if emailMalformed then e2[Email := EmailInvalid]
      else e2;
    var e4 :=
      if passwordEmpty then e3[Password := PasswordRequired]
      else if passwordShort then e3[Password := PasswordTooShort]
      else e3;
    if mismatch then e4[ConfirmPassword := PasswordsDiffer] else e4
  }

  /** `validate`: the role is not checked, the password is not trimmed, and
      its length counts UTF-16 code units. */
  function RegisterErrors(f: RegisterForm): Errors {
    FillRegister(IsBlank(f.firstName), IsBlank(f.lastName), IsBlank(f.email), !StrictEmail(f.email),
                 f.password == "", Utf16Length(f.password) < MinPasswordLength,
                 f.password != f.confirmPassword)
  }

  /** Which fields carry an error, each stated without the trimming. */
  lemma RegisterFieldErrors(f: RegisterForm)
    ensures FirstName in RegisterErrors(f) <==> !HasText(f.firstName)
    ensures LastName in RegisterErrors(f) <==> !HasText(f.lastName)
    ensures Email in RegisterErrors(f) <==> !StrictEmail(f.email)
    ensures Password in RegisterErrors(f) <==> Utf16Length(f.password) < MinPasswordLength
    ensures ConfirmPassword in RegisterErrors(f) <==> f.password != f.confirmPassword
  {
    BlankIffNoText(f.firstName);
    BlankIffNoText(f.lastName);
    if StrictEmail(f.email) {
      StrictImpliesLoose(f.email);
      LooseEmailHasText(f.email);
    }
  }

  /** The form is valid exactly when every rule holds; the role plays no part. */
  lemma RegisterValidIff(f: RegisterForm)
    ensures RegisterErrors(f) == map[] <==>
      HasText(f.firstName) && HasText(f.lastName) && StrictEmail(f.email)
      && Utf16Length(f.password) >= MinPasswordLength && f.confirmPassword == f.password
  {
    RegisterFieldErrors(f);
    EmptyIffNoFieldKey(RegisterErrors(f), RegisterFields);
  }

  /** Editing one input leaves the verdicts of the others as they were. The
      password and its confirmation are judged together: editing the password
      can change both verdicts, editing the confirmation only its own. */
  lemma EditIsLocal(f: RegisterForm, field: Field, v: string)
    requires field in RegisterInputs
    ensures var g := WithInput(f, field, v);
      && (field != FirstName ==> (FirstName in RegisterErrors(g) <==> FirstName in RegisterErrors(f)))
      && (field != LastName ==> (LastName in RegisterErrors(g) <==> LastName in RegisterErrors(f)))
      && (field != Email ==> (Email in RegisterErrors(g) <==> Email in RegisterErrors(f)))
      && (field != Password ==> (Password in RegisterErrors(g) <==> Password in RegisterErrors(f)))
      && (field != Password && field != ConfirmPassword ==>
            (ConfirmPassword in RegisterErrors(g) <==> ConfirmPassword in RegisterErrors(f)))
  {
    match field
    case FirstName => assert WithInput(f, field, v) == f.(firstName := v);
    case LastName => assert WithInput(f, field, v) == f.(lastName := v);
    case Email => assert WithInput(f, field, v) == f.(email := v);
    case Password => assert WithInput(f, field, v) == f.(password := v);
    case ConfirmPassword => assert WithInput(f, field, v) == f.(confirmPassword := v);
    case Role => assert WithInput(f, field, v) == f.(role := v);
  }

  /** The role select never changes the error map. */
  lemma RoleIsNotValidated(f: RegisterForm, v: string)
    ensures RegisterErrors(WithInput(f, Role, v)) == RegisterErrors(f)
  {
    assert WithInput(f, Role, v) == f.(role := v);
  }

  /** Two empty passwords match, so only the password itself is reported. */
  lemma EmptyPasswordsReportOnce(f: RegisterForm)
    requires f.password == "" && f.confirmPassword == ""
    ensures Password in RegisterErrors(f) && RegisterErrors(f)[Password] == PasswordRequired
    ensures ConfirmPassword !in RegisterErrors(f)
  {
  }

  /** A mismatch is reported whatever the password's own error is. */
  lemma MismatchIndependentOfLength(f: RegisterForm, g: RegisterForm)
    requires f.password != f.confirmPassword && g.password != g.confirmPassword
    ensures ConfirmPassword in RegisterErrors(f) && ConfirmPassword in RegisterErrors(g)
    ensures RegisterErrors(f)[ConfirmPassword] == RegisterErrors(g)[ConfirmPassword]
  {
  }

  /** Three characters outside the Basic Multilingual Plane make six code
      units, enough for the length rule. */
  lemma AstralPasswordLongEnough()
    ensures Utf16Length("\U{1F600}\U{1F600}\U{1F600}") == MinPasswordLength
  {
    var s := "\U{1F600}\U{1F600}\U{1F600}";
    assert s[1..][1..][1..] == "";
  }

  /** The JSON body of the request. */
  datatype RegisterBody = RegisterBody(firstName: string, lastName: string, email: string,
                                       password: string, role: string)

  /** The body is built field by field from the form, leaving out
      `confirmPassword`. */
  function BodyOf(f: RegisterForm): RegisterBody {
    RegisterBody(f.firstName, f.lastName, f.email, f.password, f.role)
  }

  /** The body determines the form up to the confirmation: nothing of the
      form is lost but `confirmPassword`, and nothing of it is sent. */
  lemma BodyOmitsOnlyConfirmation(f: RegisterForm, g: RegisterForm)
    ensures BodyOf(f) == BodyOf(g) <==> f.(confirmPassword := g.confirmPassword) == g
  {
  }

  const RegisteredMessage := "Registration successful! Redirecting to login..."
  const RegisterRejectedFallback := "Registration failed"
  const RegisterErrorFallback := "An error occurred during registration"

  /** The error toast after a failure. */
  function FailureText(reply: Reply<()>): (t: string)
    requires !reply.Ok?
    ensures t != ""
    ensures reply.Rejected? ==> t == OrElse(reply.message, RegisterRejectedFallback)
    ensures reply.Thrown? ==> t == OrElse(reply.message, RegisterErrorFallback)
  {
    ToastedError(reply, RegisterRejectedFallback, RegisterErrorFallback)
  }

  class RegistrationForm {
    var form: RegisterForm
    var errors: Errors
    var isSubmitting: bool
    /** Toasts shown so far, oldest first. */
    var toasts: seq<Toast>
    /** Every body posted to the registration endpoint, oldest first. */
    var sent: seq<RegisterBody>
    var navigation: Option<Navigation>

    constructor ()
      ensures form == InitialRegisterForm && errors == map[] && !isSubmitting
      ensures toasts == [] && sent == [] && navigation == None
    {
      form := InitialRegisterForm;
      errors := map[];
      isSubmitting := false;
      toasts := [];
      sent := [];
      navigation := None;
    }

    /** `handleChange` */
    method HandleChange(field: Field, value: string)
      requires field in RegisterInputs
      modifies this
      ensures form == WithInput(old(form), field, value)
      ensures errors == old(errors) && isSubmitting == old(isSubmitting)
      ensures toasts == old(toasts) && sent == old(sent) && navigation == old(navigation)
    {
      form := WithInput(form, field, value);
    }

    /** `validate`: replaces the whole error map. */
    method Validate() returns (ok: bool)
      modifies this
      ensures errors == RegisterErrors(old(form)) && (ok <==> RegisterErrors(old(form)) == map[])
      ensures form == old(form) && isSubmitting == old(isSubmitting)
      ensures toasts == old(toasts) && sent == old(sent) && navigation == old(navigation)
    {
      var f := form;
      var e := RegisterErrors(f);
      ok := e == map[];
      errors := e;
    }

    /** The synchronous part of `handleSubmit`. The submit button is disabled
      while a request is in flight. */
    method BeginSubmit() returns (requested: bool)
      requires !isSubmitting
      modifies this
      ensures form == old(form) && errors == RegisterErrors(old(form))
      ensures requested <==> RegisterErrors(old(form)) == map[]
      ensures requested ==> isSubmitting && sent == old(sent) + [BodyOf(old(form))]
      ensures !requested ==> !isSubmitting && sent == old(sent)
      ensures toasts == old(toasts) && navigation == old(navigation)
    {
      requested := Validate();
      if !requested {
        return;
      }
      isSubmitting := true;
      sent := sent + [BodyOf(form)];
    }

    /** The rest of `handleSubmit`: success toasts, resets the form to its
      initial record and goes to the login page; failure toasts the message
      and keeps the form. `isSubmitting` is cleared either way. */
    method CompleteSubmit(reply: Reply<()>)
      requires isSubmitting
      modifies this
      ensures !isSubmitting
      ensures reply.Ok? ==> (toasts == old(toasts) + [SuccessToast(RegisteredMessage)]
                             && form == InitialRegisterForm
                             && navigation == Some(Navigation(Login, NoState)))
      ensures !reply.Ok? ==> (toasts == old(toasts) + [ErrorToast(FailureText(reply))]
                              && form == old(form) && navigation == old(navigation))
      ensures errors == old(errors) && sent == old(sent)
    {
      if reply.Ok? {
        toasts := toasts + [SuccessToast(RegisteredMessage)];
        form := InitialRegisterForm;
        navigation := Some(Navigation(Login, NoState));
      } else {
        toasts := toasts + [ErrorToast(FailureText(reply))];
      }
      isSubmitting := false;
    }
  }
}
