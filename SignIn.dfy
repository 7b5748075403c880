/** The sign-in form: an email under the strict rule and a password that is
    only required. A successful login stores the session in the browser's
    persistent store. */
module SignIn {
  import opened Strings
  import opened EmailRules
  import opened Platform
  import Registration

  datatype SignInForm = SignInForm(email: string, password: string)

  const EmptySignInForm := SignInForm("", "")

  const SignInFields: set<Field> := {Email, Password}

  /** `{ ...prev, [name]: value }` */
  function WithInput(f: SignInForm, field: Field, v: string): (g: SignInForm)
    requires field in SignInFields
    ensures field == Email ==> g == f.(email := v)
    ensures field == Password ==> g == f.(password := v)
  {
    if field == Email then f.(email := v) else f.(password := v)
  }

  /** The map `validate` fills, given the outcome of each test. */
  function FillSignIn(emailBlank: bool, emailMalformed: bool, passwordEmpty: bool): (e: Errors)
    ensures e.Keys <= SignInFields
    ensures Email in e <==> emailBlank || emailMalformed
    ensures Email in e ==> e[Email] == (if emailBlank then EmailRequired else EmailInvalid)
    ensures Password in e <==> passwordEmpty
    ensures Password in e ==> e[Password] == PasswordRequired
  {
    var e1 :=
      if emailBlank then map[Email := EmailRequired]
      else if emailMalformed then map[Email := EmailInvalid]
      else map[];
    if passwordEmpty then e1[Password := PasswordRequired] else e1
  }

  /** `validate` */
  function SignInErrors(f: SignInForm): Errors {
    FillSignIn(IsBlank(f.email), !StrictEmail(f.email), f.password == "")
  }

  /** The form is valid exactly when the email passes the strict rule and the
      password is not empty; any non-empty password will do. */
  lemma SignInValidIff(f: SignInForm)
    ensures Email in SignInErrors(f) <==> !StrictEmail(f.email)
    ensures SignInErrors(f) == map[] <==> StrictEmail(f.email) && f.password != ""
  {
    if StrictEmail(f.email) {
      StrictImpliesLoose(f.email);
      LooseEmailHasText(f.email);
    }
    EmptyIffNoFieldKey(SignInErrors(f), SignInFields);
  }

  /** Editing the email leaves the password's verdict as it was, and the
      other way round. */
  lemma EditIsLocal(f: SignInForm, field: Field, v: string)
    requires field in SignInFields
    ensures var g := WithInput(f, field, v);
      && (field != Email ==> (Email in SignInErrors(g) <==> Email in SignInErrors(f)))
      && (field != Password ==> (Password in SignInErrors(g) <==> Password in SignInErrors(f)))
  {
  }

  /** Sign-in judges an email exactly as registration does, message included,
      and refuses a password only where registration refuses it too. */
  lemma SameEmailRuleAsRegistration(f: SignInForm, g: Registration.RegisterForm)
    requires f.email == g.email && f.password == g.password
    ensures Email in SignInErrors(f) <==> Email in Registration.RegisterErrors(g)
    ensures Email in SignInErrors(f) ==> SignInErrors(f)[Email] == Registration.RegisterErrors(g)[Email]
    ensures Password in SignInErrors(f) ==> Password in Registration.RegisterErrors(g)
  {
  }

  /** The user object of a login response: its id, its role, and the JSON
      text `JSON.stringify` makes of it. */
  datatype User = User(id: string, role: string, json: string)

  /** `data.data` of a successful login. */
  datatype Session = Session(token: string, user: User)

  const SessionKeys: set<string> := {TokenKey, UserIdKey, UserRoleKey, UserDataKey}

  /** The store after the four writes of a successful login. */
  function WithSession(entries: map<string, string>, s: Session): (m: map<string, string>)
    ensures m.Keys == entries.Keys + SessionKeys
    ensures m[TokenKey] == s.token && m[UserIdKey] == s.user.id
    ensures m[UserRoleKey] == s.user.role && m[UserDataKey] == s.user.json
    ensures forall k :: k in entries && k !in SessionKeys ==> m[k] == entries[k]
  {
    entries[TokenKey := s.token][UserIdKey := s.user.id][UserRoleKey := s.user.role][UserDataKey := s.user.json]
  }

  /** A second login replaces the whole session: nothing of the first one
      survives. */
  lemma LoginOverwritesSession(entries: map<string, string>, s: Session, t: Session)
    ensures WithSession(WithSession(entries, s), t) == WithSession(entries, t)
  {
    var a, b := WithSession(WithSession(entries, s), t), WithSession(entries, t);
    assert a.Keys == b.Keys;
    forall k | k in a ensures a[k] == b[k] {
      if k !in SessionKeys {
        assert k in entries;
      }
    }
  }

  const LoggedInMessage := "Login successful! Redirecting..."
  const LoginRejectedFallback := "Login failed"
  const LoginErrorFallback := "An error occurred during login"

  /** The error toast after a failed login. */
  function FailureText(reply: Reply<Session>): (t: string)
    requires !reply.Ok?
    ensures t != ""
    ensures reply.Rejected? ==> t == OrElse(reply.message, LoginRejectedFallback)
    ensures reply.Thrown? ==> t == OrElse(reply.message, LoginErrorFallback)
  {
    ToastedError(reply, LoginRejectedFallback, LoginErrorFallback)
  }

  class SignInPage {
    var form: SignInForm
    var errors: Errors
    var isSubmitting: bool
    /** Toasts shown so far, oldest first. */
    var toasts: seq<Toast>
    /** Every form posted to the login endpoint, oldest first. */
    var sent: seq<SignInForm>
    var navigation: Option<Navigation>
    /** The browser store, shared with the other pages. */
    var store: Store

    constructor (store: Store)
      ensures this.store == store
      ensures form == EmptySignInForm && errors == map[] && !isSubmitting
      ensures toasts == [] && sent == [] && navigation == None
    {
      this.store := store;
      form := EmptySignInForm;
      errors := map[];
      isSubmitting := false;
      toasts := [];
      sent := [];
      navigation := None;
    }

    /** `handleChange` */
    method HandleChange(field: Field, value: string)
      requires field in SignInFields
      modifies this
      ensures form == WithInput(old(form), field, value)
      ensures errors == old(errors) && isSubmitting == old(isSubmitting) && store == old(store)
      ensures toasts == old(toasts) && sent == old(sent) && navigation == old(navigation)
    {
      form := WithInput(form, field, value);
    }

    /** `validate`: replaces the whole error map. */
    method Validate() returns (ok: bool)
      modifies this
      ensures errors == SignInErrors(old(form)) && (ok <==> SignInErrors(old(form)) == map[])
      ensures form == old(form) && isSubmitting == old(isSubmitting) && store == old(store)
      ensures toasts == old(toasts) && sent == old(sent) && navigation == old(navigation)
    {
      var f := form;
      var e := SignInErrors(f);
      ok := e == map[];
      errors := e;
    }

    /** The synchronous part of `handleSubmit`; the store is not touched. */
    method BeginSubmit() returns (requested: bool)
      requires !isSubmitting
      modifies this
      ensures form == old(form) && errors == SignInErrors(old(form)) && store == old(store)
      ensures requested <==> SignInErrors(old(form)) == map[]
      ensures requested ==> isSubmitting && sent == old(sent) + [old(form)]
      ensures !requested ==> !isSubmitting && sent == old(sent)
      ensures toasts == old(toasts) && navigation == old(navigation)
    {
      requested := Validate();
      if !requested {
        return;
      }
      isSubmitting := true;
      sent := sent + [form];
    }

    /** The four `localStorage.setItem` calls of a successful login. */
    method SaveSession(s: Session)
      modifies store
      ensures store.entries == WithSession(old(store.entries), s)
    {
      ghost var before := store.entries;
      store.SetItem(TokenKey, s.token);
      store.SetItem(UserIdKey, s.user.id);
      store.SetItem(UserRoleKey, s.user.role);
      store.SetItem(UserDataKey, s.user.json);
      assert store.entries == before[TokenKey := s.token][UserIdKey := s.user.id]
        [UserRoleKey := s.user.role][UserDataKey := s.user.json];
    }

    /** The rest of `handleSubmit`. A successful login writes the session
      keys, toasts, empties the form and goes home; a failure writes nothing
      and toasts the message. `isSubmitting` is cleared either way. */
    method CompleteSubmit(reply: Reply<Session>)
      requires isSubmitting
      modifies this, store
      ensures store == old(store) && !isSubmitting
      ensures reply.Ok? ==> (store.entries == WithSession(old(store.entries), reply.payload)
                             && toasts == old(toasts) + [SuccessToast(LoggedInMessage)]
                             && form == EmptySignInForm
                             && navigation == Some(Navigation(Home, NoState)))
      ensures !reply.Ok? ==> (store.entries == old(store.entries)
                              && toasts == old(toasts) + [ErrorToast(FailureText(reply))]
                              && form == old(form) && navigation == old(navigation))
      ensures errors == old(errors) && sent == old(sent)
    {
      if reply.Ok? {
        SaveSession(reply.payload);
        toasts := toasts + [SuccessToast(LoggedInMessage)];
        form := EmptySignInForm;
        navigation := Some(Navigation(Home, NoState));
      } else {
        toasts := toasts + [ErrorToast(FailureText(reply))];
      }
      isSubmitting := false;
    }
  }
}
