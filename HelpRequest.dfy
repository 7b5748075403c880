/** The help-request form: only a signed-in user may use it. A need, a help
    type and a location are required, one supporting document is optional,
    and the checks stop at the first failure. */
module HelpRequest {
  import opened Strings
  import opened Platform

  datatype HelpForm = HelpForm(needDescription: string, helpType: string, location: string,
                               documents: Option<File>)

  /** The initial record, and the one the form is reset to. */
  const EmptyHelpForm := HelpForm("", "", "", None)

  /** The inputs bound to `handleChange`, the help-type select included. */
  const HelpInputs: set<Field> := {NeedDescription, HelpType, Location}

  /** `{ ...prev, [name]: value }` */
  function WithInput(f: HelpForm, field: Field, v: string): (g: HelpForm)
    requires field in HelpInputs
    ensures field == NeedDescription ==> g == f.(needDescription := v)
    ensures field == HelpType ==> g == f.(helpType := v)
    ensures field == Location ==> g == f.(location := v)
  {
    match field
    case NeedDescription => f.(needDescription := v)
    case HelpType => f.(helpType := v)
    case Location => f.(location := v)
  }

  const AcceptedDocumentTypes: seq<string> := ["application/pdf", "image/jpeg", "image/png"]

  /** 5 MiB, in bytes. */
  const MaxDocumentSize: nat := 5 * 1024 * 1024

  const WrongTypeMessage := "Invalid file type. Please upload PDF, JPEG, or PNG files only."
  const TooLargeMessage := "File size too large. Maximum allowed size is 5MB."
  const LoginRequiredMessage := "Please login to submit a help request"

  /** Why `handleFileChange` refuses a file, if it does: the type is
      looked at first, the size only for a file of an accepted type. */
  function DocumentRefusal(file: File): (m: Option<string>)
    ensures m == None <==> file.mimeType in AcceptedDocumentTypes && file.size <= MaxDocumentSize
    ensures m == Some(WrongTypeMessage) <==> file.mimeType !in AcceptedDocumentTypes
    ensures m == Some(TooLargeMessage) <==>
      file.mimeType in AcceptedDocumentTypes && file.size > MaxDocumentSize
  {
    if file.mimeType !in AcceptedDocumentTypes then Some(WrongTypeMessage)
    else if file.size > MaxDocumentSize then Some(TooLargeMessage)
    else None
  }

  /** The bound is inclusive: a PDF of exactly 5 MiB is accepted, one byte
      more is refused for its size. */
  lemma SizeBoundInclusive(name: string)
    ensures DocumentRefusal(File(name, "application/pdf", 5242880)) == None
    ensures DocumentRefusal(File(name, "application/pdf", 5242881)) == Some(TooLargeMessage)
  {
  }

  /** The declared type decides, not the name: a GIF is refused whatever it
      is called, and a file of an accepted type passes whatever it is called. */
  lemma TypeNotNameDecides(name: string, size: nat)
    ensures DocumentRefusal(File(name, "image/gif", size)) == Some(WrongTypeMessage)
    ensures size <= MaxDocumentSize ==> DocumentRefusal(File(name, "image/png", size)) == None
  {
    assert "image/gif" != AcceptedDocumentTypes[0] && "image/gif" != AcceptedDocumentTypes[1];
    assert "image/gif"[6] != AcceptedDocumentTypes[2][6];
  }

  const NoUserMessage := "User authentication required"
  const NoNeedMessage := "Please describe your need in detail"
  const NoHelpTypeMessage := "Please select a help type"
  const NoLocationMessage := "Please provide your location"

  /** The early-return chain of `handleSubmit`: the first failing check
      alone is reported. The help type is not trimmed. */
  function FirstFailure(userId: Option<string>, f: HelpForm): (m: Option<string>)
  {
    if !Truthy(userId) then Some(NoUserMessage)
    else if IsBlank(f.needDescription) then Some(NoNeedMessage)
    else if f.helpType == "" then Some(NoHelpTypeMessage)
    else if IsBlank(f.location) then Some(NoLocationMessage)
    else None
  }

  /** A submission passes exactly when a user is known, the need and the
      location have text and a help type is chosen. */
  lemma FirstFailureNoneIff(userId: Option<string>, f: HelpForm)
    ensures FirstFailure(userId, f) == None <==>
      Truthy(userId) && HasText(f.needDescription) && f.helpType != "" && HasText(f.location)
  {
    BlankIffNoText(f.needDescription);
    BlankIffNoText(f.location);
  }

  /** Each message is reported exactly when its check is the first to fail. */
  lemma FirstFailureOrder(userId: Option<string>, f: HelpForm)
    ensures FirstFailure(userId, f) == Some(NoUserMessage) <==> !Truthy(userId)
    ensures FirstFailure(userId, f) == Some(NoNeedMessage) <==>
      Truthy(userId) && !HasText(f.needDescription)
    ensures FirstFailure(userId, f) == Some(NoHelpTypeMessage) <==>
      Truthy(userId) && HasText(f.needDescription) && f.helpType == ""
    ensures FirstFailure(userId, f) == Some(NoLocationMessage) <==>
      Truthy(userId) && HasText(f.needDescription) && f.helpType != "" && !HasText(f.location)
  {
    BlankIffNoText(f.needDescription);
    BlankIffNoText(f.location);
  }

  /** The multipart body: the three answers, the user, and the document only
      when one was chosen. */
  datatype HelpPayload = HelpPayload(needDescription: string, helpType: string, location: string,
                                     userId: string, documents: Option<File>)

  function PayloadOf(userId: string, f: HelpForm): HelpPayload {
    HelpPayload(f.needDescription, f.helpType, f.location, userId, f.documents)
  }

  /** The payload loses nothing: the form and the user can be read back from it. */
  lemma PayloadRoundTrip(userId: string, f: HelpForm)
    ensures var p := PayloadOf(userId, f);
      HelpForm(p.needDescription, p.helpType, p.location, p.documents) == f && p.userId == userId
  {
  }

  const SubmittedMessage := "Help request submitted successfully! Our team will review your request shortly."
  const SubmitFallback := "Failed to submit request. Please try again."

  /** The error toast after a failure: the thrown error's message, with no
      second fallback, so a thrown error without a message toasts "". */
  function FailureText(reply: Reply<()>): (t: string)
    requires !reply.Ok?
    ensures reply.Rejected? ==> t == OrElse(reply.message, SubmitFallback) && t != ""
    ensures reply.Thrown? ==> t == reply.message
  {
    ToastedError(reply, SubmitFallback, "")
  }

  class HelpRequestForm {
    var form: HelpForm
    var isSubmitting: bool
    /** Set from the store when the page is mounted; never empty. */
    var userId: Option<string>
    /** Toasts shown so far, oldest first. */
    var toasts: seq<Toast>
    /** Every payload posted to the request endpoint, oldest first. */
    var sent: seq<HelpPayload>
    var navigation: Option<Navigation>
    /** The browser store, shared with the other pages. */
    var store: Store

    ghost predicate Valid()
      reads this
    {
      userId != Some("")
    }

    constructor (store: Store)
      ensures Valid() && this.store == store
      ensures form == EmptyHelpForm && !isSubmitting && userId == None
      ensures toasts == [] && sent == [] && navigation == None
    {
      this.store := store;
      form := EmptyHelpForm;
      isSubmitting := false;
      userId := None;
      toasts := [];
      sent := [];
      navigation := None;
    }

    /** The mount effect: without a stored user id the visitor is sent to
      the login page; with one, it is kept for the request. */
    method Mount()
      requires Valid()
      modifies this
      ensures Valid()
      ensures var v := Lookup(store.entries, UserIdKey);
        if Truthy(v)
        then userId == v && toasts == old(toasts) && navigation == old(navigation)
        else userId == old(userId) && toasts == old(toasts) + [ErrorToast(LoginRequiredMessage)]
             && navigation == Some(Navigation(Login, NoState))
      ensures form == old(form) && isSubmitting == old(isSubmitting) && sent == old(sent)
      ensures store == old(store)
    {
      var v := store.GetItem(UserIdKey);
      if !Truthy(v) {
        toasts := toasts + [ErrorToast(LoginRequiredMessage)];
        navigation := Some(Navigation(Login, NoState));
        return;
      }
      userId := v;
    }

    /** `handleChange` */
    method HandleChange(field: Field, value: string)
      requires field in HelpInputs
      modifies this
      ensures form == WithInput(old(form), field, value)
      ensures isSubmitting == old(isSubmitting) && userId == old(userId) && store == old(store)
      ensures toasts == old(toasts) && sent == old(sent) && navigation == old(navigation)
    {
      form := WithInput(form, field, value);
    }

    /** `handleFileChange`: a refused file is reported and the document
      already chosen, if any, is kept. */
    method HandleFileChange(file: Option<File>)
      modifies this
      ensures file.None? ==> form == old(form) && toasts == old(toasts)
      ensures file.Some? && DocumentRefusal(file.value).Some? ==>
        form == old(form) && toasts == old(toasts) + [ErrorToast(DocumentRefusal(file.value).value)]
      ensures file.Some? && DocumentRefusal(file.value).None? ==>
        form == old(form).(documents := file) && toasts == old(toasts)
      ensures isSubmitting == old(isSubmitting) && userId == old(userId) && store == old(store)
      ensures sent == old(sent) && navigation == old(navigation)
    {
      if file.None? {
        return;
      }
      var refusal := DocumentRefusal(file.value);
      if refusal.Some? {
        toasts := toasts + [ErrorToast(refusal.value)];
        return;
      }
      form := form.(documents := file);
    }

    /** The synchronous part of `handleSubmit`: the first failed check is
      toasted and nothing is sent. The submit button is disabled while a
      request is in flight. */
    method BeginSubmit() returns (requested: bool)
      requires Valid() && !isSubmitting
      modifies this
      ensures Valid()
      ensures requested <==> FirstFailure(old(userId), old(form)) == None
      ensures !requested ==> (toasts == old(toasts) + [ErrorToast(FirstFailure(old(userId), old(form)).value)]
                              && sent == old(sent) && !isSubmitting)
      ensures requested ==> (toasts == old(toasts) && isSubmitting
                             && sent == old(sent) + [PayloadOf(old(userId).value, old(form))])
      ensures form == old(form) && userId == old(userId) && store == old(store)
      ensures navigation == old(navigation)
    {
      var failure := FirstFailure(userId, form);
      if failure.Some? {
        toasts := toasts + [ErrorToast(failure.value)];
        return false;
      }
      isSubmitting := true;
      sent := sent + [PayloadOf(userId.value, form)];
      requested := true;
    }

    /** The rest of `handleSubmit`: success toasts, empties all four fields
      and goes home; failure toasts the message and keeps the form.
      `isSubmitting` is cleared either way. */
    method CompleteSubmit(reply: Reply<()>)
      requires isSubmitting
      modifies this
      ensures !isSubmitting
      ensures reply.Ok? ==> (toasts == old(toasts) + [SuccessToast(SubmittedMessage)]
                             && form == EmptyHelpForm && navigation == Some(Navigation(Home, NoState)))
      ensures !reply.Ok? ==> (toasts == old(toasts) + [ErrorToast(FailureText(reply))]
                              && form == old(form) && navigation == old(navigation))
      ensures userId == old(userId) && sent == old(sent) && store == old(store)
    {
      if reply.Ok? {
        toasts := toasts + [SuccessToast(SubmittedMessage)];
        form := EmptyHelpForm;
        navigation := Some(Navigation(Home, NoState));
      } else {
        toasts := toasts + [ErrorToast(FailureText(reply))];
      }
      isSubmitting := false;
    }
  }
}
