/** The list of NGOs offering help: it is fetched once when the section is
    mounted, and a click on "Apply" goes either to the help form or, for a
    visitor without a session, to registration. */
module HelpCards {
  import opened Platform

  /** `!!localStorage.getItem('token')`, read afresh on every call. */
  function CheckAuth(entries: map<string, string>): (b: bool)
    ensures b <==> TokenKey in entries && entries[TokenKey] != ""
  {
    Truthy(Lookup(entries, TokenKey))
  }

  const LoginPromptMessage := "Please login or register to apply for help"
  const RegisterReasonMessage := "You need to register/login to apply for help"

  /** What one click on "Apply" does: at most one toast and exactly one
      navigation. */
  datatype ApplyOutcome = ApplyOutcome(toast: Option<Toast>, navigation: Navigation)

  /** `handleApplyClick`: without a session the visitor is sent to
      registration, carrying where to go afterwards, why, and the chosen
      NGO; with one, straight to the help form with the NGO. */
  function ApplyClick(entries: map<string, string>, ngo: Ngo): (o: ApplyOutcome)
  {
    if !CheckAuth(entries) then
      ApplyOutcome(Some(ErrorToast(LoginPromptMessage)),
                   Navigation(RegisterPage, Deferred(HelpFormPage, RegisterReasonMessage, ngo)))
    else
      ApplyOutcome(None, Navigation(HelpFormPage, Carrying(ngo)))
  }

  /** The help form is reached exactly when a token is stored, the chosen
      NGO travels along either way, and only the detour through
      registration is announced by a toast. */
  lemma ApplyClickRoutes(entries: map<string, string>, ngo: Ngo)
    ensures ApplyClick(entries, ngo).navigation.to == HelpFormPage <==>
      TokenKey in entries && entries[TokenKey] != ""
    ensures ApplyClick(entries, ngo).navigation.to != HelpFormPage ==>
      ApplyClick(entries, ngo).navigation == Navigation(RegisterPage, Deferred(HelpFormPage, RegisterReasonMessage, ngo))
    ensures ApplyClick(entries, ngo).navigation.state.ngoData == ngo
    ensures ApplyClick(entries, ngo).toast.Some? <==> ApplyClick(entries, ngo).navigation.to == RegisterPage
  {
  }

  /** An empty token counts as signed out. */
  lemma EmptyTokenIsSignedOut(entries: map<string, string>, ngo: Ngo)
    requires TokenKey in entries && entries[TokenKey] == ""
    ensures ApplyClick(entries, ngo).navigation.to == RegisterPage
  {
  }

  /** What the section renders, in the order the component tests for it. */
  datatype View = LoadingView | ErrorView(message: string) | EmptyView | CardsView(ngos: seq<Ngo>)

  function ViewOf(loading: bool, error: Option<string>, ngos: seq<Ngo>): (v: View)
  {
    if loading then LoadingView
    else if Truthy(error) then ErrorView(error.value)
    else if |ngos| == 0 then EmptyView
    else CardsView(ngos)
  }

  /** Loading hides everything, an error hides the list, and the cards show
      exactly the NGOs held, only when there is at least one. */
  lemma ViewPriority(loading: bool, error: Option<string>, ngos: seq<Ngo>)
    ensures ViewOf(loading, error, ngos) == LoadingView <==> loading
    ensures ViewOf(loading, error, ngos).ErrorView? <==> !loading && Truthy(error)
    ensures ViewOf(loading, error, ngos) == EmptyView <==> !loading && !Truthy(error) && ngos == []
    ensures ViewOf(loading, error, ngos).CardsView? ==>
      !loading && !Truthy(error) && ViewOf(loading, error, ngos).ngos == ngos && ngos != []
  {
  }

  const FetchFailedMessage := "Failed to fetch NGOs"
  const FetchErrorPrefix := "Error fetching NGOs: "

  /** The message a failed fetch records: a non-2xx response throws a fixed
      message; any other error keeps its own. */
  function FetchError(reply: Reply<Option<seq<Ngo>>>): (m: string)
    requires !reply.Ok?
    ensures reply.Rejected? ==> m == FetchFailedMessage
    ensures reply.Thrown? ==> m == reply.message
  {
    if reply.Rejected? then FetchFailedMessage else reply.message
  }

  /** After a failed fetch the section shows the error, except when the
      thrown error has an empty message: that one is falsy, and the list
      held so far is rendered as if nothing had failed. */
  lemma FetchFailureView(reply: Reply<Option<seq<Ngo>>>, ngos: seq<Ngo>)
    requires !reply.Ok?
    ensures ViewOf(false, Some(FetchError(reply)), ngos).ErrorView? <==>
      reply.Rejected? || reply.message != ""
    ensures ViewOf(false, Some(FetchError(reply)), ngos).ErrorView? ==>
      ViewOf(false, Some(FetchError(reply)), ngos).message == FetchError(reply)
    ensures !ViewOf(false, Some(FetchError(reply)), ngos).ErrorView? ==>
      ViewOf(false, Some(FetchError(reply)), ngos) == ViewOf(false, None, ngos)
  {
  }

  /** `data?.data?.Ngo` of a successful fetch as the list is kept: a missing
      list leaves the empty list the state started with. */
  function ListOf(found: Option<seq<Ngo>>): (ngos: seq<Ngo>)
    ensures found.Some? ==> ngos == found.value
    ensures found.None? ==> ngos == []
  {
    if found.Some? then found.value else []
  }

  /** The render as written, which keeps `data?.data?.Ngo` as it comes:
      `None` stands for the `undefined` a body without the list gives,
      reading `ngos.length` of it throws, and `None` comes back for that
      crash. */
  function ViewOfAsWritten(loading: bool, error: Option<string>, ngos: Option<seq<Ngo>>): (v: Option<View>)
    ensures ngos.Some? ==> v == Some(ViewOf(loading, error, ngos.value))
  {
    if loading then Some(LoadingView)
    else if Truthy(error) then Some(ErrorView(error.value))
    else if ngos.None? then None
    else Some(ViewOf(loading, error, ngos.value))
  }

  /** A successful response without the list crashes the render as written,
      while the kept empty list shows the empty-list message. */
  lemma MissingListCrashesAsWritten()
    ensures ViewOfAsWritten(false, None, None) == None
    ensures ViewOf(false, None, ListOf(None)) == EmptyView
  {
  }

  /** Keeping a missing list as the empty array changes nothing when the
      list is present, and once the fetch has settled the loading view is
      gone. */
  lemma ListOfAgreesWhenPresent(found: Option<seq<Ngo>>, error: Option<string>)
    ensures found.Some? ==>
      ViewOfAsWritten(false, error, found) == Some(ViewOf(false, error, ListOf(found)))
    ensures ViewOf(false, error, ListOf(found)) != LoadingView
  {
  }

  class HelpCardsSection {
    var ngos: seq<Ngo>
    var loading: bool
    var error: Option<string>
    /** Toasts shown so far, oldest first. */
    var toasts: seq<Toast>
    /** Every navigation requested, oldest first. */
    var navigations: seq<Navigation>
    /** The browser store, shared with the other pages. */
    var store: Store

    constructor (store: Store)
      ensures this.store == store
      ensures ngos == [] && loading && error == None && toasts == [] && navigations == []
    {
      this.store := store;
      ngos := [];
      loading := true;
      error := None;
      toasts := [];
      navigations := [];
    }

    /** The view the section renders in its current state. */
    function CurrentView(): View
      reads this
    {
      ViewOf(loading, error, ngos)
    }

    /** `fetchNgos` once the request settles. A failure leaves the list as
      it was; `loading` is cleared on every outcome. */
    method CompleteFetch(reply: Reply<Option<seq<Ngo>>>)
      modifies this
      ensures !loading && CurrentView() != LoadingView
      ensures reply.Ok? ==> ngos == ListOf(reply.payload) && error == old(error) && toasts == old(toasts)
      ensures !reply.Ok? ==> (ngos == old(ngos) && error == Some(FetchError(reply))
                              && toasts == old(toasts) + [ErrorToast(FetchErrorPrefix + FetchError(reply))])
      ensures navigations == old(navigations) && store == old(store)
    {
      if reply.Ok? {
        ngos := ListOf(reply.payload);
      } else {
        var m := FetchError(reply);
        error := Some(m);
        toasts := toasts + [ErrorToast(FetchErrorPrefix + m)];
      }
      loading := false;
    }

    /** `handleApplyClick`: reads the store, and records one navigation and
      the toast, if any. */
    method HandleApplyClick(ngo: Ngo)
      modifies this
      ensures var o := ApplyClick(store.entries, ngo);
        navigations == old(navigations) + [o.navigation]
        && toasts == old(toasts) + (if o.toast.Some? then [o.toast.value] else [])
      ensures ngos == old(ngos) && loading == old(loading) && error == old(error) && store == old(store)
    {
      var token := store.GetItem(TokenKey);
      if !Truthy(token) {
        toasts := toasts + [ErrorToast(LoginPromptMessage)];
        navigations := navigations + [Navigation(RegisterPage, Deferred(HelpFormPage, RegisterReasonMessage, ngo))];
        return;
      }
      navigations := navigations + [Navigation(HelpFormPage, Carrying(ngo))];
    }
  }
}
