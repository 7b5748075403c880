/** How the session a login stores is read by the pages that guard on it:
    the "Apply" buttons of the NGO list look at the token, the help-request
    form at the user id. */
module SessionFlow {
  import opened Platform
  import SignIn
  import HelpCards

  /** After a login, "Apply" goes straight to the help form exactly when the
      server gave a non-empty token, and the help-request form keeps the
      user exactly when the id is non-empty; whatever was stored before no
      longer matters. */
  lemma LoginOpensGates(entries: map<string, string>, s: SignIn.Session, ngo: Ngo)
    ensures HelpCards.CheckAuth(SignIn.WithSession(entries, s)) <==> s.token != ""
    ensures HelpCards.ApplyClick(SignIn.WithSession(entries, s), ngo).navigation.to == HelpFormPage
      <==> s.token != ""
    ensures Truthy(Lookup(SignIn.WithSession(entries, s), UserIdKey)) <==> s.user.id != ""
    ensures Lookup(SignIn.WithSession(entries, s), UserIdKey) == Some(s.user.id)
  {
    HelpCards.ApplyClickRoutes(SignIn.WithSession(entries, s), ngo);
  }
}
