/** The values the components exchange with the browser and the backend:
    selected files, responses, toasts, navigations and the persistent
    key/value store. */
module Platform {
  import opened Strings

  datatype Option<T> = None | Some(value: T)

  /** The keys of the forms' state objects: what an input's `name` selects
      in `handleChange`, and what an error is keyed under. */
  datatype Field =
    | FirstName | LastName | Email | PhoneNumber | Password | ConfirmPassword | Role
    | Address | ProfilePic | VerifyDocuments
    | Title | Description | Image | CreatedBy
    | NeedDescription | HelpType | Location

  /** A field mapped to its error message; no key means no error. */
  type Errors = map<Field, string>

  /** Messages that several forms use word for word. */
  const FirstNameRequired := "First name is required"
  const LastNameRequired := "Last name is required"
  const EmailRequired := "Email is required"
  const EmailInvalid := "Email is invalid"
  const PasswordRequired := "Password is required"

  /** An error map whose keys lie in `fields` is empty exactly when none of
      those fields is a key. */
  lemma EmptyIffNoFieldKey(e: Errors, fields: set<Field>)
    requires e.Keys <= fields
    ensures e == map[] <==> forall k :: k in fields ==> k !in e
  {
    if e != map[] {
      var k :| k in e;
      assert k in fields;
    }
  }

  /** A file picked in an `<input type="file">`: its name, declared MIME type
      and size in bytes. The content is never read. */
  datatype File = File(name: string, mimeType: string, size: nat)

  /** An NGO record as the list endpoint returns it. */
  datatype Ngo = Ngo(id: string, title: string, description: string, image: string)

  /** What one request to the backend comes back with: a 2xx response with its
      payload, a non-2xx response with the `message` of its body ("" when the
      body has none), or an exception thrown while sending or while reading
      the body, with that exception's `message`. */
  datatype Reply<T> = Ok(payload: T) | Rejected(message: string) | Thrown(message: string)

  /** `error.response?.data?.message || fallback` for a failed request made
      with axios: a rejected request carries the response body's message,
      an error thrown before any response has none. */
  function ResponseMessageOr<T>(reply: Reply<T>, fallback: string): (m: string)
    requires !reply.Ok?
    ensures fallback != "" ==> m != ""
    ensures reply.Rejected? && reply.message != "" ==> m == reply.message
    ensures reply.Thrown? || reply.message == "" ==> m == fallback
  {
    match reply
    case Rejected(msg) => OrElse(msg, fallback)
    case Thrown(_) => fallback
  }

  /** The message a form toasts after a failed request, in the pattern
      `throw new Error(data.message || rejectedFallback)` inside a `try`
      whose `catch` shows `error.message || caughtFallback`. A rejection
      is thrown with its own message or the first fallback, so when that
      fallback is not empty the second one is reached only by an error
      thrown elsewhere. */
  function ToastedError<T>(reply: Reply<T>, rejectedFallback: string, caughtFallback: string): (t: string)
    requires !reply.Ok?
    ensures reply.Rejected? && rejectedFallback != "" ==> t == OrElse(reply.message, rejectedFallback)
    ensures reply.Thrown? ==> t == OrElse(reply.message, caughtFallback)
    ensures rejectedFallback != "" && caughtFallback != "" ==> t != ""
  {
    match reply
    case Rejected(m) => OrElse(OrElse(m, rejectedFallback), caughtFallback)
    case Thrown(m) => OrElse(m, caughtFallback)
  }

  /** A toast notification, the only trace of a message emitted to the user. */
  datatype Toast = SuccessToast(text: string) | ErrorToast(text: string)

  /** The client-side routes the components navigate to: `/`, `/login`,
      `/register`, `/helpForm` and `/create-ngo?userId=<id>`. */
  datatype Route = Home | Login | RegisterPage | HelpFormPage | CreateNgo(userId: string)

  /** The `state` object passed along a navigation. `Deferred` is the intent
      carried across a redirect to registration: where to go afterwards, why,
      and the NGO that was selected. */
  datatype NavState = NoState | Deferred(from: Route, message: string, ngoData: Ngo) | Carrying(ngoData: Ngo)

  datatype Navigation = Navigation(to: Route, state: NavState)

  function Lookup(entries: map<string, string>, key: string): (v: Option<string>)
    ensures v.Some? <==> key in entries
    ensures v.Some? ==> v.value == entries[key]
  {
    if key in entries then Some(entries[key]) else None
  }

  /** Reading back a key just written gives the value written; every other
      key reads as before. */
  lemma LookupAfterWrite(entries: map<string, string>, key: string, value: string, other: string)
    ensures Lookup(entries[key := value], key) == Some(value)
    ensures other != key ==> Lookup(entries[key := value], other) == Lookup(entries, other)
  {
  }

  /** JavaScript truthiness of a value read back from the store: present and
      not the empty string. */
  predicate Truthy(v: Option<string>) {
    v.Some? && v.value != ""
  }

  /** The keys the session is kept under. */
  const TokenKey := "token"
  const UserIdKey := "userId"
  const UserRoleKey := "userRole"
  const UserDataKey := "userData"

  /** The browser's `localStorage`: one store shared by every component and
      kept across sessions. */
  class Store {
    var entries: map<string, string>

    constructor (initial: map<string, string>)
      ensures entries == initial
    {
      entries := initial;
    }

    /** `localStorage.getItem(key)`: null when the key was never written. */
    method GetItem(key: string) returns (v: Option<string>)
      ensures v.Some? <==> key in entries
      ensures v.Some? ==> v.value == entries[key]
    {
      v := Lookup(entries, key);
    }

    /** `localStorage.setItem(key, value)` */
    method SetItem(key: string, value: string)
      modifies this
      ensures entries == old(entries)[key := value]
    {
      entries := entries[key := value];
    }
  }
}
