# lande_fyp front end: forms, gates and carousel

This project models the client-side logic of the React front end of the
lande_fyp help platform. The front end connects people who need help with
NGOs that offer it. The model covers:

- **Help-creator profile wizard** (`CreatorProfile`). It has two steps:
  - step 1: names, email, phone and password;
  - step 2: address, profile picture and verification document.
  The whole record is posted as one multipart request. On success the
  wizard navigates to `/create-ngo` with the new profile's id in the
  `userId` query parameter, which the NGO form reads. The app's route table
  mounts neither profile component, so this hand-over is a property of the
  two components' code, holding if the NGO form is mounted at that path.
- **NGO profile form** (`NgoProfile`): a title, a description, one image,
  and the creator id taken from the query string.
- **Registration** (`Registration`) and **sign-in** (`SignIn`): field
  validation, the JSON body, and the toasts after a reply. A successful
  login writes the session to the browser's `localStorage`.
- **Help-request form** (`HelpRequest`):
  - the page sends a visitor without a stored user id to the login page;
  - a supporting document must pass a MIME-type list and a 5 MiB bound;
  - the submit checks stop at the first failure.
- **NGO list** (`HelpCards`):
  - the list is fetched once and rendered as loading, error, empty or cards;
  - the "Apply" gate sends a visitor without a token to registration, and a
    signed-in visitor straight to the help form.
- **Hero carousel** (`HeroCarousel`): slide-index arithmetic with wrap-around
  for the timer, the indicator dots and the two arrows.

Modules:

- `Strings` models the JavaScript string operations the handlers use, with
  their own semantics:
  - `trim` and the `\s` class share one whitespace set;
  - `lastIndexOf` gives -1 when the character is missing;
  - `substring` clamps a negative start;
  - `length` counts UTF-16 code units;
  - `||` treats the empty string as falsy.
- `EmailRules` states the two email regular expressions as predicates.
- `ImageFiles` holds the extension whitelist that both profile forms share.
- `Platform` holds the shared values:
  - files, the three outcomes of a request (a 2xx reply, a non-2xx reply, or
    a thrown error), toasts, routes and navigation state;
  - the `localStorage` store, as a class.
- `SessionFlow` relates the session a login writes to the two pages that
  guard on it.

Each component whose handlers update React state is a class. Each `useState`
is a field, and each handler is a method that states the component's whole
new state. Each validator is a function into an error map keyed by field. It
is specified by lemmas that state which field is in error, and when the form
passes, in terms of reference predicates:

- `HasText` for "non-empty after trimming";
- `LooseEmail` and `StrictEmail` for the two regular expressions;
- `EndsWithFolded` for the extension whitelist.

An asynchronous submit is split at its `await`:

- `BeginSubmit` validates, sets the busy flag and records the request it
  sends;
- `CompleteSubmit(reply)` applies the reply and clears the flag.

The server's reply and the store's contents are parameters. The
delayed redirects (`setTimeout`) are taken as immediate.

Two facts about the code are worth knowing before the table:

- The two email expressions are not equivalent. The profile wizard's
  `^\S+@\S+\.\S+$` accepts `a@b@c.d`. Registration and sign-in use
  `^[^\s@]+@[^\s@]+\.[^\s@]+$`, which refuses it
  (`EmailRules.SecondAtSeparatesRules`).
- The verification-document input offers PDF files: its `accept` attribute
  lists `.pdf` (src/components/CreatorProfile.jsx:314) and its label reads
  "PNG, JPG, GIF, PDF up to 5MB" (:326). Its handler applies the image
  whitelist, though, so a PDF is refused (`ImageFiles.PdfIsRefused`).

## Model

| member | source | states |
|---|---|---|
| Strings.TrimStartSpec | src/components/CreatorProfile.jsx:46 | trimming the front keeps a suffix, removes only white space, and leaves a string that starts with a non-space or is empty |
| Strings.TrimEndSpec | src/components/CreatorProfile.jsx:46 | trimming the back keeps a prefix, removes only white space, and leaves a string that ends with a non-space or is empty |
| Strings.BlankIffNoText | src/components/CreatorProfile.jsx:46-53 | `!s.trim()` holds exactly when `s` has no character outside the whitespace set |
| Strings.ToLower | src/components/CreatorProfile.jsx:34 | lower-casing keeps the length and folds each character on its own |
| Strings.LastIndexOf | src/components/CreatorProfile.jsx:34 | the result is -1 or a position holding the character, and no later position holds it |
| Strings.Utf16Length | src/components/Register.jsx:42 | `length` lies between the number of code points and twice that, and is 0 only for the empty string |
| Strings.OrElse | src/components/Register.jsx:103 | `m \|\| fallback` is `m` when `m` is not empty, else the fallback, and is non-empty when the fallback is |
| EmailRules.LooseEmailHasNoSpace | src/components/CreatorProfile.jsx:50 | a string matching `^\S+@\S+\.\S+$` has no white space anywhere |
| EmailRules.LooseEmailHasText | src/components/CreatorProfile.jsx:48-52 | a matching email is never blank, so the "required" and "invalid" messages never compete |
| EmailRules.StrictImpliesLoose | src/components/Register.jsx:37 | every email registration accepts, the profile wizard accepts too |
| EmailRules.StrictEmailSingleAt | src/components/Register.jsx:37 | an email registration accepts has exactly one `@` |
| EmailRules.SecondAtSeparatesRules | src/components/Register.jsx:37 | `a@b@c.d` passes the wizard's rule and fails registration's: the two rules differ |
| EmailRules.PaddedEmailFails | src/components/CreatorProfile.jsx:48-52 | the handler's shape test sees the value untrimmed, so a leading or trailing space fails both rules |
| EmailRules.WellFormedAddressPassesBoth | src/components/Signin.jsx:31 | an ordinary address passes both rules |
| EmailRules.NotAnEmailFailsBoth | src/components/Signin.jsx:31 | a string without `@` fails both rules (instance) |
| EmailRules.WithoutAtFailsBoth | src/components/Signin.jsx:31 | no string without `@` passes either rule |
| Platform.EmptyIffNoFieldKey | src/components/CreatorProfile.jsx:57 | `Object.keys(newErrors).length === 0` holds exactly when no field of the form has an error |
| Platform.ResponseMessageOr | src/components/CreatorProfile.jsx:113 | a non-2xx reply with a message shows that message; a reply without one, or an error thrown before any reply, shows the fallback; never empty when the fallback is not |
| Platform.ToastedError | src/components/Register.jsx:102-106 | a rejection is rethrown with its message or the first fallback, and a thrown error toasts its message or the second fallback; never empty when both fallbacks are not |
| Platform.Store.SetItem | src/components/Signin.jsx:65 | writes one key, leaving the others as they were |
| Platform.LookupAfterWrite | src/components/Signin.jsx:65-68 | reading back a key just written gives the value written, and every other key reads as before |
| ImageFiles.ExtensionOf | src/components/CreatorProfile.jsx:34 | the lower-cased tail from the last `.`, or the whole lower-cased name when there is no `.` |
| ImageFiles.ExtensionOfIff | src/components/CreatorProfile.jsx:34-35 | for a dot-suffix, the computed extension equals it exactly when the name ends with it, case aside |
| ImageFiles.AllowedImageNameIff | src/components/CreatorProfile.jsx:23-35 | a file is accepted exactly when its name ends with `.png`, `.jpg`, `.gif` or `.jpeg` in any case |
| ImageFiles.PdfIsRefused | src/components/CreatorProfile.jsx:314 | a name ending with `.pdf` is refused, though the document input offers `.pdf` |
| ImageFiles.PngExample | src/components/CreatorProfile.jsx:34-35 | `photo.png` is accepted |
| ImageFiles.UpperCaseExample | src/components/CreatorProfile.jsx:34-35 | `Scan.JPEG` is accepted: the comparison folds case |
| ImageFiles.ExeIsRefused | src/components/CreatorProfile.jsx:34-35 | `doc.exe` is refused |
| ImageFiles.DoubleExtensionIsRefused | src/components/CreatorProfile.jsx:34-35 | `photo.png.exe` is refused: only the part after the last `.` counts |
| ImageFiles.NoDotIsRefused | src/components/CreatorProfile.jsx:34-35 | a name without a `.` is always refused |
| CreatorProfile.WithFile | src/components/CreatorProfile.jsx:40 | an accepted file fills its own slot and nothing else |
| CreatorProfile.FillStep1 | src/components/CreatorProfile.jsx:44-58 | step 1 reports one error per failed test, under that field, with that test's message; the email gets "required" when blank, else "invalid" when malformed |
| CreatorProfile.Step1FieldErrors | src/components/CreatorProfile.jsx:44-58 | each step-1 field is in error exactly when its rule fails; a password of spaces passes |
| CreatorProfile.Step1ValidIff | src/components/CreatorProfile.jsx:44-58 | step 1 passes exactly when names and phone have text, the email matches the loose rule and the password is not empty |
| CreatorProfile.FillStep2 | src/components/CreatorProfile.jsx:60-68 | step 2 reports exactly the blank address and the missing files, each with its own "… is required" message |
| CreatorProfile.Step2FieldErrors | src/components/CreatorProfile.jsx:60-68 | each step-2 field is in error exactly when its rule fails |
| CreatorProfile.Step2ValidIff | src/components/CreatorProfile.jsx:60-68 | step 2 passes exactly when the address has text and both files are present |
| CreatorProfile.Step2IgnoresStep1 | src/components/CreatorProfile.jsx:60-68 | step 2's verdict depends on the address and the two files only |
| CreatorProfile.EditIsLocal | src/components/CreatorProfile.jsx:25-28 | typing into one input leaves every other field's verdict, in step 1 and in step 2, as it was |
| CreatorProfile.ProfileWizard.constructor | src/components/CreatorProfile.jsx:6-21 | the wizard starts on step 1 with an empty record, no errors, no messages, nothing sent |
| CreatorProfile.ProfileWizard.HandleChange | src/components/CreatorProfile.jsx:25-28 | one text field of the step on screen (step 1: names, email, phone, password; step 2: the address) takes the typed value; all else is unchanged, and on step 2 the record still passes step 1 |
| CreatorProfile.ProfileWizard.HandleFileChange | src/components/CreatorProfile.jsx:30-42 | no file changes nothing; a refused name sets the image error under that input and keeps the slot; an accepted file fills the slot and sets that error to "" |
| CreatorProfile.ProfileWizard.ValidateStep1 | src/components/CreatorProfile.jsx:44-58 | replaces the whole error map with step 1's, and answers whether it is empty |
| CreatorProfile.ProfileWizard.ValidateStep2 | src/components/CreatorProfile.jsx:60-68 | replaces the whole error map with step 2's, and answers whether it is empty |
| CreatorProfile.ProfileWizard.HandleNext | src/components/CreatorProfile.jsx:70-74 | moves to step 2 exactly when step 1 passes; the step stays 1 or 2 |
| CreatorProfile.ProfileWizard.Back | src/components/CreatorProfile.jsx:336 | returns to step 1 without validating or touching the errors |
| CreatorProfile.ProfileWizard.BeginSubmit | src/components/CreatorProfile.jsx:76-93 | sends the record, clears both messages and sets `uploading` exactly when step 2 passes, and a record sent passes step 1 as well; otherwise only the errors change |
| CreatorProfile.ProfileWizard.CompleteSubmit | src/components/CreatorProfile.jsx:95-116 | success navigates to `/create-ngo?userId=<id>` with the success message; failure records the server's message or the fallback; `uploading` is cleared either way |
| NgoProfile.WithQuery | src/components/CreatorProfile2.jsx:24-30 | a truthy `userId` becomes `createdBy`; a missing or empty one leaves the form as it was |
| NgoProfile.FillForm | src/components/CreatorProfile2.jsx:51-60 | one error per failed test, under that field, with that test's message ("Title is required", "Description is required", "Image is required", "User ID is missing") |
| NgoProfile.FormFieldErrors | src/components/CreatorProfile2.jsx:51-60 | each field is in error exactly when its rule fails |
| NgoProfile.FormValidIff | src/components/CreatorProfile2.jsx:51-60 | the form passes exactly when title and description have text, an image is present and the creator id is not empty |
| NgoProfile.EditIsLocal | src/components/CreatorProfile2.jsx:32-35 | typing into the title or the description leaves every other field's verdict as it was |
| NgoProfile.MissingUserIdBlocks | src/components/CreatorProfile2.jsx:24-30 | opened with a missing or empty `userId` parameter, the form keeps no creator and can never be submitted |
| NgoProfile.RedirectCarriesCreator | src/components/CreatorProfile2.jsx:24-30 | a `/create-ngo` location built with a non-empty id, as the wizard's redirect builds it, hands that id to the form and leaves no creator error |
| NgoProfile.NgoProfileForm.constructor | src/components/CreatorProfile2.jsx:9-19 | empty form, no errors, not uploading, no messages |
| NgoProfile.NgoProfileForm.ApplyQuery | src/components/CreatorProfile2.jsx:24-30 | the form becomes the one the query parameter gives; all else is unchanged |
| NgoProfile.NgoProfileForm.HandleChange | src/components/CreatorProfile2.jsx:32-35 | one text field takes the typed value; all else is unchanged |
| NgoProfile.NgoProfileForm.HandleFileChange | src/components/CreatorProfile2.jsx:37-49 | no file changes nothing; a refused name sets the image error; an accepted file becomes the image and sets the image error to "" |
| NgoProfile.NgoProfileForm.ChangeImage | src/components/CreatorProfile2.jsx:175 | "Change Image" drops the image and nothing else |
| NgoProfile.NgoProfileForm.ValidateForm | src/components/CreatorProfile2.jsx:51-60 | replaces the whole error map, and answers whether it is empty |
| NgoProfile.NgoProfileForm.BeginSubmit | src/components/CreatorProfile2.jsx:62-75 | sends the form, clears both messages and sets `uploading` exactly when validation passes |
| NgoProfile.NgoProfileForm.CompleteSubmit | src/components/CreatorProfile2.jsx:77-95 | success sets the success message and goes home; failure records the server's message or the fallback; `uploading` is cleared either way |
| Registration.FillRegister | src/components/Register.jsx:30-51 | one error per failed test, with that test's message; email and password get at most one message each, "required" before the shape or length message |
| Registration.RegisterFieldErrors | src/components/Register.jsx:30-51 | each field is in error exactly when its rule fails; the password length counts UTF-16 code units |
| Registration.RegisterValidIff | src/components/Register.jsx:30-51 | the form passes exactly when the names have text, the email matches the strict rule, the password has at least 6 code units and the confirmation matches; the role plays no part |
| Registration.EditIsLocal | src/components/Register.jsx:22-28 | editing one input leaves the other fields' verdicts as they were; editing the password may change the confirmation's verdict too, editing the confirmation only its own |
| Registration.RoleIsNotValidated | src/components/Register.jsx:30-51 | the role select never changes the error map |
| Registration.EmptyPasswordsReportOnce | src/components/Register.jsx:40-47 | two empty passwords give "Password is required" and no mismatch error |
| Registration.MismatchIndependentOfLength | src/components/Register.jsx:45-47 | a mismatch always gets the same message, whatever the password's own error |
| Registration.AstralPasswordLongEnough | src/components/Register.jsx:42 | three emoji count as six, enough for the length rule |
| Registration.BodyOmitsOnlyConfirmation | src/components/Register.jsx:66-72 | two forms give the same body exactly when they differ at most in the confirmation |
| Registration.FailureText | src/components/Register.jsx:102-106 | a rejection toasts its message or "Registration failed"; a thrown error its message or the generic one; never empty |
| Registration.RegistrationForm.constructor | src/components/Register.jsx:10-20 | the initial record has the `help_seeker` role, no errors, not submitting |
| Registration.RegistrationForm.HandleChange | src/components/Register.jsx:22-28 | one input takes the value; all else is unchanged |
| Registration.RegistrationForm.Validate | src/components/Register.jsx:30-51 | replaces the whole error map, and answers whether it is empty |
| Registration.RegistrationForm.BeginSubmit | src/components/Register.jsx:53-73 | posts the body and sets `isSubmitting` exactly when validation passes |
| Registration.RegistrationForm.CompleteSubmit | src/components/Register.jsx:75-117 | success toasts, resets to the initial record and goes to login; failure toasts the message and keeps the form; `isSubmitting` is cleared |
| SignIn.FillSignIn | src/components/Signin.jsx:26-40 | "Email is required" when blank, else "Email is invalid" when malformed; "Password is required" when empty |
| SignIn.SignInValidIff | src/components/Signin.jsx:26-40 | the form passes exactly when the email matches the strict rule and the password is not empty |
| SignIn.EditIsLocal | src/components/Signin.jsx:18-24 | editing the email leaves the password's verdict as it was, and the other way round |
| SignIn.SameEmailRuleAsRegistration | src/components/Signin.jsx:29-36 | sign-in judges an email as registration does, message included, and refuses a password only where registration does |
| SignIn.WithSession | src/components/Signin.jsx:63-68 | the store after a login holds the four session keys with the reply's values and every other key unchanged |
| SignIn.LoginOverwritesSession | src/components/Signin.jsx:63-68 | a second login leaves the store as if the first had not happened |
| SignIn.FailureText | src/components/Signin.jsx:90-94 | a rejection toasts its message or "Login failed"; a thrown error its message or the generic one; never empty |
| SignIn.SignInPage.constructor | src/components/Signin.jsx:10-16 | empty form, no errors, not submitting |
| SignIn.SignInPage.HandleChange | src/components/Signin.jsx:18-24 | one input takes the value; all else is unchanged |
| SignIn.SignInPage.Validate | src/components/Signin.jsx:26-40 | replaces the whole error map, and answers whether it is empty |
| SignIn.SignInPage.BeginSubmit | src/components/Signin.jsx:42-60 | posts the form and sets `isSubmitting` exactly when validation passes; the store is untouched |
| SignIn.SignInPage.SaveSession | src/components/Signin.jsx:65-68 | the four writes leave the store as `WithSession` describes |
| SignIn.SignInPage.CompleteSubmit | src/components/Signin.jsx:61-105 | success stores the session, toasts, empties the form and goes home; failure writes nothing and toasts the message; `isSubmitting` is cleared |
| HelpRequest.DocumentRefusal | src/components/HelpForm.jsx:61-83 | a document is accepted exactly when its type is PDF, JPEG or PNG and its size is at most 5 MiB; a wrong type is refused with "Invalid file type. Please upload PDF, JPEG, or PNG files only.", and only a file of an accepted type over the bound with "File size too large. Maximum allowed size is 5MB." |
| HelpRequest.SizeBoundInclusive | src/components/HelpForm.jsx:66-76 | exactly 5 MiB is accepted, one byte more is refused for its size |
| HelpRequest.TypeNotNameDecides | src/components/HelpForm.jsx:65-71 | the declared type decides, not the file name |
| HelpRequest.FirstFailureNoneIff | src/components/HelpForm.jsx:85-107 | a submission passes exactly when a user is known, the need and location have text and a help type is chosen |
| HelpRequest.FirstFailureOrder | src/components/HelpForm.jsx:85-107 | the handler toasts each message exactly when its check is the first to fail |
| HelpRequest.PayloadRoundTrip | src/components/HelpForm.jsx:112-120 | the multipart body loses nothing of the form or the user |
| HelpRequest.FailureText | src/components/HelpForm.jsx:129-148 | a rejection toasts its message or the fallback; a thrown error toasts its own message, possibly empty |
| HelpRequest.HelpRequestForm.constructor | src/components/HelpForm.jsx:8-15 | empty form, not submitting, no user yet |
| HelpRequest.HelpRequestForm.Mount | src/components/HelpForm.jsx:43-51 | a stored non-empty user id is kept; otherwise an error toast and a navigation to login |
| HelpRequest.HelpRequestForm.HandleChange | src/components/HelpForm.jsx:53-59 | one input takes the value; all else is unchanged |
| HelpRequest.HelpRequestForm.HandleFileChange | src/components/HelpForm.jsx:61-83 | a refused document is toasted and the earlier one kept; an accepted one replaces it |
| HelpRequest.HelpRequestForm.BeginSubmit | src/components/HelpForm.jsx:85-120 | posts the payload exactly when no check fails; otherwise toasts the first failure and sends nothing |
| HelpRequest.HelpRequestForm.CompleteSubmit | src/components/HelpForm.jsx:122-152 | success toasts, empties all fields and goes home; failure toasts and keeps the form; `isSubmitting` is cleared |
| HelpCards.CheckAuth | src/components/HelpCards.jsx:35-38 | signed in exactly when a non-empty token is stored |
| HelpCards.ApplyClickRoutes | src/components/HelpCards.jsx:39-64 | "Apply" reaches the help form exactly when a token is stored, else goes to registration with the deferred intent; the NGO travels along either way; only the detour is toasted |
| HelpCards.EmptyTokenIsSignedOut | src/components/HelpCards.jsx:35-38 | an empty stored token counts as signed out |
| HelpCards.ViewPriority | src/components/HelpCards.jsx:66-114 | loading hides everything, an error hides the list, the empty message shows exactly for an empty list, and the cards show exactly the NGOs held |
| HelpCards.FetchFailureView | src/components/HelpCards.jsx:19-27 | after a failed fetch the error view shows the recorded message, always for a non-2xx reply and for a thrown error exactly when its message is not empty; an empty message renders the list as if nothing had failed |
| HelpCards.ViewOfAsWritten | src/components/HelpCards.jsx:23-24 | with the list present the render is the corrected one |
| HelpCards.MissingListCrashesAsWritten | src/components/HelpCards.jsx:112 | as written, a reply without the list makes the render read `length` of `undefined`; with the correction the empty message shows |
| HelpCards.ListOfAgreesWhenPresent | src/components/HelpCards.jsx:23-24 | the correction changes nothing when the list is present, and a settled fetch never shows the loading view |
| HelpCards.HelpCardsSection.constructor | src/components/HelpCards.jsx:11-13 | no NGOs, loading, no error |
| HelpCards.HelpCardsSection.CompleteFetch | src/components/HelpCards.jsx:15-31 | success keeps the received list, or the empty list when the body has none (the correction under Findings); failure records and toasts the error and keeps the list; loading ends either way, and the loading view with it |
| HelpCards.HelpCardsSection.HandleApplyClick | src/components/HelpCards.jsx:39-64 | records exactly the toast and navigation `ApplyClick` gives for the current store |
| HeroCarousel.Next | src/components/HeroCarousal.jsx:38 | the next slide stays in range and equals `(i + 1) mod n` |
| HeroCarousel.Prev | src/components/HeroCarousal.jsx:104 | the previous slide stays in range and equals `(i + n - 1) mod n` |
| HeroCarousel.PrevThenNext | src/components/HeroCarousal.jsx:104-113 | the two arrows undo each other |
| HeroCarousel.Advance | src/components/HeroCarousal.jsx:35-41 | any number of timer ticks keeps the slide in range |
| HeroCarousel.AdvanceWithoutWrap | src/components/HeroCarousal.jsx:35-41 | ticks that do not pass the last slide add up |
| HeroCarousel.AdvanceAdds | src/components/HeroCarousal.jsx:35-41 | `a` ticks then `b` ticks are `a + b` ticks |
| HeroCarousel.FullRoundReturns | src/components/HeroCarousal.jsx:35-41 | a full round of ticks returns to the starting slide |
| HeroCarousel.Carousel.constructor | src/components/HeroCarousal.jsx:31 | starts on the first slide |
| HeroCarousel.Carousel.AutoAdvance | src/components/HeroCarousal.jsx:35-41 | one tick moves to the next slide, wrapping after the last |
| HeroCarousel.Carousel.GoToSlide | src/components/HeroCarousal.jsx:45-51 | shows the given index, taken as given |
| HeroCarousel.Carousel.Indicator | src/components/HeroCarousal.jsx:92-99 | a dot shows its own slide |
| HeroCarousel.Carousel.PrevArrow | src/components/HeroCarousal.jsx:104 | shows the previous slide, wrapping before the first |
| HeroCarousel.Carousel.NextArrow | src/components/HeroCarousal.jsx:113 | shows the next slide, wrapping after the last |
| SessionFlow.LoginOpensGates | src/components/Signin.jsx:65-68 | after a login, "Apply" reaches the help form exactly when the token is not empty, and the help-request form keeps the user exactly when the id is not empty |

## Left out

- Rendering is not modelled: markup, styling, animations, hover state and the fade durations.
- The fade is left out: the `transition` state, its `opacity` classes and the 500 ms and 5 s timers. Each timer callback is taken as running to completion at once, and the slide index is the only carousel state modelled. In the component, `goToSlide` computes its target from the slide shown at click time and sets it 500 ms later (src/components/HeroCarousal.jsx:45-51): two clicks on an arrow within 500 ms advance once, and a click during the timer's fade overwrites the timer's advance. In the model every click and tick applies in turn.
- The delayed redirects after a successful submit (`setTimeout` of 2 or 3 s) are taken as immediate.
- An update that arrives after the component unmounted is not modelled.
- The network is left out: URLs, headers, `FormData` encoding, JSON parsing and URL encoding of the query string.
  - A reply is a parameter, one of three outcomes: a 2xx reply with its payload, a non-2xx reply with its body's message, or a thrown error with its message.
  - A body that fails to parse is a thrown error.
  - A 2xx body without the expected fields is not modelled. For sign-in, a reply without `user` would make the session writes stop halfway; the model takes the payload as complete.
- The profile wizard's 2xx reply is reduced to the new profile's id.
- `console.error` logging is left out.
- Toast options (position, auto-close) are left out.
- `toLowerCase` folds ASCII A to Z only. No other character lower-cases to exactly one letter of a whitelisted extension, so which names are accepted is unaffected.
- The profile forms' "up to 5MB" labels are not enforced by their handlers. The model follows the handlers: no size limit there.
- The browser's own filtering through `accept` attributes is not modelled. A file picker can be switched to "all files", and the handlers are what decide.
- `HelpRequest.FirstFailureOrder` and `EmailRules.PaddedEmailFails` are about the handlers, not the page. The browser's own form checks are not modelled:
  - The need, the help-type select and the location carry `required` (src/components/HelpForm.jsx:211, :227, :250), and the select's first option has the value "" (:229). Inside the `<form>` (:196) the handler therefore never runs while one of them is empty. "Please select a help type" cannot appear, and the need and location messages appear only for input made entirely of white space.
  - The email inputs are `type="email"` (src/components/CreatorProfile.jsx:198, src/components/Register.jsx:187, src/components/Signin.jsx:141). A browser strips leading and trailing white space from such a value, so a padded email does not reach the handler from the page.
  - Inside the registration and sign-in `<form>`s (src/components/Register.jsx:149, src/components/Signin.jsx:137), a value the browser rejects as an email, such as `a@b@c.d` or `a b@c.d`, blocks submission before the handler's validation runs.
- The NGO list's modal state (`isOpen`, `isLogin`, `selectedCard`) is left out: it has no logic beyond its setters.
- What the registration page does with the deferred navigation state is not part of this model.
- `*.BeginSubmit` requires that no request is in flight. The submit button is disabled while one is, which also blocks submitting with the Enter key.
- `CreatorProfile.ProfileWizard.BeginSubmit` also requires step 2, because its button exists only there.
- `CreatorProfile.ProfileWizard.HandleChange` and `HandleFileChange` require an input of the step on screen, because the other step's inputs are not rendered (src/components/CreatorProfile.jsx:152).
- `NgoProfile.RedirectCarriesCreator` holds for the two components' code only. The app's route table (src/App.jsx:19-37) has no `/create-ngo` route and mounts neither profile component, so as shipped the wizard's redirect reaches no page.
- `HelpCards.HelpCardsSection.CompleteFetch` applies the correction under Findings: a 2xx reply without the list keeps the empty list. The code as written stores `undefined`, and the next render crashes (`HelpCards.ViewOfAsWritten`).
- `HeroCarousel.Carousel.GoToSlide` does not require an index in range: the component does not check it. Only `Indicator`, `PrevArrow` and `NextArrow` promise to stay in range.

## Findings

| source | as written | input that shows it | evidently intended | confidence | as-written member | corrected member |
|---|---|---|---|---|---|---|
| src/components/HelpCards.jsx:23-24 | the list is stored as `data?.data?.Ngo`, which is `undefined` when the reply lacks it, and the render then reads `ngos.length` (line 112) | a 2xx reply whose body is `{}` | keep the empty list and show "No assistance programs available" | not executed | HelpCards.MissingListCrashesAsWritten | HelpCards.ListOf |
