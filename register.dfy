/** The registration page, src/pages/Register.jsx: its password and email
    validators, the steps of `onSubmit` with the failures it tolerates and the
    ones that abort, and the error text it shows. */
module Register {
  import opened Common
  import Browser
  import Api
  import Session
  import opened Flows

  /** The special characters of the password pattern's third lookahead. */
  const PasswordSpecials := "!@#$%^&*()_+{}[]:;<>,.?~\\/-"

  predicate IsPasswordSpecial(c: char)
  {
    c in PasswordSpecials
  }

  /** No character of `s` is a line terminator, so `.` matches each of them. */
  predicate NoLineTerminator(s: string)
  {
    forall i :: 0 <= i < |s| ==> !IsLineTerminator(s[i])
  }

  /** The lookahead `(?=.*C)` at the start of `s`: a run of `.` followed by a character of `C`. */
  predicate LookaheadFinds(s: string, cls: char -> bool)
  {
    exists k :: 0 <= k < |s| && NoLineTerminator(s[..k]) && cls(s[k])
  }

  /** `^(?=.*[A-Z])(?=.*\d)(?=.*[!@#$%^&*()_+{}\[\]:;<>,.?~\\/-]).{6,}$`, matched as a whole. */
  predicate PasswordPattern(s: string)
  {
    && LookaheadFinds(s, IsUpper)
    && LookaheadFinds(s, IsDigit)
    && LookaheadFinds(s, IsPasswordSpecial)
    && |s| >= 6 && NoLineTerminator(s)
  }

  /** The password rule in plain words. */
  predicate PasswordRule(s: string)
  {
    && |s| >= 6
    && NoLineTerminator(s)
    && (exists i :: 0 <= i < |s| && IsUpper(s[i]))
    && (exists i :: 0 <= i < |s| && IsDigit(s[i]))
    && (exists i :: 0 <= i < |s| && IsPasswordSpecial(s[i]))
  }

  lemma LookaheadOnSingleLine(s: string, cls: char -> bool)
    requires NoLineTerminator(s)
    ensures LookaheadFinds(s, cls) <==> exists i :: 0 <= i < |s| && cls(s[i])
  {
    if i :| 0 <= i < |s| && cls(s[i]) {
      assert NoLineTerminator(s[..i]);
    }
  }

  /** The password pattern accepts exactly the passwords of at least 6
      characters, none a line terminator, with an upper-case letter, a digit
      and one of the special characters. */
  lemma PasswordPatternMeaning(s: string)
    ensures PasswordPattern(s) <==> PasswordRule(s)
  {
    if NoLineTerminator(s) {
      LookaheadOnSingleLine(s, IsUpper);
      LookaheadOnSingleLine(s, IsDigit);
      LookaheadOnSingleLine(s, IsPasswordSpecial);
    }
  }

  predicate IsLocalChar(c: char) { IsAlnum(c) || c == '_' || c == '.' || c == '+' || c == '-' }
  predicate IsLabelChar(c: char) { IsAlnum(c) || c == '-' }
  predicate IsTailChar(c: char) { IsAlnum(c) || c == '-' || c == '.' }

  /** `s` splits as `[a-zA-Z0-9_.+-]+ @ [a-zA-Z0-9-]+ \. [a-zA-Z0-9-.]+` with the
      '@' at `at` and the '.' at `dot`. */
  predicate EmailSplitAt(s: string, at: int, dot: int)
  {
    && 0 < at && at + 1 < dot && dot + 1 < |s|
    && s[at] == '@' && s[dot] == '.'
    && AllIn(s[..at], IsLocalChar)
    && AllIn(s[at + 1..dot], IsLabelChar)
    && AllIn(s[dot + 1..], IsTailChar)
  }

  /** `^[a-zA-Z0-9_.+-]+@[a-zA-Z0-9-]+\.[a-zA-Z0-9-.]+$` matches `s`. */
  predicate EmailPattern(s: string)
  {
    exists at, dot | 0 <= at < |s| && 0 <= dot < |s| :: EmailSplitAt(s, at, dot)
  }

  /** The only split worth trying: at the first '@' and at the first '.' after it. */
  predicate EmailCheck(s: string)
  {
    match IndexOf(s, '@')
    case None => false
    case Some(at) =>
      match IndexOf(s[at + 1..], '.')
      case None => false
      case Some(e) => EmailSplitAt(s, at, at + 1 + e)
  }

  /** The registration email pattern has at most one way to match: the local
      part cannot hold '@' and the domain label cannot hold '.', so a match
      splits at the first '@' and at the first '.' after it. */
  lemma EmailPatternMeaning(s: string)
    ensures EmailPattern(s) <==> EmailCheck(s)
  {
    if EmailPattern(s) {
      var at, dot :| 0 <= at < |s| && 0 <= dot < |s| && EmailSplitAt(s, at, dot);
      SplitIsAtFirstAt(s, at, dot);
      SplitIsAtFirstDot(s, at, dot);
    }
  }

  lemma SplitIsAtFirstAt(s: string, at: int, dot: int)
    requires EmailSplitAt(s, at, dot)
    ensures IndexOf(s, '@') == Some(at)
  {
    assert s[at] in s;
  }

  lemma SplitIsAtFirstDot(s: string, at: int, dot: int)
    requires EmailSplitAt(s, at, dot)
    ensures IndexOf(s[at + 1..], '.') == Some(dot - at - 1)
  {
    var rest := s[at + 1..];
    assert rest[dot - at - 1] == '.';
    assert rest[dot - at - 1] in rest;
    assert rest[..dot - at - 1] == s[at + 1..dot];
  }

  /** Registration accepts an address that sign-in rejects: a one-letter top-level domain. */
  lemma OneLetterTopLevelDomainAccepted()
    ensures EmailPattern("a@b.c")
  {
    assert EmailSplitAt("a@b.c", 1, 3);
  }

  /** Message of the error thrown when the provider returns no user. */
  const MissingUserMessage := "Something went wrong while creating user."

  /** Message of the error thrown when no ID token is obtained. */
  const MissingIdTokenMessage := "Failed to get Firebase ID token"

  /** The error toast's text for a thrown error's message ("" when it has none). */
  function ErrorText(message: string): string
  {
    var msg := if message == "" then "Registration failed." else message;
    if Contains(msg, "email-already-in-use") then "Email already in use."
    else if Contains(msg, "weak-password") then "Password should be at least 6 characters."
    else msg
  }

  /** The two known provider errors get a short text, checked in this order;
      any other message is shown as it is, and a missing one as
      "Registration failed.". */
  lemma ErrorTextMeaning(message: string)
    ensures var msg := if message == "" then "Registration failed." else message;
      && (Contains(msg, "email-already-in-use") ==> ErrorText(message) == "Email already in use.")
      && (!Contains(msg, "email-already-in-use") && Contains(msg, "weak-password") ==>
            ErrorText(message) == "Password should be at least 6 characters.")
      && (!Contains(msg, "email-already-in-use") && !Contains(msg, "weak-password") ==> ErrorText(message) == msg)
    ensures ErrorText(message) != ""
  {
  }

  /** A duplicate-account error reported by the provider shows the short message. */
  lemma DuplicateAccountText(prefix: string, suffix: string)
    ensures ErrorText(prefix + "email-already-in-use" + suffix) == "Email already in use."
  {
    var msg := prefix + "email-already-in-use" + suffix;
    assert OccursAt(msg, "email-already-in-use", |prefix|);
  }

  /** The submitted form values. */
  datatype RegisterForm = RegisterForm(name: string, email: string, password: string, image: Option<string>)

  /** The steps that decide whether registration reaches its end: the account
      is created with a user, the profile is updated and a non-empty ID token
      is obtained. */
  predicate Proceeds(created: Result<Option<Session.ProviderUser>>, profileUpdate: Result<Session.ProviderUser>, idToken: Result<string>)
  {
    created.Ok? && created.value.Some? && profileUpdate.Ok? && idToken.Ok? && idToken.value != ""
  }

  /** The message of the error that aborts registration. */
  function AbortMessage(created: Result<Option<Session.ProviderUser>>, profileUpdate: Result<Session.ProviderUser>, idToken: Result<string>): string
  {
    if created.Err? then created.message
    else if created.value.None? then MissingUserMessage
    else if profileUpdate.Err? then profileUpdate.message
    else if idToken.Err? then idToken.message
    else MissingIdTokenMessage
  }

  const BackendFailureText := "User saved failed to backend!"

  /** The calls up to the ID-token request once the provider profile is
      updated: the backend registration, built from the provider user as the
      update left it, and its failure toast when it fails. */
  function Registered(form: RegisterForm, updated: Session.ProviderUser, backendRegister: Outcome): seq<Call>
  {
    [CreateAccount(form.email, form.password), UpdateProviderProfile(form.name, OrElse(form.image, "")),
     PostRegister(RegisterInfo(updated.displayName, updated.email, updated.photoURL, updated.uid))]
    + (if backendRegister.Failed? then [Notify(ToastError(BackendFailureText))] else [])
    + [GetIdToken]
  }

  /** A profile field as the identity provider keeps it: an empty value is
      stored as null. */
  function StoredProfileField(value: string): (stored: Option<string>)
    ensures stored.None? <==> value == ""
    ensures stored.Some? ==> stored.value == value
  {
    if value == "" then None else Some(value)
  }

  /** The provider user after `updateProfile` with the form's name and photo,
      as the identity provider applies it: the name and photo replaced, an
      empty one becoming null, and nothing else changed. */
  predicate ProfileApplied(form: RegisterForm, created: Session.ProviderUser, updated: Session.ProviderUser)
  {
    updated == created.(displayName := StoredProfileField(form.name),
                        photoURL := StoredProfileField(OrElse(form.image, "")))
  }

  /** The calls after a non-empty ID token: the exchange, its failure toast
      when it fails, then success, navigation and reload. */
  function Completion(idToken: string, exchange: Result<string>, locationState: Option<string>): seq<Call>
  {
    [ExchangeToken(Api.Bearer(idToken))]
    + (if exchange.Ok? then [] else [Notify(ToastError(ExchangeFailureText))])
    + [Notify(ToastSuccess("Registration successful!")), Navigate(RedirectTarget(locationState)), Reload]
  }

  /** What `onSubmit` does, in order, for the given outcomes of account
      creation, the profile update, the backend registration, the ID token and
      the exchange. */
  function Trace(form: RegisterForm, locationState: Option<string>,
                 created: Result<Option<Session.ProviderUser>>, profileUpdate: Result<Session.ProviderUser>,
                 backendRegister: Outcome, idToken: Result<string>, exchange: Result<string>): (calls: seq<Call>)
    ensures |calls| >= 2 && calls[0] == CreateAccount(form.email, form.password)
  {
    if created.Err? then [CreateAccount(form.email, form.password), Notify(ToastError(ErrorText(created.message)))]
    else if created.value.None? then [CreateAccount(form.email, form.password), Notify(ToastError(ErrorText(MissingUserMessage)))]
    else if profileUpdate.Err? then
      [CreateAccount(form.email, form.password), UpdateProviderProfile(form.name, OrElse(form.image, "")),
       Notify(ToastError(ErrorText(profileUpdate.message)))]
    else
      // the registration is built from the provider user as the update left it
      var registered := Registered(form, profileUpdate.value, backendRegister);
      if idToken.Err? then registered + [Notify(ToastError(ErrorText(idToken.message)))]
      else if idToken.value == "" then registered + [Notify(ToastError(ErrorText(MissingIdTokenMessage)))]
      else registered + Completion(idToken.value, exchange, locationState)
  }

  /** The storage after `onSubmit`: the exchanged token is stored exactly when
      registration proceeds and the exchange succeeds; no other key changes. */
  function ItemsAfter(items: map<string, string>, created: Result<Option<Session.ProviderUser>>,
                      profileUpdate: Result<Session.ProviderUser>, idToken: Result<string>, exchange: Result<string>): map<string, string>
  {
    if Proceeds(created, profileUpdate, idToken) && exchange.Ok? then items[Browser.TokenKey := exchange.value] else items
  }

  /** Only the token key can change, and it holds the exchanged token exactly
      when registration proceeds and the exchange succeeds. */
  lemma OnlyTheTokenChanges(items: map<string, string>, created: Result<Option<Session.ProviderUser>>,
                            profileUpdate: Result<Session.ProviderUser>, idToken: Result<string>, exchange: Result<string>)
    ensures Browser.TokenOf(ItemsAfter(items, created, profileUpdate, idToken, exchange)) ==
      if Proceeds(created, profileUpdate, idToken) && exchange.Ok? then Some(exchange.value) else Browser.TokenOf(items)
    ensures ItemsAfter(items, created, profileUpdate, idToken, exchange) - {Browser.TokenKey} == items - {Browser.TokenKey}
  {
  }

  /** When the account, the profile update and the ID token succeed,
      registration ends by navigating to the redirect target and reloading,
      whether or not the backend registration and the exchange failed. */
  lemma ProceedsToRedirect(form: RegisterForm, locationState: Option<string>,
                           created: Result<Option<Session.ProviderUser>>, profileUpdate: Result<Session.ProviderUser>,
                           backendRegister: Outcome, idToken: Result<string>, exchange: Result<string>)
    requires Proceeds(created, profileUpdate, idToken)
    ensures var calls := Trace(form, locationState, created, profileUpdate, backendRegister, idToken, exchange);
      calls[|calls| - 2..] == [Navigate(RedirectTarget(locationState)), Reload]
  {
  }

  /** Otherwise registration stops with the mapped error, before any exchange,
      navigation or reload. */
  lemma AbortStopsEarly(form: RegisterForm, locationState: Option<string>,
                        created: Result<Option<Session.ProviderUser>>, profileUpdate: Result<Session.ProviderUser>,
                        backendRegister: Outcome, idToken: Result<string>, exchange: Result<string>)
    requires !Proceeds(created, profileUpdate, idToken)
    ensures var calls := Trace(form, locationState, created, profileUpdate, backendRegister, idToken, exchange);
      EndsWithError(calls, ErrorText(AbortMessage(created, profileUpdate, idToken))) && StopsEarly(calls)
  {
  }

  /** Once the provider profile is updated, the backend registration is
      attempted with the provider user's fields as the update left them. */
  lemma RegistrationPostedAfterProfileUpdate(form: RegisterForm, locationState: Option<string>,
                                        created: Result<Option<Session.ProviderUser>>, profileUpdate: Result<Session.ProviderUser>,
                                        backendRegister: Outcome, idToken: Result<string>, exchange: Result<string>)
    requires created.Ok? && created.value.Some? && profileUpdate.Ok?
    ensures var updated := profileUpdate.value;
      PostRegister(RegisterInfo(updated.displayName, updated.email, updated.photoURL, updated.uid))
        in Trace(form, locationState, created, profileUpdate, backendRegister, idToken, exchange)
  {
    var calls := Trace(form, locationState, created, profileUpdate, backendRegister, idToken, exchange);
    assert calls[2].PostRegister?;
  }

  /** When the provider applies the update as documented, the registration
      carries the typed name and photo, with null for a missing image, and the
      created account's email and uid. */
  lemma RegistrationCarriesTheForm(form: RegisterForm, locationState: Option<string>,
                                   created: Result<Option<Session.ProviderUser>>, profileUpdate: Result<Session.ProviderUser>,
                                   backendRegister: Outcome, idToken: Result<string>, exchange: Result<string>)
    requires created.Ok? && created.value.Some? && profileUpdate.Ok?
    requires ProfileApplied(form, created.value.value, profileUpdate.value)
    ensures var user := created.value.value;
      PostRegister(RegisterInfo(StoredProfileField(form.name), user.email,
                                if Truthy(form.image) then form.image else None, user.uid))
        in Trace(form, locationState, created, profileUpdate, backendRegister, idToken, exchange)
  {
    RegistrationPostedAfterProfileUpdate(form, locationState, created, profileUpdate, backendRegister, idToken, exchange);
  }

  /** A provider result without a user stops everything at once. */
  lemma MissingUserStopsAtOnce(form: RegisterForm, locationState: Option<string>,
                               created: Result<Option<Session.ProviderUser>>, profileUpdate: Result<Session.ProviderUser>,
                               backendRegister: Outcome, idToken: Result<string>, exchange: Result<string>)
    requires created.Ok? && created.value.None?
    ensures Trace(form, locationState, created, profileUpdate, backendRegister, idToken, exchange)
            == [CreateAccount(form.email, form.password), Notify(ToastError(ErrorText(MissingUserMessage)))]
  {
  }

  /** What `onSubmit` calls, in order. Each awaited call's outcome is a
      parameter; `profileUpdate` is the provider user as `updateProfile`
      leaves it, or the error it threw. The first failure ends the sequence
      with its error toast. */
  method Steps(form: RegisterForm, locationState: Option<string>,
               created: Result<Option<Session.ProviderUser>>, profileUpdate: Result<Session.ProviderUser>,
               backendRegister: Outcome, idToken: Result<string>, exchange: Result<string>)
    returns (calls: seq<Call>)
    ensures calls == Trace(form, locationState, created, profileUpdate, backendRegister, idToken, exchange)
  {
    if created.Err? {
      calls := [CreateAccount(form.email, form.password), Notify(ToastError(ErrorText(created.message)))];
      return;
    }
    if created.value.None? {
      calls := [CreateAccount(form.email, form.password), Notify(ToastError(ErrorText(MissingUserMessage)))];
      return;
    }
    calls := [CreateAccount(form.email, form.password), UpdateProviderProfile(form.name, OrElse(form.image, ""))];
    if profileUpdate.Err? {
      calls := calls + [Notify(ToastError(ErrorText(profileUpdate.message)))];
      return;
    }
    calls := Registered(form, profileUpdate.value, backendRegister);
    if idToken.Err? {
      calls := calls + [Notify(ToastError(ErrorText(idToken.message)))];
    } else if idToken.value == "" {
      calls := calls + [Notify(ToastError(ErrorText(MissingIdTokenMessage)))];
    } else {
      calls := calls + Completion(idToken.value, exchange, locationState);
    }
  }

  /** `onSubmit`: the calls above, and the exchanged token stored on the path
      that reaches a successful exchange. */
  method OnSubmit(form: RegisterForm, storage: Browser.LocalStorage, locationState: Option<string>,
                  created: Result<Option<Session.ProviderUser>>, profileUpdate: Result<Session.ProviderUser>,
                  backendRegister: Outcome, idToken: Result<string>, exchange: Result<string>)
    returns (calls: seq<Call>)
    modifies storage
    ensures calls == Trace(form, locationState, created, profileUpdate, backendRegister, idToken, exchange)
    ensures storage.items == ItemsAfter(old(storage.items), created, profileUpdate, idToken, exchange)
  {
    calls := Steps(form, locationState, created, profileUpdate, backendRegister, idToken, exchange);
    if Proceeds(created, profileUpdate, idToken) && exchange.Ok? {
      storage.SetItem(Browser.TokenKey, exchange.value);
    }
  }
}
