/** The sign-in page, src/pages/Login.jsx: its email validator and the steps
    of `onSubmit`. */
module Login {
  import opened Common
  import Browser
  import Api
  import Session
  import Register
  import opened Flows

  predicate IsLocalChar(c: char) { IsAlnum(c) || c == '.' || c == '_' || c == '%' || c == '+' || c == '-' }
  predicate IsDomainChar(c: char) { IsAlnum(c) || c == '.' || c == '-' }

  /** `s` splits as `[a-zA-Z0-9._%+-]+ @ [a-zA-Z0-9.-]+ \. [a-zA-Z]{2,}` with the
      '@' at `at` and the '.' at `dot`. */
  predicate EmailSplitAt(s: string, at: int, dot: int)
  {
    && 0 < at && at + 1 < dot && dot + 2 < |s|
    && s[at] == '@' && s[dot] == '.'
    && AllIn(s[..at], IsLocalChar)
    && AllIn(s[at + 1..dot], IsDomainChar)
    && AllIn(s[dot + 1..], IsLetter)
  }

  /** `^[a-zA-Z0-9._%+-]+@[a-zA-Z0-9.-]+\.[a-zA-Z]{2,}$` matches `s`. */
  predicate EmailPattern(s: string)
  {
    exists at, dot | 0 <= at < |s| && 0 <= dot < |s| :: EmailSplitAt(s, at, dot)
  }

  /** The only split worth trying: at the first '@' and at the last '.'. */
  predicate EmailCheck(s: string)
  {
    match IndexOf(s, '@')
    case None => false
    case Some(at) =>
      match LastIndexOf(s, '.')
      case None => false
      case Some(dot) => EmailSplitAt(s, at, dot)
  }

  /** The sign-in email pattern matches exactly when the split at the first '@'
      and the last '.' does: the local part cannot hold '@' and the top-level
      domain cannot hold '.'. */
  lemma EmailPatternMeaning(s: string)
    ensures EmailPattern(s) <==> EmailCheck(s)
  {
    if EmailPattern(s) {
      var at, dot :| 0 <= at < |s| && 0 <= dot < |s| && EmailSplitAt(s, at, dot);
      var a := IndexOf(s, '@');
      assert s[at] in s;
      assert !IsLocalChar('@');
      assert a.value == at;
      var d := LastIndexOf(s, '.');
      assert s[dot] in s;
      assert !IsLetter('.');
      assert d.value == dot;
    }
  }

  /** An accepted address ends in a top-level domain of at least two letters
      after its last '.'. */
  lemma TopLevelDomainHasTwoLetters(s: string)
    requires EmailPattern(s)
    ensures LastIndexOf(s, '.').Some?
    ensures var dot := LastIndexOf(s, '.').value; |s| - dot - 1 >= 2 && AllIn(s[dot + 1..], IsLetter)
  {
    EmailPatternMeaning(s);
  }

  /** Sign-in rejects an address registration accepts: a one-letter top-level domain. */
  lemma OneLetterTopLevelDomainRejected()
    ensures !EmailPattern("a@b.c")
  {
    if EmailPattern("a@b.c") {
      TopLevelDomainHasTwoLetters("a@b.c");
    }
  }

  /** The password field is only `required`: any non-empty value is accepted. */
  predicate PasswordAccepted(password: string)
  {
    password != ""
  }

  /** Unlike registration, sign-in imposes no length or character rule: a
      one-character password that registration would refuse is accepted. */
  lemma PasswordOnlyRequired(password: string)
    ensures PasswordAccepted(password) <==> |password| >= 1
    ensures PasswordAccepted("a") && !Register.PasswordRule("a")
  {
  }

  /** The text of every error toast of this page. */
  const InvalidCredentialsText := "Invalid email or password."

  datatype LoginForm = LoginForm(email: string, password: string)

  /** The Authorization header the token exchange is sent with: the request
      goes through the API client, whose interceptor replaces the explicit
      ID-token header when a session token is already stored. */
  function ExchangeAuthorization(idToken: string, items: map<string, string>): (header: string)
    ensures Browser.HasToken(items) ==> header == Api.Bearer(items[Browser.TokenKey])
    ensures !Browser.HasToken(items) ==> header == Api.Bearer(idToken)
  {
    Api.InterceptedHeaders(map[Api.AuthorizationHeader := Api.Bearer(idToken)], items)[Api.AuthorizationHeader]
  }


  /** What `onSubmit` does, in order, for the given outcomes of sign-in, the ID
      token, the exchange and the last-login update; `items` is the storage
      when the submit starts. */
  function Trace(form: LoginForm, items: map<string, string>, locationState: Option<string>,
                 signedIn: Result<Session.ProviderUser>, idToken: Result<string>,
                 exchange: Result<string>, lastLogin: Outcome): (calls: seq<Call>)
    ensures |calls| >= 2 && calls[0] == SignIn(form.email, form.password)
  {
    if signedIn.Err? then [SignIn(form.email, form.password), Notify(ToastError(InvalidCredentialsText))]
    else if idToken.Err? then [SignIn(form.email, form.password), GetIdToken, Notify(ToastError(InvalidCredentialsText))]
    else
      [SignIn(form.email, form.password), GetIdToken, ExchangeToken(ExchangeAuthorization(idToken.value, items))]
      + (if exchange.Ok? then [] else [Notify(ToastError(ExchangeFailureText))])
      + [PatchLastLogin(signedIn.value.uid)]
      + (if lastLogin.Failed? then [Notify(ToastError(InvalidCredentialsText))]
         else [Notify(ToastSuccess("Login successful!")), Navigate(RedirectTarget(locationState))])
  }

  /** The storage after `onSubmit`: the exchanged token is stored exactly when
      sign-in, the ID token and the exchange all succeed; no other key changes. */
  function ItemsAfter(items: map<string, string>, signedIn: Result<Session.ProviderUser>,
                      idToken: Result<string>, exchange: Result<string>): map<string, string>
  {
    if signedIn.Ok? && idToken.Ok? && exchange.Ok? then items[Browser.TokenKey := exchange.value] else items
  }

  /** Only the token key can change, and it holds the exchanged token exactly
      when sign-in, the ID token and the exchange all succeed. */
  lemma OnlyTheTokenChanges(items: map<string, string>, signedIn: Result<Session.ProviderUser>,
                            idToken: Result<string>, exchange: Result<string>)
    ensures Browser.TokenOf(ItemsAfter(items, signedIn, idToken, exchange)) ==
      if signedIn.Ok? && idToken.Ok? && exchange.Ok? then Some(exchange.value) else Browser.TokenOf(items)
    ensures ItemsAfter(items, signedIn, idToken, exchange) - {Browser.TokenKey} == items - {Browser.TokenKey}
  {
  }

  /** A failed sign-in shows the error and does nothing else. */
  lemma SignInFailureGoesNowhere(form: LoginForm, items: map<string, string>, locationState: Option<string>,
                            signedIn: Result<Session.ProviderUser>, idToken: Result<string>,
                            exchange: Result<string>, lastLogin: Outcome)
    requires signedIn.Err?
    ensures Trace(form, items, locationState, signedIn, idToken, exchange, lastLogin)
            == [SignIn(form.email, form.password), Notify(ToastError(InvalidCredentialsText))]
    ensures ItemsAfter(items, signedIn, idToken, exchange) == items
  {
  }

  /** Once signed in with an ID token, the exchange is attempted and the
      last-login update follows it, whatever the exchange's outcome. */
  lemma ExchangeThenLastLogin(form: LoginForm, items: map<string, string>, locationState: Option<string>,
                              signedIn: Result<Session.ProviderUser>, idToken: Result<string>,
                              exchange: Result<string>, lastLogin: Outcome)
    requires signedIn.Ok? && idToken.Ok?
    ensures var calls := Trace(form, items, locationState, signedIn, idToken, exchange, lastLogin);
      && calls[2] == ExchangeToken(ExchangeAuthorization(idToken.value, items))
      && PatchLastLogin(signedIn.value.uid) in calls[3..]
      && forall j :: 0 <= j < |calls| && calls[j].ExchangeToken? ==> j == 2
  {
    var calls := Trace(form, items, locationState, signedIn, idToken, exchange, lastLogin);
    var mid := if exchange.Ok? then 3 else 4;
    assert calls[mid] == PatchLastLogin(signedIn.value.uid);
  }

  /** The page navigates exactly when sign-in, the ID token and the
      last-login update succeed; a failed exchange alone does not stop it. */
  lemma NavigatesExactlyOnSuccess(form: LoginForm, items: map<string, string>, locationState: Option<string>,
                             signedIn: Result<Session.ProviderUser>, idToken: Result<string>,
                             exchange: Result<string>, lastLogin: Outcome)
    ensures var calls := Trace(form, items, locationState, signedIn, idToken, exchange, lastLogin);
      if signedIn.Ok? && idToken.Ok? && lastLogin.Done?
      then calls[|calls| - 1] == Navigate(RedirectTarget(locationState))
      else EndsWithError(calls, InvalidCredentialsText) && forall c :: c in calls ==> !c.Navigate?
  {
  }

  /** `onSubmit`. Each awaited call's outcome is a parameter; the result is the
      trace of what the page does, in order. */
  method OnSubmit(form: LoginForm, storage: Browser.LocalStorage, locationState: Option<string>,
                  signedIn: Result<Session.ProviderUser>, idToken: Result<string>,
                  exchange: Result<string>, lastLogin: Outcome)
    returns (calls: seq<Call>)
    modifies storage
    ensures calls == Trace(form, old(storage.items), locationState, signedIn, idToken, exchange, lastLogin)
    ensures storage.items == ItemsAfter(old(storage.items), signedIn, idToken, exchange)
  {
    if signedIn.Err? {
      calls := [SignIn(form.email, form.password), Notify(ToastError(InvalidCredentialsText))];
      return;
    }
    if idToken.Err? {
      calls := [SignIn(form.email, form.password), GetIdToken, Notify(ToastError(InvalidCredentialsText))];
      return;
    }
    var config := new Api.RequestConfig("/auth", "post", map[Api.AuthorizationHeader := Api.Bearer(idToken.value)]);
    config := Api.Intercept(config, storage);
    var authorization := config.headers[Api.AuthorizationHeader];
    var exchangeFailure: seq<Call> := [];
    if exchange.Ok? {
      storage.SetItem(Browser.TokenKey, exchange.value);
    } else {
      exchangeFailure := [Notify(ToastError(ExchangeFailureText))];
    }
    var ending := if lastLogin.Failed? then [Notify(ToastError(InvalidCredentialsText))]
                  else [Notify(ToastSuccess("Login successful!")), Navigate(RedirectTarget(locationState))];
    calls := [SignIn(form.email, form.password), GetIdToken, ExchangeToken(authorization)]
             + exchangeFailure + [PatchLastLogin(signedIn.value.uid)] + ending;
  }
}
