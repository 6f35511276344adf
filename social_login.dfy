/** Google sign-in, src/components/SocialLogin.jsx: `handleGoogleLogin`
    registers a new user or refreshes an existing user's last login, then
    exchanges the ID token for a session token and stores it. */
module SocialLogin {
  import opened Common
  import Browser
  import Api
  import Session
  import opened Flows

  /** The text of the toast shown when any step fails. */
  const FailureText := "Login failed"

  /** The registration body for a user the backend does not know yet. */
  function NewUserInfo(user: Session.ProviderUser): (info: RegisterInfo)
    ensures info.name == Some(OrElse(user.displayName, "Anonymous"))
    ensures info.email == user.email && info.uid == user.uid && info.image == user.photoURL
  {
    RegisterInfo(Some(OrElse(user.displayName, "Anonymous")), user.email, user.photoURL, user.uid)
  }

  /** Every step succeeds. */
  predicate AllSucceed(popup: Result<Session.ProviderUser>, idToken: Result<string>, existence: Result<bool>,
                       recordUser: Outcome, exchange: Result<string>)
  {
    popup.Ok? && idToken.Ok? && existence.Ok? && recordUser.Done? && exchange.Ok?
  }

  /** What `handleGoogleLogin` does, in order, for the given outcomes of the
      popup, the ID token, the existence check, the registration or
      last-login request and the exchange. */
  function Trace(popup: Result<Session.ProviderUser>, idToken: Result<string>, existence: Result<bool>,
                 recordUser: Outcome, exchange: Result<string>): (calls: seq<Call>)
    ensures |calls| >= 2 && calls[0] == GooglePopup
  {
    var failed := [Notify(ToastError(FailureText))];
    if popup.Err? then [GooglePopup] + failed
    else if idToken.Err? then [GooglePopup, GetIdToken] + failed
    else
      var user := popup.value;
      var checked := [GooglePopup, GetIdToken, CheckExists(user.uid)];
      if existence.Err? then checked + failed
      else
        var recorded := checked + [if existence.value then PatchLastLogin(user.uid) else PostRegister(NewUserInfo(user))];
        if recordUser.Failed? then recorded + failed
        else
          var exchanged := recorded + [ExchangeToken(Api.Bearer(idToken.value))];
          if exchange.Err? then exchanged + failed
          else exchanged + [Notify(ToastSuccess("Successfully logged in")), Reload]
  }

  /** The storage after `handleGoogleLogin`: the exchanged token is stored
      exactly when every step succeeds; no other key changes. */
  function ItemsAfter(items: map<string, string>, popup: Result<Session.ProviderUser>, idToken: Result<string>,
                      existence: Result<bool>, recordUser: Outcome, exchange: Result<string>): map<string, string>
  {
    if AllSucceed(popup, idToken, existence, recordUser, exchange) then items[Browser.TokenKey := exchange.value] else items
  }

  /** Only the token key can change, and it holds the exchanged token exactly
      when every step succeeds. */
  lemma OnlyTheTokenChanges(items: map<string, string>, popup: Result<Session.ProviderUser>, idToken: Result<string>,
                            existence: Result<bool>, recordUser: Outcome, exchange: Result<string>)
    ensures Browser.TokenOf(ItemsAfter(items, popup, idToken, existence, recordUser, exchange)) ==
      if AllSucceed(popup, idToken, existence, recordUser, exchange) then Some(exchange.value) else Browser.TokenOf(items)
    ensures ItemsAfter(items, popup, idToken, existence, recordUser, exchange) - {Browser.TokenKey} == items - {Browser.TokenKey}
  {
  }

  /** The existence check comes before the token exchange. */
  lemma CheckPrecedesExchange(popup: Result<Session.ProviderUser>, idToken: Result<string>, existence: Result<bool>,
                              recordUser: Outcome, exchange: Result<string>)
    ensures var calls := Trace(popup, idToken, existence, recordUser, exchange);
      forall i, j :: 0 <= i < |calls| && 0 <= j < |calls| && calls[i].CheckExists? && calls[j].ExchangeToken? ==> i < j
  {
  }

  /** An existing user gets the last-login update and is never registered
      again; a new user is registered and never patched. */
  lemma ExistingUserPatchedNewUserRegistered(popup: Result<Session.ProviderUser>, idToken: Result<string>,
                                        existence: Result<bool>, recordUser: Outcome, exchange: Result<string>)
    requires popup.Ok? && idToken.Ok? && existence.Ok?
    ensures var calls := Trace(popup, idToken, existence, recordUser, exchange);
      if existence.value
      then PatchLastLogin(popup.value.uid) in calls && forall c :: c in calls ==> !c.PostRegister?
      else PostRegister(NewUserInfo(popup.value)) in calls && forall c :: c in calls ==> !c.PatchLastLogin?
  {
    assert Trace(popup, idToken, existence, recordUser, exchange)[3].PatchLastLogin? == existence.value;
  }

  /** A successful sign-in reloads the page; any failing step ends the flow
      with "Login failed" and no reload. */
  lemma ReloadsExactlyOnSuccess(popup: Result<Session.ProviderUser>, idToken: Result<string>, existence: Result<bool>,
                                recordUser: Outcome, exchange: Result<string>)
    ensures var calls := Trace(popup, idToken, existence, recordUser, exchange);
      if AllSucceed(popup, idToken, existence, recordUser, exchange)
      then calls[|calls| - 2..] == [Notify(ToastSuccess("Successfully logged in")), Reload]
      else EndsWithError(calls, FailureText) && forall c :: c in calls ==> !c.Reload?
  {
  }

  /** `handleGoogleLogin`. Each awaited call's outcome is a parameter;
      `recordUser` is the outcome of the registration POST for a new user or
      of the last-login PATCH for an existing one. */
  method HandleGoogleLogin(storage: Browser.LocalStorage, popup: Result<Session.ProviderUser>,
                           idToken: Result<string>, existence: Result<bool>, recordUser: Outcome,
                           exchange: Result<string>)
    returns (calls: seq<Call>)
    modifies storage
    ensures calls == Trace(popup, idToken, existence, recordUser, exchange)
    ensures storage.items == ItemsAfter(old(storage.items), popup, idToken, existence, recordUser, exchange)
  {
    var failed := [Notify(ToastError(FailureText))];
    if popup.Err? {
      calls := [GooglePopup] + failed;
      return;
    }
    var user := popup.value;
    if idToken.Err? {
      calls := [GooglePopup, GetIdToken] + failed;
      return;
    }
    var checked := [GooglePopup, GetIdToken, CheckExists(user.uid)];
    if existence.Err? {
      calls := checked + failed;
      return;
    }
    var recorded;
    if !existence.value {
      recorded := checked + [PostRegister(NewUserInfo(user))];
    } else {
      recorded := checked + [PatchLastLogin(user.uid)];
    }
    if recordUser.Failed? {
      calls := recorded + failed;
      return;
    }
    var exchanged := recorded + [ExchangeToken(Api.Bearer(idToken.value))];
    if exchange.Err? {
      calls := exchanged + failed;
      return;
    }
    storage.SetItem(Browser.TokenKey, exchange.value);
    calls := exchanged + [Notify(ToastSuccess("Successfully logged in")), Reload];
  }
}
