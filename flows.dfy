/** What the sign-in and registration pages do to the outside world, in the
    order they do it: calls to the identity provider and the backend, toasts,
    navigation and page reloads. */
module Flows {
  import opened Common

  /** The toast both sign-in pages show when the token exchange fails; the
      flow goes on without a stored token. */
  const ExchangeFailureText := "Failed to get JWT token from server."

  /** The body of POST /users/register. */
  datatype RegisterInfo = RegisterInfo(name: Option<string>, email: Option<string>, image: Option<string>, uid: string)

  datatype Call =
    | CreateAccount(email: string, password: string)
    | SignIn(email: string, password: string)
    | GooglePopup
    | UpdateProviderProfile(displayName: string, photoURL: string)
    | GetIdToken
    | PostRegister(info: RegisterInfo)
    | CheckExists(uid: string)
    | PatchLastLogin(uid: string)
    /** POST /auth; `authorization` is the Authorization header the request is sent with. */
    | ExchangeToken(authorization: string)
    | Notify(toast: Toast)
    | Navigate(target: string)
    | Reload

  /** `location?.state ? location.state : "/"`: where a successful sign-in or
      registration goes. */
  function RedirectTarget(state: Option<string>): (target: string)
    ensures Truthy(state) ==> target == state.value
    ensures !Truthy(state) ==> target == "/"
    ensures target != ""
  {
    OrElse(state, "/")
  }

  /** The trace neither exchanges a token nor navigates. */
  predicate StopsEarly(calls: seq<Call>)
  {
    forall c :: c in calls ==> !c.ExchangeToken? && !c.Navigate? && !c.Reload?
  }

  /** The trace ends with an error toast saying `text`. */
  predicate EndsWithError(calls: seq<Call>, text: string)
  {
    |calls| > 0 && calls[|calls| - 1] == Notify(ToastError(text))
  }
}
