/** The backend API client of src/utils/axiosInstance.js: its base URL and the
    request interceptor that attaches the stored session token as a bearer
    credential. */
module Api {
  import opened Common
  import Browser

  /** The base URL used when the build environment does not set one. */
  const DefaultBaseUrl := "https://chronicle-ink-server.vercel.app/web/api"

  const AuthorizationHeader := "Authorization"

  const BearerPrefix := "Bearer "

  /** `VITE_BACKEND_URL || default`: an unset or empty environment value falls back to the default. */
  function BaseUrl(env: Option<string>): (url: string)
    ensures Truthy(env) ==> url == env.value
    ensures !Truthy(env) ==> url == DefaultBaseUrl
    ensures url != ""
  {
    OrElse(env, DefaultBaseUrl)
  }

  /** The value of an Authorization header carrying `token`. */
  function Bearer(token: string): string
  {
    BearerPrefix + token
  }

  /** The credential a receiver reads back from an Authorization header value. */
  function CredentialOf(header: string): Option<string>
  {
    if |header| >= |BearerPrefix| && header[..|BearerPrefix|] == BearerPrefix
    then Some(header[|BearerPrefix|..])
    else None
  }

  /** The headers a request leaves the interceptor with. */
  function InterceptedHeaders(headers: map<string, string>, items: map<string, string>): (h: map<string, string>)
    // with a non-empty stored token the Authorization header carries exactly that token
    ensures Browser.HasToken(items) ==>
      AuthorizationHeader in h && CredentialOf(h[AuthorizationHeader]) == Some(items[Browser.TokenKey])
    // without one the headers are left as they were
    ensures !Browser.HasToken(items) ==> h == headers
    // no other header is touched
    ensures h.Keys - {AuthorizationHeader} == headers.Keys - {AuthorizationHeader}
    ensures forall k :: k in headers && k != AuthorizationHeader ==> k in h && h[k] == headers[k]
  {
    if Browser.HasToken(items) then
      var h := headers[AuthorizationHeader := Bearer(items[Browser.TokenKey])];
      assert h[AuthorizationHeader][..|BearerPrefix|] == BearerPrefix;
      h
    else headers
  }

  /** An explicit Authorization header set by the caller is replaced by the stored token. */
  lemma StoredTokenOverridesCallerHeader(idToken: string, items: map<string, string>)
    requires Browser.HasToken(items)
    ensures InterceptedHeaders(map[AuthorizationHeader := Bearer(idToken)], items)[AuthorizationHeader]
            == Bearer(items[Browser.TokenKey])
  {
  }

  /** The parts of an axios request config the model keeps. */
  class RequestConfig {
    var url: string
    var verb: string
    var headers: map<string, string>

    constructor (url: string, verb: string, headers: map<string, string>)
      ensures this.url == url && this.verb == verb && this.headers == headers
    {
      this.url := url;
      this.verb := verb;
      this.headers := headers;
    }
  }

  /** The request interceptor: reads the stored token and, when there is one,
      sets the Authorization header on the config in place; returns the same config. */
  method Intercept(config: RequestConfig, storage: Browser.LocalStorage) returns (r: RequestConfig)
    modifies config
    ensures r == config
    ensures config.headers == InterceptedHeaders(old(config.headers), storage.items)
    ensures config.url == old(config.url) && config.verb == old(config.verb)
  {
    var token := Browser.TokenOf(storage.items);
    if Truthy(token) {
      config.headers := config.headers[AuthorizationHeader := Bearer(token.value)];
    }
    return config;
  }

  /** How a request promise settles. */
  datatype Settled<+T, +E> = Fulfilled(value: T) | Rejected(reason: E)

  /** The interceptor's error handler: `Promise.reject(error)`. */
  function OnRequestError<E>(error: E): (p: Settled<RequestConfig, E>)
    ensures p.Rejected? && p.reason == error
  {
    Rejected(error)
  }
}
