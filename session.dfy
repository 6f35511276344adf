/** The session bootstrap of src/context/AuthContext.jsx: the provider's
    auth-state callback (a bounded wait for the stored session token, the
    user-record fetch and the publication of the merged user), sign-out, and
    the "checking" gate in front of the application. */
module Session {
  import opened Common
  import Browser
  import Api

  /** The wait gives up after this many 100 ms sleeps. */
  const MaxTries := 20

  /** The identity provider's user (a Firebase user). */
  datatype ProviderUser = ProviderUser(
    displayName: Option<string>,
    photoURL: Option<string>,
    uid: string,
    email: Option<string>,
    accessToken: string)

  /** The backend's user record, as GET /users/user-data returns it. Dates are
      millisecond timestamps. */
  datatype UserRecord = UserRecord(
    name: Option<string>,
    email: Option<string>,
    image: Option<string>,
    role: Option<string>,
    premiumTaken: Option<bool>,
    premiumExpiry: Option<int>,
    createdAt: Option<int>)

  /** What the user-data request yields: it throws, or its body has a `user`
      field that may be missing. */
  datatype UserDataResponse = FetchFailed(message: string) | Fetched(user: Option<UserRecord>)

  /** The user the context publishes to the rest of the application. */
  datatype CurrentUser = CurrentUser(
    name: Option<string>,
    image: Option<string>,
    email: Option<string>,
    token: string,
    uid: string,
    role: Option<string>,
    isPremiumTaken: Option<bool>)

  /** The published user: display fields and credentials from the provider,
      role and premium flag from the backend record only. */
  function Merge(p: ProviderUser, rec: UserRecord): (u: CurrentUser)
    ensures u.role == rec.role && u.isPremiumTaken == rec.premiumTaken
    ensures u.name == p.displayName && u.image == p.photoURL && u.email == p.email
    ensures u.token == p.accessToken && u.uid == p.uid
  {
    CurrentUser(p.displayName, p.photoURL, p.email, p.accessToken, p.uid, rec.role, rec.premiumTaken)
  }

  /** The stored token once a write `w` by another task (None: no write) has happened. */
  function AfterWrite(v: Option<string>, w: Option<string>): Option<string>
  {
    if w.Some? then w else v
  }

  /** The stored token after `k` sleeps of the wait, starting from `initial`,
      when other tasks write `writes[i]` during sleep `i`. */
  function StoredAfter(initial: Option<string>, writes: seq<Option<string>>, k: nat): Option<string>
  {
    if k == 0 then initial
    else AfterWrite(StoredAfter(initial, writes, k - 1), if k - 1 < |writes| then writes[k - 1] else None)
  }

  /** The number of sleeps the wait takes once `k` have been taken. */
  function TriesFrom(initial: Option<string>, writes: seq<Option<string>>, k: nat): (n: nat)
    requires k <= MaxTries
    ensures k <= n <= MaxTries
    decreases MaxTries - k
  {
    if Truthy(StoredAfter(initial, writes, k)) || k == MaxTries then k
    else TriesFrom(initial, writes, k + 1)
  }

  /** The number of sleeps the whole wait takes. */
  function WaitTries(initial: Option<string>, writes: seq<Option<string>>): (n: nat)
    ensures n <= MaxTries
  {
    TriesFrom(initial, writes, 0)
  }

  lemma {:induction false} TriesFromStopsAtFirstToken(initial: Option<string>, writes: seq<Option<string>>, k: nat)
    requires k <= MaxTries
    ensures forall j :: k <= j < TriesFrom(initial, writes, k) ==> !Truthy(StoredAfter(initial, writes, j))
    ensures TriesFrom(initial, writes, k) < MaxTries ==> Truthy(StoredAfter(initial, writes, TriesFrom(initial, writes, k)))
    decreases MaxTries - k
  {
    if !(Truthy(StoredAfter(initial, writes, k)) || k == MaxTries) {
      TriesFromStopsAtFirstToken(initial, writes, k + 1);
    }
  }

  /** The wait sleeps at most 20 times, keeps sleeping only while no token is
      stored, and stops as soon as one is. */
  lemma WaitStopsAtFirstToken(initial: Option<string>, writes: seq<Option<string>>)
    ensures WaitTries(initial, writes) <= MaxTries
    ensures forall j :: 0 <= j < WaitTries(initial, writes) ==> !Truthy(StoredAfter(initial, writes, j))
    ensures WaitTries(initial, writes) < MaxTries ==> Truthy(StoredAfter(initial, writes, WaitTries(initial, writes)))
  {
    TriesFromStopsAtFirstToken(initial, writes, 0);
  }

  lemma {:induction false} NoWriterKeepsInitial(initial: Option<string>, writes: seq<Option<string>>, k: nat)
    requires forall i :: 0 <= i < |writes| ==> writes[i].None?
    ensures StoredAfter(initial, writes, k) == initial
  {
    if k > 0 {
      NoWriterKeepsInitial(initial, writes, k - 1);
    }
  }

  /** With no token stored and nobody writing one, the wait runs to its bound
      and the bootstrap goes on without a token. */
  lemma WaitExhaustedWithoutWriter(initial: Option<string>, writes: seq<Option<string>>)
    requires !Truthy(initial)
    requires forall i :: 0 <= i < |writes| ==> writes[i].None?
    ensures WaitTries(initial, writes) == MaxTries
  {
    WaitStopsAtFirstToken(initial, writes);
    NoWriterKeepsInitial(initial, writes, WaitTries(initial, writes));
  }

  /** The state of AuthContextProvider. */
  class AuthProvider {
    var user: Option<CurrentUser>
    var isAuthChecking: bool
    const storage: Browser.LocalStorage

    /** Initially no user and still checking. */
    constructor (storage: Browser.LocalStorage)
      ensures user == None && isAuthChecking && !RendersChildren()
      ensures this.storage == storage
    {
      user := None;
      isAuthChecking := true;
      this.storage := storage;
    }

    /** While checking, the provider renders a spinner instead of its children. */
    predicate RendersChildren()
      reads this
    {
      !isAuthChecking
    }

    /** `waitForJWT`: sleeps while no token is stored, at most 20 times. During
        sleep `i` another task may write `writes[i]` to the token key. */
    method WaitForJwt(writes: seq<Option<string>>) returns (tries: nat)
      modifies storage
      ensures tries == WaitTries(old(Browser.TokenOf(storage.items)), writes)
      ensures Browser.TokenOf(storage.items) == StoredAfter(old(Browser.TokenOf(storage.items)), writes, tries)
      ensures storage.items - {Browser.TokenKey} == old(storage.items) - {Browser.TokenKey}
    {
      ghost var initial := Browser.TokenOf(storage.items);
      tries := 0;
      while !Truthy(Browser.TokenOf(storage.items)) && tries < MaxTries
        invariant tries <= MaxTries
        invariant Browser.TokenOf(storage.items) == StoredAfter(initial, writes, tries)
        invariant TriesFrom(initial, writes, tries) == WaitTries(initial, writes)
        invariant storage.items - {Browser.TokenKey} == old(storage.items) - {Browser.TokenKey}
      {
        // the 100 ms sleep, during which another task may store a token
        if tries < |writes| && writes[tries].Some? {
          storage.SetItem(Browser.TokenKey, writes[tries].value);
        }
        tries := tries + 1;
      }
    }

    /** The `onAuthStateChanged` callback. `current` is the provider's user,
        `writes` what other tasks store during the wait, `response` the outcome
        of GET /users/user-data. Returns the number of sleeps and the headers
        the user-data request goes out with (None when nothing is fetched). */
    method OnAuthStateChanged(current: Option<ProviderUser>, writes: seq<Option<string>>, response: UserDataResponse)
      returns (tries: nat, fetchHeaders: Option<map<string, string>>)
      modifies this, storage
      ensures !isAuthChecking && RendersChildren()
      ensures fetchHeaders.Some? <==> current.Some?
      ensures current.None? ==> user == None && tries == 0 && storage.items == old(storage.items)
      // first the wait: its tries and the storage it leaves, only the token key touched
      ensures current.Some? ==> tries == WaitTries(old(Browser.TokenOf(storage.items)), writes) && tries <= MaxTries
      ensures current.Some? ==>
        && Browser.TokenOf(storage.items) == StoredAfter(old(Browser.TokenOf(storage.items)), writes, tries)
        && storage.items - {Browser.TokenKey} == old(storage.items) - {Browser.TokenKey}
      // then the fetch, through the interceptor, with the storage the wait left
      ensures current.Some? ==> fetchHeaders == Some(Api.InterceptedHeaders(map[], storage.items))
      // a wait that ends early found a token, and the fetch carries exactly that token
      ensures current.Some? && tries < MaxTries ==>
        Api.AuthorizationHeader in fetchHeaders.value &&
        Api.CredentialOf(fetchHeaders.value[Api.AuthorizationHeader]) == Browser.TokenOf(storage.items)
      // then the publication
      ensures current.Some? && response.Fetched? && response.user.Some? ==>
        user == Some(Merge(current.value, response.user.value))
      ensures current.Some? && !(response.Fetched? && response.user.Some?) ==> user == old(user)
    {
      tries, fetchHeaders := 0, None;
      if current.Some? {
        ghost var initial := Browser.TokenOf(storage.items);
        tries := WaitForJwt(writes);
        WaitStopsAtFirstToken(initial, writes);
        var config := new Api.RequestConfig("/users/user-data", "get", map[]);
        config := Api.Intercept(config, storage);
        fetchHeaders := Some(config.headers);
        // reading `data.user.role` throws when the request failed or `user` is missing;
        // the error is caught and logged, and `user` is left as it was
        if response.Fetched? && response.user.Some? {
          user := Some(Merge(current.value, response.user.value));
        }
      } else {
        user := None;
      }
      isAuthChecking := false;
    }

    /** `userSignOut`: the stored token is removed only after the provider's
        sign-out resolves. */
    method UserSignOut(providerSignOut: Outcome) returns (toast: Toast)
      modifies storage
      ensures providerSignOut.Done? ==>
        storage.items == old(storage.items) - {Browser.TokenKey} && toast == ToastSuccess("Logged out successfully!")
      ensures providerSignOut.Failed? ==>
        storage.items == old(storage.items) && toast == ToastError("Failed to log out.")
    {
      if providerSignOut.Done? {
        storage.RemoveItem(Browser.TokenKey);
        toast := ToastSuccess("Logged out successfully!");
      } else {
        toast := ToastError("Failed to log out.");
      }
    }
  }
}
