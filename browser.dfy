/** The browser's `localStorage`, reduced to a string-to-string map. Only the
    key "token" is used by the application: it holds the backend-issued
    session token. */
module Browser {
  import opened Common

  /** The key under which the session token is stored. */
  const TokenKey := "token"

  /** `localStorage.getItem("token")`: null when the key is absent. */
  function TokenOf(items: map<string, string>): Option<string>
  {
    if TokenKey in items then Some(items[TokenKey]) else None
  }

  /** `!!localStorage.getItem("token")`: a token is stored and it is not the empty string. */
  predicate HasToken(items: map<string, string>)
  {
    Truthy(TokenOf(items))
  }

  class LocalStorage {
    var items: map<string, string>

    constructor (items: map<string, string>)
      ensures this.items == items
    {
      this.items := items;
    }

    /** `localStorage.setItem(key, value)`. */
    method SetItem(key: string, value: string)
      modifies this
      ensures items == old(items)[key := value]
    {
      items := items[key := value];
    }

    /** `localStorage.removeItem(key)`. */
    method RemoveItem(key: string)
      modifies this
      ensures items == old(items) - {key}
    {
      items := items - {key};
    }
  }
}
