/** The client's token slot (src/utils/auth.js in the front end): one `localStorage` key
    holding the JWT, and the browser state the client code reads and writes. */
module ClientAuth {
  import opened Basics

  /** The one storage key the client uses. */
  const TokenKey: string := "todo_token"

  /** `localStorage.getItem(key)`: the stored string, or null. */
  function StoredAt(storage: map<string, string>, key: string): (v: Option<string>)
    ensures v.Some? <==> key in storage
    ensures v.Some? ==> v.value == storage[key]
  {
    if key in storage then Some(storage[key]) else None
  }

  /** `!!token`: a stored token counts only when it is a non-empty string. */
  predicate Truthy(token: Option<string>) {
    token.Some? && token.value != ""
  }

  /** The browser window: its `localStorage` and the path of the page it shows. */
  class Browser {
    var storage: map<string, string>
    var pathname: string

    constructor (storage: map<string, string>, pathname: string)
      ensures this.storage == storage && this.pathname == pathname
    {
      this.storage := storage;
      this.pathname := pathname;
    }

    /** `getToken()`. */
    function Token(): (t: Option<string>)
      reads this
      ensures t.Some? <==> TokenKey in storage
      ensures t.Some? ==> t.value == storage[TokenKey]
    {
      StoredAt(storage, TokenKey)
    }

    /** `isAuthenticated()`: a token is stored and it is not the empty string. */
    predicate IsAuthenticated()
      reads this
    {
      Truthy(Token())
    }

    /** `setToken(token)`: the slot holds `token`; no other key and not the page change. */
    method SetToken(token: string)
      modifies this
      ensures storage == old(storage)[TokenKey := token]
      ensures pathname == old(pathname)
      ensures Token() == Some(token)
      ensures IsAuthenticated() <==> token != ""
    {
      storage := storage[TokenKey := token];
    }

    /** `removeToken()`: the slot is empty; no other key and not the page change. */
    method RemoveToken()
      modifies this
      ensures storage == old(storage) - {TokenKey}
      ensures pathname == old(pathname)
      ensures Token() == None && !IsAuthenticated()
    {
      storage := storage - {TokenKey};
    }
  }

  /** Setting the token leaves every other key as it was. */
  lemma SetTouchesOnlyTokenKey(storage: map<string, string>, token: string, key: string)
    requires key != TokenKey
    ensures StoredAt(storage[TokenKey := token], key) == StoredAt(storage, key)
    ensures StoredAt(storage[TokenKey := token], TokenKey) == Some(token)
  {
  }

  /** Removing the token leaves every other key as it was. */
  lemma RemoveTouchesOnlyTokenKey(storage: map<string, string>, key: string)
    requires key != TokenKey
    ensures StoredAt(storage - {TokenKey}, key) == StoredAt(storage, key)
    ensures StoredAt(storage - {TokenKey}, TokenKey) == None
  {
  }
}
