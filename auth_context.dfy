/**
 * The authentication context of the agri-assistant frontend: the token held
 * in memory, adopted from `localStorage` on mount, and kept in step with it
 * by login and logout.
 */
module AuthContext {
  import opened Basics
  import opened Storage

  /** The token the mount effect leaves in memory: a truthy stored value wins over `current`. */
  function Adopted(items: map<string, string>, current: JsValue): (t: JsValue)
    ensures TokenKey in items && items[TokenKey] != "" ==> t == Str(items[TokenKey])
    ensures TokenKey !in items || items[TokenKey] == "" ==> t == current
  {
    if TokenKey in items && items[TokenKey] != "" then Str(items[TokenKey]) else current
  }

  class AuthProvider {
    var token: JsValue
    const store: LocalStorage

    constructor(store: LocalStorage)
      ensures token == Null && this.store == store
    {
      token := Null;
      this.store := store;
    }

    /** The mount effect. */
    method Mount()
      modifies this
      ensures token == Adopted(store.items, old(token))
    {
      var stored := store.GetItem(TokenKey);
      if stored.Some? && stored.value != "" {
        token := Str(stored.value);
      }
    }

    /** login: memory and store get the same token. */
    method Login(newToken: JsValue)
      modifies this, store
      ensures token == newToken
      ensures store.items == old(store.items)[TokenKey := Coerce(newToken)]
    {
      token := newToken;
      store.SetItem(TokenKey, newToken);
    }

    /** logout: memory is cleared and the stored key removed. */
    method Logout()
      modifies this, store
      ensures token == Null
      ensures store.items == old(store.items) - {TokenKey}
    {
      token := Null;
      store.RemoveItem(TokenKey);
    }

    /** A login followed by a logout leaves neither a token in memory nor one in the store. */
    method LoginThenLogout(newToken: JsValue)
      modifies this, store
      ensures token == Null && TokenKey !in store.items
    {
      Login(newToken);
      Logout();
    }
  }

  /**
   * Across a reload, a login with a non-empty token is adopted again; after
   * a logout nothing is; and a login with `undefined` comes back as the
   * string "undefined", which this mount check does not filter out.
   */
  lemma ReloadAfterLogin(items: map<string, string>, newToken: JsValue)
    ensures newToken.Str? && newToken.s != "" ==>
      Adopted(items[TokenKey := Coerce(newToken)], Null) == newToken
    ensures newToken.Undefined? ==> Adopted(items[TokenKey := Coerce(newToken)], Null) == Str("undefined")
    ensures Adopted(items - {TokenKey}, Null) == Null
  {
  }
}
