/**
 * The token helpers of the first frontend: read, write and remove the
 * "token" entry of `localStorage`, reading the strings "" and "undefined"
 * as no token.
 */
module TokenStore {
  import opened Basics
  import opened Storage

  /** What getToken reports for a store's contents. */
  function TokenIn(items: map<string, string>): (t: Option<string>)
    ensures t.Some? <==> TokenKey in items && items[TokenKey] != "" && items[TokenKey] != "undefined"
    ensures t.Some? ==> t.value == items[TokenKey]
  {
    if TokenKey in items && items[TokenKey] != "" && items[TokenKey] != "undefined" then Some(items[TokenKey])
    else None
  }

  /** getToken */
  function GetToken(store: LocalStorage): Option<string>
    reads store
  {
    TokenIn(store.items)
  }

  /** setToken: stores the coerced value under "token" and nothing else. */
  method SetToken(store: LocalStorage, token: JsValue)
    modifies store
    ensures store.items == old(store.items)[TokenKey := Coerce(token)]
  {
    store.SetItem(TokenKey, token);
  }

  /** removeToken */
  method RemoveToken(store: LocalStorage)
    modifies store
    ensures store.items == old(store.items) - {TokenKey}
  {
    store.RemoveItem(TokenKey);
  }

  /**
   * Reading back what setToken stored: a real token comes back; `undefined`
   * and "" read as no token; `null` is stored as the string "null", which
   * reads back as a token.
   */
  lemma SetThenGet(items: map<string, string>, token: JsValue)
    ensures var after := items[TokenKey := Coerce(token)];
      && (token.Str? && token.s != "" && token.s != "undefined" ==> TokenIn(after) == Some(token.s))
      && (token.Undefined? || token == Str("") || token == Str("undefined") ==> TokenIn(after).None?)
      && (token.Null? ==> TokenIn(after) == Some("null"))
  {
    assert "null" != "undefined" && "null" != "";
  }

  /** After removeToken there is no token, whatever was stored. */
  lemma RemoveThenGet(items: map<string, string>)
    ensures TokenIn(items - {TokenKey}).None?
  {
  }

  /** Both writes leave every other key of the store as it was. */
  lemma OnlyTokenKeyChanges(items: map<string, string>, value: string, key: string)
    requires key != TokenKey
    ensures key in items[TokenKey := value] <==> key in items
    ensures key in items ==> items[TokenKey := value][key] == items[key]
    ensures key in items - {TokenKey} <==> key in items
    ensures key in items ==> (items - {TokenKey})[key] == items[key]
  {
  }
}
