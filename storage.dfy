/**
 * The browser's `localStorage`, a string-to-string map, and the JavaScript
 * values the token code may hand to it.
 */
module Storage {
  import opened Basics

  /** The key both token stores use. */
  const TokenKey: string := "token"

  /** A value passed to `setItem`: a string, `undefined` or `null`. */
  datatype JsValue = Undefined | Null | Str(s: string)

  /** `String(value)`, the coercion `setItem` applies. */
  function Coerce(value: JsValue): (r: string)
    ensures value.Str? ==> r == value.s
    ensures value.Undefined? ==> r == "undefined"
    ensures value.Null? ==> r == "null"
  {
    match value
    case Undefined => "undefined"
    case Null => "null"
    case Str(s) => s
  }

  class LocalStorage {
    var items: map<string, string>

    constructor(initial: map<string, string>)
      ensures items == initial
    {
      items := initial;
    }

    /** getItem: the stored string, or `None` (null) for a missing key. */
    function GetItem(key: string): (r: Option<string>)
      reads this
      ensures r.Some? <==> key in items
      ensures r.Some? ==> r.value == items[key]
    {
      if key in items then Some(items[key]) else None
    }

    method SetItem(key: string, value: JsValue)
      modifies this
      ensures items == old(items)[key := Coerce(value)]
    {
      items := items[key := Coerce(value)];
    }

    method RemoveItem(key: string)
      modifies this
      ensures items == old(items) - {key}
    {
      items := items - {key};
    }
  }
}
