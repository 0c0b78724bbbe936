/**
 * The browser's local key-value storage, as used by the session code. A user is stored
 * serialised; serialisation is modelled as the identity, so an entry is either a plain
 * text or a serialised user.
 */
module Storage {
  import opened AuthTypes

  datatype Value = Text(text: string) | Json(user: User)

  /** JavaScript truthiness of a stored string: only the empty string is falsy; a serialised object never is. */
  predicate Truthy(v: Value): (b: bool)
    ensures v.Json? ==> b
    ensures v.Text? ==> (b <==> v.text != [])
  {
    v.Json? || v.text != []
  }

  class LocalStorage {
    var items: map<string, Value>

    constructor (initial: map<string, Value>)
      ensures items == initial
    {
      items := initial;
    }

    /** `setItem`: overwrites one entry, leaves every other entry alone. */
    method SetItem(key: string, v: Value)
      modifies this
      ensures items == old(items)[key := v]
    {
      items := items[key := v];
    }

    /** `removeItem`: drops one entry (no effect when it is absent). */
    method RemoveItem(key: string)
      modifies this
      ensures items == old(items) - {key}
    {
      items := items - {key};
    }
  }
}
