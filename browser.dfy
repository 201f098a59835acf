/** The two browser collaborators the pages use: `localStorage` and the router's `navigate`. */
module Browser {
  import opened Wrappers

  /** Keys under which the session is kept. */
  const TokenKey: string := "token"
  const UserKey: string := "user"

  /** Targets of `navigate(...)`. */
  datatype Route = LoginRoute | ProfileRoute

  /** `window.localStorage`: a process-wide map from string keys to string values. */
  class Storage {
    var items: map<string, string>

    constructor (initial: map<string, string>)
      ensures items == initial
    {
      items := initial;
    }

    /** `getItem(key)`: the stored value, or null (None) for an absent key. */
    function GetItem(key: string): (v: Option<string>)
      reads this
      ensures v.Some? <==> key in items
      ensures v.Some? ==> v.value == items[key]
    {
      if key in items then Some(items[key]) else None
    }

    /** `setItem(key, value)`: overwrites one entry. */
    method SetItem(key: string, value: string)
      modifies this
      ensures items == old(items)[key := value]
    {
      items := items[key := value];
    }

    /** `removeItem(key)`: drops one entry; harmless when it is absent. */
    method RemoveItem(key: string)
      modifies this
      ensures items == old(items) - {key}
    {
      items := items - {key};
    }
  }
}
