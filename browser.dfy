/**
 * The browser state the components touch, as abstract objects: the origin's
 * `localStorage` and the class list of `document.documentElement`.
 */
module Browser {
  import opened Wrappers

  /** `window.localStorage`: a key that is not in `items` reads as `null`. */
  class LocalStorage {
    var items: map<string, string>

    constructor (items: map<string, string>)
      ensures this.items == items
    {
      this.items := items;
    }

    /** `getItem(key)`. */
    function GetItem(key: string): (v: Option<string>)
      reads this
      ensures v.Some? <==> key in items
      ensures v.Some? ==> v.value == items[key]
    {
      if key in items then Some(items[key]) else None
    }

    /** `setItem(key, value)`: replaces or adds the one entry. */
    method SetItem(key: string, value: string)
      modifies this
      ensures items == old(items)[key := value]
    {
      items := items[key := value];
    }

    /** `removeItem(key)`: drops the entry if there is one. */
    method RemoveItem(key: string)
      modifies this
      ensures items == old(items) - {key}
    {
      items := items - {key};
    }
  }

  /** `document.documentElement.classList`. */
  class ClassList {
    var tokens: set<string>

    constructor (tokens: set<string>)
      ensures this.tokens == tokens
    {
      this.tokens := tokens;
    }

    method Add(token: string)
      modifies this
      ensures tokens == old(tokens) + {token}
    {
      tokens := tokens + {token};
    }

    method Remove(token: string)
      modifies this
      ensures tokens == old(tokens) - {token}
    {
      tokens := tokens - {token};
    }
  }
}
