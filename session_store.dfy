/**
 * The browser's session-scoped key/value store (`sessionStorage`), through which the
 * predict page hands its result to the results page.
 */
module SessionStore {
  import opened Common
  import Json

  /** A stored string, by what `JSON.parse` makes of it: text it accepts, yielding `value`
      (what `JSON.stringify(value)` wrote is such a text), or text it rejects. */
  datatype Text = Serialized(value: Json.Value) | Malformed(raw: string)

  /** The stored string is non-empty (truthy); JSON text never is empty. */
  predicate NonEmpty(t: Text) {
    t.Serialized? || t.raw != ""
  }

  class Store {
    var items: map<string, Text>

    constructor ()
      ensures items == map[]
    {
      items := map[];
    }

    /** `getItem(key)`: the stored text, or `None` for JavaScript's `null`. */
    function GetItem(key: string): (t: Option<Text>)
      reads this
      ensures t.Some? <==> key in items
      ensures t.Some? ==> t.value == items[key]
    {
      if key in items then Some(items[key]) else None
    }

    /** `setItem(key, value)`: replaces what is stored under key and nothing else. */
    method SetItem(key: string, value: Text)
      modifies this
      ensures items == old(items)[key := value]
    {
      items := items[key := value];
    }
  }
}
