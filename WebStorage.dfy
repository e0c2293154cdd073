/**
 * The browser facilities every page handler touches: `localStorage`,
 * `navigate(...)` of the router and `alert(...)`.  One `Browser` object is
 * shared by all components, as the one `localStorage` of a tab is.
 *
 * Values are kept as `JSON.stringify` would describe them: plain text, or
 * a flat JSON object whose fields are strings, numbers or `null`
 * (`JSON.parse` is taken to be the exact inverse of `JSON.stringify`).
 */
module WebStorage {
  import opened Base

  datatype Scalar = Str(s: string) | Num(n: int) | Null

  datatype Stored = Text(text: string) | Json(fields: map<string, Scalar>)

  /** `localStorage.getItem(key)` is truthy: present and not the empty string. */
  predicate HasTruthyItem(storage: map<string, Stored>, key: string) {
    key in storage && storage[key] != Text("")
  }

  class Browser {
    /** `localStorage`, key by key. */
    var storage: map<string, Stored>
    /** Every `navigate(path)` issued, oldest first. */
    var history: seq<string>
    /** Every `alert(text)` shown, oldest first. */
    var alerts: seq<string>

    constructor ()
      ensures storage == map[] && history == [] && alerts == []
    {
      storage, history, alerts := map[], [], [];
    }

    /** `localStorage.setItem(key, value)` */
    method SetItem(key: string, value: Stored)
      modifies this
      ensures storage == old(storage)[key := value]
      ensures history == old(history) && alerts == old(alerts)
    {
      storage := storage[key := value];
    }

    /** `localStorage.removeItem(key)` */
    method RemoveItem(key: string)
      modifies this
      ensures storage == old(storage) - {key}
      ensures history == old(history) && alerts == old(alerts)
    {
      storage := storage - {key};
    }

    /** `localStorage.clear()` */
    method Clear()
      modifies this
      ensures storage == map[]
      ensures history == old(history) && alerts == old(alerts)
    {
      storage := map[];
    }

    /** `navigate(path)` */
    method Navigate(path: string)
      modifies this
      ensures history == old(history) + [path]
      ensures storage == old(storage) && alerts == old(alerts)
    {
      history := history + [path];
    }

    /** `alert(text)` */
    method Alert(text: string)
      modifies this
      ensures alerts == old(alerts) + [text]
      ensures storage == old(storage) && history == old(history)
    {
      alerts := alerts + [text];
    }
  }
}
