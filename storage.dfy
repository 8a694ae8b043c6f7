/** The browser's `localStorage`, as far as the server-address settings use
    it: a map from keys to strings, read with `getItem` and written with
    `setItem`. */
module Storage {
  import opened Wrappers

  /** `localStorage.getItem(key)`: the stored string, or None (`null`). */
  function GetItem(items: map<string, string>, key: string): Option<string> {
    if key in items then Some(items[key]) else None
  }

  /** `localStorage.getItem(key) || fallback`: `null` and `""` are both falsy,
      so either gives the fallback. */
  function ItemOr(items: map<string, string>, key: string, fallback: string): string {
    match GetItem(items, key)
    case Some(v) => if v != "" then v else fallback
    case None => fallback
  }

  class LocalStorage {
    var items: map<string, string>

    constructor (items: map<string, string>)
      ensures this.items == items
    {
      this.items := items;
    }

    /** `localStorage.setItem(key, value)`: that key now holds value; every
        other key is as it was. */
    method SetItem(key: string, value: string)
      modifies this
      ensures items == old(items)[key := value]
    {
      items := items[key := value];
    }
  }
}
