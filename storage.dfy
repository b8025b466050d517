/**
  A string key-value store: it stands for Capacitor `Preferences` and for the
  browser's `localStorage`, both of which the application reads by key.
*/
module Storage {
  import opened Wrappers

  class Store {
    var entries: map<string, string>

    constructor (initial: map<string, string>)
      ensures entries == initial
    {
      entries := initial;
    }

    /** `getItem(key)` / `Preferences.get({key})`: None is `null`. */
    function Get(key: string): Option<string>
      reads this
    {
      if key in entries then Some(entries[key]) else None
    }

    /** `setItem(key, value)` / `Preferences.set({key, value})`. */
    method Set(key: string, value: string)
      modifies this
      ensures entries == old(entries)[key := value]
    {
      entries := entries[key := value];
    }

    /** `removeItem(key)`. */
    method Remove(key: string)
      modifies this
      ensures entries == old(entries) - {key}
    {
      entries := entries - {key};
    }
  }
}
