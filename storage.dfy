/**
 * On-device key-value storage. `expo-secure-store` (the signed-in user) and
 * AsyncStorage (the food library) both keep strings under string keys; a
 * screen holds a reference to the store, so what one screen writes another
 * reads on its next mount.
 */
module Storage {
  import opened Wrappers

  /** The value stored under `key`, or `None` (the platform resolves `null`). */
  function Stored(entries: map<string, string>, key: string): Option<string> {
    if key in entries then Some(entries[key]) else None
  }

  class KeyValueStore {
    var entries: map<string, string>

    constructor (initial: map<string, string>)
      ensures entries == initial
    {
      entries := initial;
    }

    /** `getItem(key)`. */
    method GetItem(key: string) returns (r: Option<string>)
      ensures r == Stored(entries, key)
    {
      r := if key in entries then Some(entries[key]) else None;
    }

    /** `setItem(key, value)`: only `key` changes. */
    method SetItem(key: string, value: string)
      modifies this
      ensures entries == old(entries)[key := value]
    {
      entries := entries[key := value];
    }

    /** `removeItem(key)` / `deleteItemAsync(key)`: a missing key is no error. */
    method RemoveItem(key: string)
      modifies this
      ensures entries == old(entries) - {key}
    {
      entries := entries - {key};
    }
  }
}
