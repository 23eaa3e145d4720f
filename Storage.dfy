/**
 * The device's key-value store (AsyncStorage) as an in-memory map.  Reads and
 * removals always succeed; a write can fail, and whether it does is an input.
 */
module Storage {
  import opened Common

  /** How one `setItem` call ends: written, or thrown with a message. */
  datatype WriteResult = Written | WriteFailed(message: string)

  class KeyValueStorage {
    var entries: map<string, string>

    constructor (initial: map<string, string>)
      ensures entries == initial
    {
      entries := initial;
    }

    /** `getItem(key)`: the stored string, or null. */
    method GetItem(key: string) returns (r: Option<string>)
      ensures r == Lookup(entries, key)
    {
      r := Lookup(entries, key);
    }

    /** `setItem(key, value)`: stores the value, unless the write fails, in which case nothing changes. */
    method SetItem(key: string, value: string, outcome: WriteResult) returns (r: WriteResult)
      modifies this
      ensures r == outcome
      ensures outcome.Written? ==> entries == old(entries)[key := value]
      ensures outcome.WriteFailed? ==> entries == old(entries)
    {
      if outcome.Written? {
        entries := entries[key := value];
      }
      r := outcome;
    }

    /** `removeItem(key)`. */
    method RemoveItem(key: string)
      modifies this
      ensures entries == old(entries) - {key}
    {
      entries := entries - {key};
    }
  }
}
