/**
 * The device's durable key-value store (AsyncStorage), reduced to a map of
 * string keys to string values. Every operation may be rejected by the
 * platform; which one is, is not under the program's control, so each
 * operation chooses its outcome nondeterministically and says in its contract
 * what holds in either case. A rejected operation changes nothing.
 */
module Storage {
  import opened Common

  /** The value a `getItem` promise resolves with, or its rejection. */
  datatype Read = ReadRejected | Value(item: Option<string>)

  class KeyValueStore {
    var entries: map<string, string>

    constructor (initial: map<string, string>)
      ensures entries == initial
    {
      entries := initial;
    }

    /** `getItem(key)`: the stored string, `null` when absent, or a rejection. */
    method GetItem(key: string) returns (r: Read)
      ensures r.Value? ==> r.item == Lookup(entries, key)
    {
      var ok: bool :| true;
      if ok {
        r := Value(Lookup(entries, key));
      } else {
        r := ReadRejected;
      }
    }

    /** `setItem(key, value)`: overwrites the entry, or is rejected. */
    method SetItem(key: string, value: string) returns (ok: bool)
      modifies this
      ensures entries == if ok then old(entries)[key := value] else old(entries)
    {
      ok :| true;
      if ok {
        entries := entries[key := value];
      }
    }

    /** `removeItem(key)`: deletes the entry (absent keys are fine), or is rejected. */
    method RemoveItem(key: string) returns (ok: bool)
      modifies this
      ensures entries == if ok then old(entries) - {key} else old(entries)
    {
      ok :| true;
      if ok {
        entries := entries - {key};
      }
    }
  }
}
