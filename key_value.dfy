/** The device's key-value storage (AsyncStorage) over abstracted JSON documents. */
module KeyValue {
  import opened Wrappers
  import opened Types

  /**
   * What `getItem` can hand back for a present key: the empty string, text that
   * `JSON.parse` rejects, the literal `null`, a JSON value that is not an object
   * (number, string, boolean, array: reading a field of it yields undefined), or an object.
   */
  datatype Stored =
    | EmptyText
    | Unparseable
    | JsonNull
    | NonObject
    | Object(obj: JsonObject)

  /** `getItem(key)`: None when the key is absent (JavaScript `null`). */
  function Lookup(items: map<string, Stored>, key: string): (v: Option<Stored>)
    ensures v.Some? <==> key in items
    ensures v.Some? ==> v.value == items[key]
  {
    if key in items then Some(items[key]) else None
  }

  /** Every key other than `key` holds what it held before. */
  ghost predicate UnchangedExcept(before: map<string, Stored>, after: map<string, Stored>, key: string) {
    forall k :: k != key ==> Lookup(after, k) == Lookup(before, k)
  }

  class KeyValueStore {
    var items: map<string, Stored>

    constructor (initial: map<string, Stored>)
      ensures items == initial
    {
      items := initial;
    }

    /** `setItem(key, value)`: replaces whatever the key held. */
    method SetItem(key: string, value: Stored)
      modifies this
      ensures items == old(items)[key := value]
      ensures Lookup(items, key) == Some(value)
      ensures UnchangedExcept(old(items), items, key)
    {
      items := items[key := value];
    }
  }
}
