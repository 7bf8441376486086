/**
 * Browser-local persistent storage (`localStorage`) and the JSON codec the
 * session stores use to put records into it.
 */
module Storage {
  import opened Wrappers

  /** The browser's `localStorage`: a mutable map from keys to strings. */
  class LocalStorage {
    var items: map<string, string>

    constructor (initial: map<string, string>)
      ensures items == initial
    {
      items := initial;
    }

    /** `localStorage.getItem(key)`: the stored string, or null. */
    method GetItem(key: string) returns (value: Option<string>)
      ensures value == Lookup(items, key)
    {
      value := if key in items then Some(items[key]) else None;
    }

    /** `localStorage.setItem(key, value)`. */
    method SetItem(key: string, value: string)
      modifies this
      ensures items == old(items)[key := value]
    {
      items := items[key := value];
    }

    /** `localStorage.removeItem(key)`; removing a missing key changes nothing. */
    method RemoveItem(key: string)
      modifies this
      ensures items == old(items) - {key}
    {
      items := items - {key};
    }
  }

  /** `getItem(key)` on a snapshot of the storage. */
  function Lookup(items: map<string, string>, key: string): Option<string> {
    if key in items then Some(items[key]) else None
  }

  /**
   * `JSON.stringify` and `JSON.parse` for one record type: `parse` fails with
   * the message of the `SyntaxError` it throws.
   */
  datatype Codec<!T> = Codec(stringify: T -> string, parse: string -> Result<T, string>)

  /**
   * What the session stores rely on of the JSON codec: parsing what was
   * stringified gives the record back, and a stringified record is never "".
   */
  ghost predicate Lawful<T(!new)>(c: Codec<T>) {
    forall x :: c.parse(c.stringify(x)) == Ok(x) && c.stringify(x) != ""
  }
}
