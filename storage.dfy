/**
 * The browser's local storage, shared by every part of the game: a map from
 * key to the value last written under it. Values are kept abstract, one
 * constructor per kind of item the game writes, in place of the strings
 * (JSON text, decimal numbers, ISO timestamps) the browser really holds.
 */
module Storage {

  datatype Value =
    | Text(s: string)                                  // a plain string item
    | Count(n: int)                                    // a number written with setItem and read with parseInt
    | Blob(points: int, combo: int, multiplier: int)   // the JSON object {points, combo, multiplier}
    | Instant(ms: int)                                 // an ISO-8601 timestamp, as milliseconds since the epoch

  class LocalStorage {
    var items: map<string, Value>

    constructor (initial: map<string, Value>)
      ensures items == initial
    {
      items := initial;
    }

    /** localStorage.setItem: the entry under `key` is replaced, every other entry is kept. */
    method SetItem(key: string, value: Value)
      modifies this
      ensures items == old(items)[key := value]
    {
      items := items[key := value];
    }
  }
}
