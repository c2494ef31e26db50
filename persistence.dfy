/**
 * Loading the state at start-up (app.js:43-50) and the browser storage it is
 * loaded from and saved to (app.js:45, 58). The storage backend and the JSON
 * encoder are foreign code: storage is a map from keys to strings whose
 * operations may fail, and JSON.stringify / JSON.parse are a pair of
 * function values about which only the round trip is assumed.
 */
module Persistence {
  import opened Wrappers
  import opened ResumeState

  /** The one storage key the state lives under. */
  const ResumeStateKey: string := "resumeState"

  /** `JSON.stringify` and `JSON.parse`, the latter returning `None` where it
      throws. */
  datatype Codec = Codec(serialize: State -> string, parse: string -> Option<State>)

  /** The round-trip assumption about the encoder: parsing what was
      serialised gives the state back, and a serialised object is never the
      empty string (it starts with a brace). */
  ghost predicate RoundTrips(c: Codec) {
    forall s :: c.serialize(s) != "" && c.parse(c.serialize(s)) == Some(s)
  }

  /** What `localStorage.getItem(key)` did: it threw (storage disabled),
      returned null (no such key), or returned a string. */
  datatype Read = Threw | Absent | Found(blob: string)

  /** The outcome of a `getItem` that did not throw. */
  function Lookup(items: map<string, string>, key: string): (r: Read)
    ensures r != Threw
    ensures r.Found? <==> key in items
    ensures r.Found? ==> r.blob == items[key]
  {
    if key in items then Found(items[key]) else Absent
  }

  /** `getInitialState`: the parsed stored value when the stored string is
      present, non-empty and parses; the seed in every other case. */
  function GetInitialState(read: Read, parse: string -> Option<State>): (r: State)
    ensures r == Seed() || (read.Found? && parse(read.blob) == Some(r))
    ensures (read.Found? && read.blob != "" && parse(read.blob).Some?) ==> r == parse(read.blob).value
    ensures !read.Found? ==> r == Seed()
    ensures read == Found("") ==> r == Seed()
    ensures (read.Found? && parse(read.blob).None?) ==> r == Seed()
  {
    match read
    case Threw => Seed()
    case Absent => Seed()
    case Found(blob) =>
      if blob == "" then Seed()
      else match parse(blob)
        case None => Seed()
        case Some(s) => s
  }

  /** A restart after a successful save of `s` loads exactly `s`. */
  lemma LoadAfterSave(c: Codec, items: map<string, string>, s: State)
    requires RoundTrips(c)
    ensures GetInitialState(Lookup(items[ResumeStateKey := c.serialize(s)], ResumeStateKey), c.parse) == s
  {
  }

  /** The browser's key-value storage. */
  class LocalStorage {
    var items: map<string, string>

    constructor (initial: map<string, string>)
      ensures items == initial
    {
      items := initial;
    }

    /** `getItem`: either throws or returns what is stored under `key`. */
    method GetItem(key: string) returns (r: Read)
      ensures r == Threw || r == Lookup(items, key)
    {
      var available: bool := *;
      r := if available then Lookup(items, key) else Threw;
    }

    /** `setItem`: either stores `value` under `key` and reports success, or
        fails (quota exceeded, storage disabled) and changes nothing. */
    method SetItem(key: string, value: string) returns (ok: bool)
      modifies this
      ensures ok ==> items == old(items)[key := value]
      ensures !ok ==> items == old(items)
    {
      ok := *;
      if ok {
        items := items[key := value];
      }
    }
  }
}
