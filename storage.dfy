/**
 * The namespaced preference store of `src/lib/storage.ts`: three symbolic
 * keys, each kept under a fixed name in the browser's key-value medium,
 * with reads and writes that never raise.
 */
module Storage {
  import opened Wrappers
  import Json

  /** The symbolic keys of `STORAGE_KEYS`. */
  datatype Key = Config | Filter | Volume

  /** The name each key is stored under in the medium. */
  function Name(k: Key): string {
    match k
    case Config => "app_config"
    case Filter => "logger_filter"
    case Volume => "audio_volume"
  }

  /** No two keys share an entry in the medium. */
  lemma NamesDistinct(j: Key, k: Key)
    ensures Name(j) == Name(k) <==> j == k
  {
  }

  /**
   * What `storage.get(k)` returns while the medium works: the parsed entry,
   * or `null` when the entry is absent, empty or not parseable.
   */
  function Read(entries: map<string, string>, k: Key): (r: Json.Value)
    ensures Name(k) !in entries ==> r == Json.Null
    ensures r == Json.Null || (Name(k) in entries && Json.Parse(entries[Name(k)]) == Some(r))
    ensures Name(k) in entries && Json.Parse(entries[Name(k)]).Some? ==> Json.Parse(entries[Name(k)]) == Some(r)
  {
    var name := Name(k);
    if name !in entries || entries[name] == "" then Json.Null
    else match Json.Parse(entries[name])
      case Some(v) => v
      case None => Json.Null
  }

  /** The browser medium (`localStorage`), as a table from names to texts. */
  class Store {
    var entries: map<string, string>

    constructor(initial: map<string, string>)
      ensures entries == initial
    {
      entries := initial;
    }

    /** `storage.get`: a failing medium (`failure`) reads as `null`. */
    method Get(k: Key, failure: bool) returns (v: Json.Value)
      ensures failure ==> v == Json.Null
      ensures !failure ==> v == Read(entries, k)
    {
      if failure {
        v := Json.Null;
      } else {
        v := Read(entries, k);
      }
    }

    /** `storage.set`: writes the serialised value; a failed write changes nothing. */
    method Set(k: Key, v: Json.Value, failure: bool)
      modifies this
      ensures failure ==> entries == old(entries)
      ensures !failure ==> entries == old(entries)[Name(k) := Json.Serialise(v)]
    {
      if !failure {
        entries := entries[Name(k) := Json.Serialise(v)];
      }
    }

    /** `storage.remove`: deletes the entry, absent or not; a failed removal changes nothing. */
    method Remove(k: Key, failure: bool)
      modifies this
      ensures failure ==> entries == old(entries)
      ensures !failure ==> entries == old(entries) - {Name(k)}
    {
      if !failure {
        entries := entries - {Name(k)};
      }
    }
  }

  /** A value written under `k` reads back unchanged. */
  lemma ReadAfterWrite(entries: map<string, string>, k: Key, v: Json.Value)
    ensures Read(entries[Name(k) := Json.Serialise(v)], k) == v
  {
    Json.RoundTrip(v);
  }

  /** Writing under one key leaves what every other key reads unchanged. */
  lemma ReadOtherAfterWrite(entries: map<string, string>, k: Key, j: Key, text: string)
    requires j != k
    ensures Read(entries[Name(k) := text], j) == Read(entries, j)
  {
    NamesDistinct(j, k);
  }

  /** After a removal the key reads as `null`; other keys read as before. */
  lemma ReadAfterRemove(entries: map<string, string>, k: Key, j: Key)
    ensures Read(entries - {Name(k)}, k) == Json.Null
    ensures j != k ==> Read(entries - {Name(k)}, j) == Read(entries, j)
  {
    NamesDistinct(j, k);
  }

  /** An absent entry, an empty entry and an unparseable entry all read as `null`. */
  lemma ReadNullCases(entries: map<string, string>, k: Key)
    requires Name(k) !in entries || entries[Name(k)] == "" || Json.Parse(entries[Name(k)]).None?
    ensures Read(entries, k) == Json.Null
  {
  }
}
