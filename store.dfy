/**
 * `get_markov` / `save_markov`: one file per key under the chains directory,
 * each holding a serialised Markov model. The model type `M` is left abstract.
 */
module ModelStore {
  import opened Wrappers

  type Key = string

  /** What the file for one key holds: a model `from_json` can read, or anything else. */
  datatype Record<M> = Stored(model: M) | Corrupt

  /**
   * `get_markov(key)`: the stored model, or `empty` (a fresh `markovify.Text("",
   * state_size=2)`) when the key is `None`, has no file, or its file does not parse.
   */
  function LoadFrom<M>(entries: map<Key, Record<M>>, key: Option<Key>, empty: M): M {
    if key.Some? && key.value in entries && entries[key.value].Stored? then entries[key.value].model
    else empty
  }

  /** `save_markov(key, m)` on the map of files; `None` when `os.path.join` raises on a `None` key. */
  function SavedTo<M>(entries: map<Key, Record<M>>, key: Option<Key>, m: M): Option<map<Key, Record<M>>> {
    if key.Some? then Some(entries[key.value := Stored(m)]) else None
  }

  class Store<M> {
    var entries: map<Key, Record<M>>

    constructor (initial: map<Key, Record<M>>)
      ensures entries == initial
    {
      entries := initial;
    }

    method Load(key: Option<Key>, empty: M) returns (m: M)
      ensures m == LoadFrom(entries, key, empty)
    {
      m := LoadFrom(entries, key, empty);
    }

    /** Overwrites the file for `key`; `ok` is false when the write raised and nothing changed. */
    method Save(key: Option<Key>, m: M) returns (ok: bool)
      modifies this
      ensures ok <==> key.Some?
      ensures ok ==> entries == old(entries)[key.value := Stored(m)]
      ensures !ok ==> entries == old(entries)
      ensures SavedTo(old(entries), key, m) == if ok then Some(entries) else None
    {
      if key.Some? {
        entries := entries[key.value := Stored(m)];
        ok := true;
      } else {
        ok := false;
      }
    }
  }

  /** Loading a key just saved gives back the saved model. */
  lemma LoadAfterSave<M>(entries: map<Key, Record<M>>, key: Key, m: M, empty: M)
    ensures SavedTo(entries, Some(key), m).Some?
    ensures LoadFrom(SavedTo(entries, Some(key), m).value, Some(key), empty) == m
  {
  }

  /** Saving one key leaves what every other key loads, and whether it has a file, as it was. */
  lemma SaveKeepsOtherKeys<M>(entries: map<Key, Record<M>>, key: Key, m: M, other: Key, empty: M)
    requires other != key
    ensures SavedTo(entries, Some(key), m).Some?
    ensures var after := SavedTo(entries, Some(key), m).value;
      (other in after <==> other in entries)
      && (other in entries ==> after[other] == entries[other])
      && LoadFrom(after, Some(other), empty) == LoadFrom(entries, Some(other), empty)
  {
  }

  /** A missing, unreadable or `None` key loads as the empty model, never as an error. */
  lemma LoadDefaultsToEmpty<M>(entries: map<Key, Record<M>>, key: Option<Key>, empty: M)
    requires key.None? || key.value !in entries || entries[key.value] == Corrupt
    ensures LoadFrom(entries, key, empty) == empty
  {
  }
}
