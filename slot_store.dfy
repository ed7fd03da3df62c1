/** The file-backed key-to-record store of the tool server (the `Cache`
    class of src/mcp-server.ts). Each key is a file under the store's
    directory holding one JSON-encoded value. A read that fails (no file,
    unreadable file, unparsable content) answers "absent" instead of
    throwing; a write that fails is swallowed and leaves the store as it
    was. Every read and write takes a flag `ok` saying whether the
    file-system call and the JSON step succeed; the encoding itself is an
    identity here. */
module SlotStore {
  import opened Wrappers

  /** A record's identifier: its file name under the store's directory. */
  type Key = string

  const DefaultPath := "/tmp/cache"

  /** What `get(key)` answers for a store holding `entries`. */
  function Read<T>(entries: map<Key, T>, key: Key, ok: bool): (r: Option<T>)
    ensures r.Some? <==> ok && key in entries
    ensures r.Some? ==> r.value == entries[key]
  {
    if ok && key in entries then Some(entries[key]) else None
  }

  /** The store after `set(key, value)`. */
  function Write<T>(entries: map<Key, T>, key: Key, value: T, ok: bool): (r: map<Key, T>)
    ensures ok ==> key in r && r[key] == value
    ensures !ok ==> r == entries
    ensures r - {key} == entries - {key}
  {
    if ok then entries[key := value] else entries
  }

  /** A successful write is read back by a successful read. */
  lemma ReadYourWrite<T>(entries: map<Key, T>, key: Key, value: T)
    ensures Read(Write(entries, key, value, true), key, true) == Some(value)
  {
  }

  /** A write leaves every other key reading exactly as before. */
  lemma WriteTouchesOnlyItsKey<T>(entries: map<Key, T>, key: Key, value: T, ok: bool, other: Key, readOk: bool)
    requires other != key
    ensures Read(Write(entries, key, value, ok), other, readOk) == Read(entries, other, readOk)
  {
  }

  /** One `set` call: its key, its value and whether it succeeded. */
  datatype WriteCall<T> = WriteCall(key: Key, value: T, ok: bool)

  /** The store after a sequence of `set` calls. */
  function WriteAll<T>(entries: map<Key, T>, writes: seq<WriteCall<T>>): map<Key, T>
    decreases |writes|
  {
    if writes == [] then entries
    else WriteAll(Write(entries, writes[0].key, writes[0].value, writes[0].ok), writes[1..])
  }

  /** A key that was not stored and that no successful write names reads as
      absent, whatever other writes happened and whether the read fails. */
  lemma {:induction false} AbsentUntilWritten<T>(entries: map<Key, T>, writes: seq<WriteCall<T>>, key: Key, ok: bool)
    requires key !in entries
    requires forall i :: 0 <= i < |writes| && writes[i].ok ==> writes[i].key != key
    ensures Read(WriteAll(entries, writes), key, ok) == None
    decreases |writes|
  {
    if writes != [] {
      var next := Write(entries, writes[0].key, writes[0].value, writes[0].ok);
      assert key !in next;
      forall i | 0 <= i < |writes[1..]| && writes[1..][i].ok
        ensures writes[1..][i].key != key
      {
        assert writes[1..][i] == writes[i + 1];
      }
      AbsentUntilWritten(next, writes[1..], key, ok);
    }
  }

  /** The store: a directory whose files are the records. */
  class Cache<T> {
    const path: string
    var entries: map<Key, T>

    /** Opens (creating if need be) the directory `path`; the files already
        there, `existing`, stay: the store outlives the process. */
    constructor (path: string, existing: map<Key, T>)
      ensures this.path == path && entries == existing
    {
      this.path := path;
      entries := existing;
    }

    /** `get(key)`: the stored value, or absent when there is none or the
        read or parse fails. */
    method Get(key: Key, ok: bool) returns (r: Option<T>)
      ensures r.Some? <==> ok && key in entries
      ensures r.Some? ==> r.value == entries[key]
      ensures r == Read(entries, key, ok)
    {
      if ok && key in entries {
        r := Some(entries[key]);
      } else {
        r := None;
      }
    }

    /** `set(key, value)`: replaces the key's record; a failed write is
        swallowed and changes nothing. */
    method Set(key: Key, value: T, ok: bool)
      modifies this
      ensures entries == Write(old(entries), key, value, ok)
      ensures ok ==> key in entries && entries[key] == value
      ensures entries - {key} == old(entries) - {key}
    {
      if ok {
        entries := entries[key := value];
      }
    }
  }
}
