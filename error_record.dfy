/** How a thrown error survives the store of the "run once per request"
    wrapper. A terminal record goes through `JSON.stringify` on the way in
    and `JSON.parse` on the way out, and only a value's enumerable own
    fields are written. An `Error`'s message is an own field that is not
    enumerable, so the error that comes back is a plain object holding
    only the fields its constructor or its thrower assigned: for a plain
    `new Error(m)`, an empty object. The step model in `SingleFlight` keeps
    thrown values as they are: that is the behaviour of the tagged encoding
    below, which keeps the message. */
module ErrorRecord {
  import opened Wrappers
  import opened SlotStore
  import opened SingleFlight

  /** A thrown value: an `Error` with its message and the enumerable fields
      assigned to it, or a plain object with string fields. */
  datatype Thrown =
    | ErrorObject(message: string, fields: map<string, string>)
    | PlainObject(fields: map<string, string>)

  /** The fields `JSON.stringify` writes for a value: all of a plain
      object's, and an `Error`'s assigned fields but not its message. */
  function EnumerableFields(v: Thrown): map<string, string> {
    v.fields
  }

  /** The error read back from a terminal record as the store keeps it:
      a plain object with the enumerable fields only. */
  function StoredAsWritten(v: Thrown): (r: Thrown)
    ensures r.PlainObject?
    ensures v.PlainObject? ==> r == v
    ensures v.ErrorObject? ==> r.fields == v.fields
  {
    PlainObject(EnumerableFields(v))
  }

  /** Replaying a stored `Error` does not rethrow it: it comes back as a
      plain object, and two errors that differ only in their messages come
      back alike; a plain `new Error(m)` comes back as `{}`. */
  lemma ErrorMessageLost(m1: string, m2: string, fields: map<string, string>)
    ensures StoredAsWritten(ErrorObject(m1, fields)) != ErrorObject(m1, fields)
    ensures StoredAsWritten(ErrorObject(m1, fields)) == StoredAsWritten(ErrorObject(m2, fields))
    ensures StoredAsWritten(ErrorObject(m1, map[])) == PlainObject(map[])
  {
  }

  /** The terminal record as the source reads it back: a thrown value has
      been through `StoredAsWritten`. */
  function TerminalAsWritten<R>(o: Outcome<R, Thrown>): (rec: Record<R, Thrown>)
    ensures !rec.pending
    ensures o.Resolved? ==> rec == Terminal(o)
    ensures o.Threw? ==> rec.result.None? && rec.error == Some(StoredAsWritten(o.error))
  {
    match o
    case Resolved(_) => Terminal(o)
    case Threw(e) => Record(false, None, Some(StoredAsWritten(e)))
  }

  /** The claiming call itself does not rethrow its error: once it has
      published the record as the source stores it, its final read
      rethrows the stored copy, a plain object without the message. */
  lemma LeaderRethrowsStoredCopy<R>(c: Caller<R, Thrown>, store: Store<R, Thrown>, m: string, fields: map<string, string>)
    requires c.pc.Fetch? && c.outcome == Threw(ErrorObject(m, fields))
    ensures var pc := Advance(c, store[c.key := TerminalAsWritten(c.outcome)], true).caller.pc;
      && pc == Done(Throws(PlainObject(fields)))
      && pc != Done(Direct(c.outcome))
  {
    var rec := TerminalAsWritten(c.outcome);
    assert Read(store[c.key := rec], c.key, true) == Some(rec);
  }

  /** A thrown value as it would be stored with its kind recorded: an
      `Error` is written with its message under a tag. */
  datatype Encoded = Encoded(isError: bool, message: string, fields: map<string, string>)

  function Encode(v: Thrown): (e: Encoded)
    ensures e.isError <==> v.ErrorObject?
    ensures e.fields == v.fields
  {
    match v
    case ErrorObject(m, fields) => Encoded(true, m, fields)
    case PlainObject(fields) => Encoded(false, "", fields)
  }

  function Decode(e: Encoded): Thrown {
    if e.isError then ErrorObject(e.message, e.fields) else PlainObject(e.fields)
  }

  /** The tagged encoding gives back every thrown value exactly, so a
      replayed error is the error that was thrown. */
  lemma DecodeEncode(v: Thrown)
    ensures Decode(Encode(v)) == v
  {
  }

  /** With the tagged encoding the claiming call's final read finds the
      encoded error, which decodes to the error it threw. */
  lemma LeaderRethrowsOwnError<R>(c: Caller<R, Thrown>, store: Store<R, Encoded>, e: Thrown)
    requires c.pc.Fetch? && c.outcome == Threw(e)
    ensures var stored: Record<R, Encoded> := Record(false, None, Some(Encode(e)));
      var read := Read(store[c.key := stored], c.key, true);
      read.Some? && Replay(read) == Throws(Encode(e)) && Decode(Replay(read).error) == e
  {
    DecodeEncode(e);
  }
}
