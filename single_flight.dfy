/** The "run once per request" wrapper of the tool server (`withCache` in
    src/mcp-server.ts). A call derives a key from its parameters and reads
    the key's record. With no record it writes a pending record, runs the
    wrapped function, and writes a terminal record holding the result or the
    thrown error. With a pending record it polls until the record is no
    longer pending. In every case it finally reads the record again and
    replays it: it rethrows a stored error or returns the stored result.

    A call is split into the steps between which other calls can run (every
    read, every write, and the run of the wrapped function), so that
    interleavings of several calls on one store are sequences of steps.
    Within one server process only the awaits (the run of the function and
    the wait between polls) let another call in, so a single process takes
    fewer interleavings than these; the finer steps also cover several
    server processes sharing the store's directory. The specification is
    the pure `Advance`/`Run`; the class `Call` performs the same steps on a
    `Cache` object and is proved against it. Each step that touches the
    store takes a flag `ok` saying whether its read or write succeeds. */
module SingleFlight {
  import opened Wrappers
  import opened SlotStore

  /** The record kept per key: `{pending, result?, error?}`. */
  datatype Record<R, E> = Record(pending: bool, result: Option<R>, error: Option<E>)

  /** What the wrapped function does for a call's parameters. */
  datatype Outcome<R, E> = Resolved(value: R) | Threw(error: E)

  /** What a caller of the wrapper receives: a result (`None` is
      `undefined`), or a thrown error. */
  datatype Reply<R, E> = Returns(result: Option<R>) | Throws(error: E)

  type Store<R, E> = map<Key, Record<R, E>>

  /** The record a claiming call writes before running the function. */
  function PendingRecord<R, E>(): Record<R, E> {
    Record(true, None, None)
  }

  /** What the function's own caller would see without the wrapper. */
  function Direct<R, E>(o: Outcome<R, E>): Reply<R, E> {
    match o
    case Resolved(v) => Returns(Some(v))
    case Threw(e) => Throws(e)
  }

  /** `_cache.get(key)?.pending`: a record was read and it is pending. */
  predicate IsPending<R, E>(c: Option<Record<R, E>>) {
    c.Some? && c.value.pending
  }

  /** The final read's answer turned into the reply: a stored error is
      rethrown; otherwise the stored result (or `undefined`) is returned. */
  function Replay<R, E>(c: Option<Record<R, E>>): (r: Reply<R, E>)
    ensures r.Throws? <==> c.Some? && c.value.error.Some?
    ensures r.Throws? ==> r.error == c.value.error.value
    ensures r.Returns? ==> r.result == (if c.Some? then c.value.result else None)
  {
    if c.Some? && c.value.error.Some? then Throws(c.value.error.value)
    else Returns(if c.Some? then c.value.result else None)
  }

  /** The terminal record for an outcome: not pending, and replaying it
      gives exactly what the function's own caller would have seen. */
  function Terminal<R, E>(o: Outcome<R, E>): (rec: Record<R, E>)
    ensures !rec.pending
    ensures Replay(Some(rec)) == Direct(o)
  {
    match o
    case Resolved(v) => Record(false, Some(v), None)
    case Threw(e) => Record(false, None, Some(e))
  }

  // ---------------------------------------------------------------------
  // One call as a sequence of steps

  /** Where a call is. `Probe`: the first read; `Claim`: writing the pending
      record; `Invoke`: running the function; `Publish`: writing the
      terminal record; `Recheck`: the second read, on the branch where a
      record existed; `Poll`: the wait loop's read; `Fetch`: the final read;
      `Done`: the reply. */
  datatype Pc<R, E> = Probe | Claim | Invoke | Publish | Recheck | Poll | Fetch | Done(reply: Reply<R, E>)

  /** A call in progress: its key, the outcome the function gives for its
      parameters, where it is, and how often it ran the function. */
  datatype Caller<R, E> = Caller(key: Key, outcome: Outcome<R, E>, pc: Pc<R, E>, runs: nat)

  datatype Config<R, E> = Config(caller: Caller<R, E>, store: Store<R, E>)

  /** A call that has found a record and only reads from now on. */
  predicate Observing<R, E>(pc: Pc<R, E>) {
    pc.Recheck? || pc.Poll? || pc.Fetch? || pc.Done?
  }

  /** A call that may still run the function. */
  predicate BeforeInvoke<R, E>(pc: Pc<R, E>) {
    pc.Probe? || pc.Claim? || pc.Invoke?
  }

  /** One step of a call. Only the claim and the publish steps write, and
      only the call's own key; only the invoke step runs the function; a
      call that found a record only reads from then on. */
  function Advance<R, E>(c: Caller<R, E>, store: Store<R, E>, ok: bool): (r: Config<R, E>)
    ensures r.caller.key == c.key && r.caller.outcome == c.outcome
    ensures r.store - {c.key} == store - {c.key}
    ensures r.store != store ==> c.pc.Claim? || c.pc.Publish?
    ensures r.caller.runs == if c.pc.Invoke? then c.runs + 1 else c.runs
    ensures Observing(c.pc) ==> Observing(r.caller.pc)
    ensures !BeforeInvoke(c.pc) ==> !BeforeInvoke(r.caller.pc)
    ensures c.pc.Done? ==> r == Config(c, store)
  {
    match c.pc
    case Probe =>
      if Read(store, c.key, ok).None? then Config(c.(pc := Claim), store)
      else Config(c.(pc := Recheck), store)
    case Claim =>
      Config(c.(pc := Invoke), Write(store, c.key, PendingRecord(), ok))
    case Invoke =>
      Config(c.(pc := Publish, runs := c.runs + 1), store)
    case Publish =>
      Config(c.(pc := Fetch), Write(store, c.key, Terminal(c.outcome), ok))
    case Recheck =>
      if IsPending(Read(store, c.key, ok)) then Config(c.(pc := Poll), store)
      else Config(c.(pc := Fetch), store)
    case Poll =>
      if IsPending(Read(store, c.key, ok)) then Config(c, store)
      else Config(c.(pc := Fetch), store)
    case Fetch =>
      Config(c.(pc := Done(Replay(Read(store, c.key, ok)))), store)
    case Done(_) =>
      Config(c, store)
  }

  /** A call taking one step per flag of `oks`. Over any run it touches only
      its key, runs the function at most once, and, once it has found a
      record, neither writes nor runs the function. */
  function Run<R, E>(c: Caller<R, E>, store: Store<R, E>, oks: seq<bool>): (r: Config<R, E>)
    ensures r.caller.key == c.key && r.caller.outcome == c.outcome
    ensures r.store - {c.key} == store - {c.key}
    ensures r.caller.runs <= c.runs + 1
    ensures !BeforeInvoke(c.pc) ==> r.caller.runs == c.runs
    ensures Observing(c.pc) ==> r.store == store && Observing(r.caller.pc)
    decreases |oks|
  {
    if oks == [] then Config(c, store)
    else
      var next := Advance(c, store, oks[0]);
      Run(next.caller, next.store, oks[1..])
  }

  /** Running `a` then `b` is running `a + b`. */
  lemma {:induction false} RunConcat<R, E>(c: Caller<R, E>, store: Store<R, E>, a: seq<bool>, b: seq<bool>)
    ensures Run(c, store, a + b) == (var mid := Run(c, store, a); Run(mid.caller, mid.store, b))
    decreases |a|
  {
    if a != [] {
      var next := Advance(c, store, a[0]);
      assert (a + b)[0] == a[0];
      assert (a + b)[1..] == a[1..] + b;
      RunConcat(next.caller, next.store, a[1..], b);
    } else {
      assert a + b == b;
    }
  }

  /** The steps from the `k`-th on: the `k`-th step, then the rest. */
  lemma RunFrom<R, E>(c: Caller<R, E>, store: Store<R, E>, oks: seq<bool>, k: nat)
    requires k < |oks|
    ensures Run(c, store, oks[k..]) ==
      (var next := Advance(c, store, oks[k]); Run(next.caller, next.store, oks[k + 1..]))
  {
    assert oks[k..][0] == oks[k];
    assert oks[k..][1..] == oks[k + 1..];
  }

  /** A finished call stays finished and changes nothing. */
  lemma {:induction false} DoneIsFinal<R, E>(c: Caller<R, E>, store: Store<R, E>, oks: seq<bool>)
    requires c.pc.Done?
    ensures Run(c, store, oks) == Config(c, store)
    decreases |oks|
  {
    if oks != [] {
      DoneIsFinal(c, store, oks[1..]);
    }
  }

  /** With no record for the key and every read and write succeeding, a call
      writes the pending record before it runs the function, runs it once,
      leaves the terminal record behind, and replies what the function gave. */
  lemma SoloLeader<R, E>(c: Caller<R, E>, store: Store<R, E>)
    requires c.pc.Probe? && c.key !in store
    ensures var claimed := Run(c, store, [true, true]);
      && claimed.caller.pc.Invoke?
      && claimed.caller.runs == c.runs
      && claimed.store == store[c.key := PendingRecord()]
    ensures var done := Run(c, store, [true, true, true, true, true]);
      && done.caller.pc == Done(Direct(c.outcome))
      && done.caller.runs == c.runs + 1
      && done.store == store[c.key := Terminal(c.outcome)]
  {
    var s1 := Advance(c, store, true);
    var s2 := Advance(s1.caller, s1.store, true);
    var s3 := Advance(s2.caller, s2.store, true);
    var s4 := Advance(s3.caller, s3.store, true);
    var s5 := Advance(s4.caller, s4.store, true);
    assert s2.store == store[c.key := PendingRecord()];
    assert s4.store == store[c.key := Terminal(c.outcome)];
    assert Run(c, store, [true, true]) == Run(s2.caller, s2.store, []) by {
      assert [true, true][1..] == [true];
      assert [true][1..] == [];
    }
    assert Run(c, store, [true, true, true, true, true]) == Run(s5.caller, s5.store, []) by {
      assert [true, true, true, true, true][1..] == [true, true, true, true];
      assert [true, true, true, true][1..] == [true, true, true];
      assert [true, true, true][1..] == [true, true];
      assert [true, true][1..] == [true];
      assert [true][1..] == [];
    }
  }

  /** A call whose first read finds a record never writes and never runs
      the function, however its later reads go: in particular a terminal
      record it can read is never rewritten. */
  lemma FoundRecordNeverRewritten<R, E>(c: Caller<R, E>, store: Store<R, E>, oks: seq<bool>)
    requires c.pc.Probe? && c.key in store
    requires |oks| >= 1 && oks[0]
    ensures Run(c, store, oks).store == store
    ensures Run(c, store, oks).caller.runs == c.runs
  {
    var next := Advance(c, store, oks[0]);
    assert next.caller.pc.Recheck?;
    assert Run(c, store, oks) == Run(next.caller, next.store, oks[1..]);
  }

  /** A call finding a terminal record replays it without running the
      function: a stored error is rethrown as stored, a stored result is
      returned. */
  lemma StoredRecordReplayed<R, E>(c: Caller<R, E>, store: Store<R, E>, oks: seq<bool>)
    requires c.pc.Probe? && c.key in store && !store[c.key].pending
    requires |oks| >= 3 && oks[0] && oks[1] && oks[2]
    ensures var done := Run(c, store, oks);
      && done.caller.pc == Done(Replay(Some(store[c.key])))
      && done.caller.runs == c.runs
      && done.store == store
    ensures store[c.key].error.Some? ==> Run(c, store, oks).caller.pc == Done(Throws(store[c.key].error.value))
  {
    var s1 := Advance(c, store, oks[0]);
    var s2 := Advance(s1.caller, s1.store, oks[1]);
    var s3 := Advance(s2.caller, s2.store, oks[2]);
    assert s3.caller.pc == Done(Replay(Some(store[c.key]))) && s3.store == store;
    assert oks[0..] == oks;
    RunFrom(c, store, oks, 0);
    RunFrom(s1.caller, s1.store, oks, 1);
    RunFrom(s2.caller, s2.store, oks, 2);
    DoneIsFinal(s3.caller, s3.store, oks[3..]);
  }

  /** A failed first read hides even a terminal record: the call claims the
      key again, reruns the function and overwrites the stored outcome. */
  lemma FailedProbeReruns<R, E>(c: Caller<R, E>, store: Store<R, E>)
    requires c.pc.Probe? && c.key in store && !store[c.key].pending
    ensures var done := Run(c, store, [false, true, true, true, true]);
      && done.caller.runs == c.runs + 1
      && done.store == store[c.key := Terminal(c.outcome)]
      && done.caller.pc == Done(Direct(c.outcome))
  {
    var s1 := Advance(c, store, false);
    var s2 := Advance(s1.caller, s1.store, true);
    var s3 := Advance(s2.caller, s2.store, true);
    var s4 := Advance(s3.caller, s3.store, true);
    var s5 := Advance(s4.caller, s4.store, true);
    assert s1.caller.pc.Claim?;
    assert s4.store == store[c.key := Terminal(c.outcome)];
    assert Run(c, store, [false, true, true, true, true]) == Run(s5.caller, s5.store, []) by {
      assert [false, true, true, true, true][1..] == [true, true, true, true];
      assert [true, true, true, true][1..] == [true, true, true];
      assert [true, true, true][1..] == [true, true];
      assert [true, true][1..] == [true];
      assert [true][1..] == [];
    }
  }

  /** A lost publish write leaves the pending record behind: the claiming
      call itself then returns `undefined` instead of its result. */
  lemma LostPublishReturnsUndefined<R, E>(c: Caller<R, E>, store: Store<R, E>)
    requires c.pc.Probe? && c.key !in store
    ensures var done := Run(c, store, [true, true, true, false, true]);
      && done.caller.pc == Done(Returns(None))
      && done.caller.runs == c.runs + 1
      && done.store == store[c.key := PendingRecord()]
  {
    var s1 := Advance(c, store, true);
    var s2 := Advance(s1.caller, s1.store, true);
    var s3 := Advance(s2.caller, s2.store, true);
    var s4 := Advance(s3.caller, s3.store, false);
    var s5 := Advance(s4.caller, s4.store, true);
    assert s4.store == store[c.key := PendingRecord()];
    assert Run(c, store, [true, true, true, false, true]) == Run(s5.caller, s5.store, []) by {
      assert [true, true, true, false, true][1..] == [true, true, false, true];
      assert [true, true, false, true][1..] == [true, false, true];
      assert [true, false, true][1..] == [false, true];
      assert [false, true][1..] == [true];
      assert [true][1..] == [];
    }
  }

  /** `n` steps whose reads and writes all succeed. */
  function AllOk(n: nat): (oks: seq<bool>)
    ensures |oks| == n && forall i :: 0 <= i < n ==> oks[i]
  {
    if n == 0 then [] else [true] + AllOk(n - 1)
  }

  /** The wait loop has no bound: while the record stays pending and reads
      succeed, a waiting call polls forever and changes nothing. */
  lemma {:induction false} WaitsWhilePending<R, E>(c: Caller<R, E>, store: Store<R, E>, n: nat)
    requires c.pc.Poll? && c.key in store && store[c.key].pending
    ensures Run(c, store, AllOk(n)) == Config(c, store)
  {
    if n > 0 {
      assert AllOk(n)[1..] == AllOk(n - 1);
      WaitsWhilePending(c, store, n - 1);
    }
  }

  /** The wait loop ends exactly when a read does not report a pending
      record (a terminal record, or none because the read failed), and the
      reply is then built from whatever the final read finds. */
  lemma WaitEndsOnlyWhenNotPending<R, E>(c: Caller<R, E>, store: Store<R, E>, ok: bool, fetchOk: bool)
    requires c.pc.Poll?
    ensures var next := Advance(c, store, ok);
      && next.store == store
      && (next.caller.pc.Poll? <==> IsPending(Read(store, c.key, ok)))
      && (next.caller.pc.Fetch? <==> !IsPending(Read(store, c.key, ok)))
    ensures Advance(c.(pc := Fetch), store, fetchOk).caller.pc == Done(Replay(Read(store, c.key, fetchOk)))
  {
  }

  // ---------------------------------------------------------------------
  // Several calls on one store

  /** Whose step it is, and whether its read or write succeeds. */
  datatype Turn = Turn(who: nat, ok: bool)

  datatype World<R, E> = World(callers: seq<Caller<R, E>>, store: Store<R, E>)

  /** One turn: the named call takes a step; a turn naming no call does nothing. */
  function Apply<R, E>(w: World<R, E>, t: Turn): (r: World<R, E>)
    ensures |r.callers| == |w.callers|
  {
    if t.who < |w.callers| then
      var next := Advance(w.callers[t.who], w.store, t.ok);
      World(w.callers[t.who := next.caller], next.store)
    else w
  }

  /** The calls taking turns in the order of `turns`. */
  function Interleave<R, E>(w: World<R, E>, turns: seq<Turn>): (r: World<R, E>)
    ensures |r.callers| == |w.callers|
    decreases |turns|
  {
    if turns == [] then w else Interleave(Apply(w, turns[0]), turns[1..])
  }

  /** The turns from the `k`-th on: the `k`-th turn, then the rest. */
  lemma InterleaveFrom<R, E>(w: World<R, E>, turns: seq<Turn>, k: nat)
    requires k < |turns|
    ensures Interleave(w, turns[k..]) == Interleave(Apply(w, turns[k]), turns[k + 1..])
  {
    assert turns[k..][0] == turns[k];
    assert turns[k..][1..] == turns[k + 1..];
  }

  /** A turn of the first of two calls. */
  lemma ApplyFirst<R, E>(x: Caller<R, E>, y: Caller<R, E>, store: Store<R, E>, ok: bool)
    ensures Apply(World([x, y], store), Turn(0, ok)) ==
      (var n := Advance(x, store, ok); World([n.caller, y], n.store))
  {
    var n := Advance(x, store, ok);
    assert [x, y][0 := n.caller] == [n.caller, y];
  }

  /** A turn of the second of two calls. */
  lemma ApplySecond<R, E>(x: Caller<R, E>, y: Caller<R, E>, store: Store<R, E>, ok: bool)
    ensures Apply(World([x, y], store), Turn(1, ok)) ==
      (var n := Advance(y, store, ok); World([x, n.caller], n.store))
  {
    var n := Advance(y, store, ok);
    assert [x, y][1 := n.caller] == [x, n.caller];
  }

  /** The race's schedule: both first reads, then the first call claims,
      runs and publishes, then the second claims and runs, then the first
      call's final read. */
  const RaceOpening: seq<Turn> := [Turn(0, true), Turn(1, true), Turn(0, true), Turn(0, true)]
  const RaceClosing: seq<Turn> := [Turn(0, true), Turn(1, true), Turn(1, true), Turn(0, true)]

  /** The shared run's schedule: the first call claims, the second reads
      twice and polls once, then the first runs and publishes, the second
      polls and reads, and the first reads. */
  const SharedOpening: seq<Turn> := [Turn(0, true), Turn(0, true), Turn(1, true), Turn(1, true), Turn(1, true)]
  const SharedClosing: seq<Turn> := [Turn(0, true), Turn(0, true), Turn(1, true), Turn(1, true), Turn(0, true)]

  /** Taking the turns of `t1` and then those of `t2` is taking the turns
      of `t1 + t2`. */
  lemma {:induction false} InterleaveConcat<R, E>(w: World<R, E>, t1: seq<Turn>, t2: seq<Turn>)
    ensures Interleave(w, t1 + t2) == Interleave(Interleave(w, t1), t2)
    decreases |t1|
  {
    if t1 != [] {
      assert (t1 + t2)[0] == t1[0];
      assert (t1 + t2)[1..] == t1[1..] + t2;
      InterleaveConcat(Apply(w, t1[0]), t1[1..], t2);
    } else {
      assert t1 + t2 == t2;
    }
  }

  /** The first half of the race: both calls find no record, then the
      first claims the key and runs the function. */
  lemma RaceBothProbeFirst<R, E>(a: Caller<R, E>, b: Caller<R, E>, store: Store<R, E>)
    requires a.key == b.key && a.key !in store
    requires a.pc.Probe? && b.pc.Probe?
    ensures Interleave(World([a, b], store), RaceOpening) ==
      World([a.(pc := Publish, runs := a.runs + 1), b.(pc := Claim)], store[a.key := PendingRecord()])
  {
    var pending := store[a.key := PendingRecord()];
    var a1, b1 := a.(pc := Claim), b.(pc := Claim);
    var a2 := a1.(pc := Invoke);
    var a3 := a2.(pc := Publish, runs := a.runs + 1);
    var w0 := World([a, b], store);
    var w1 := World([a1, b], store);
    var w2 := World([a1, b1], store);
    var w3 := World([a2, b1], pending);
    var w4 := World([a3, b1], pending);
    var turns := [Turn(0, true), Turn(1, true), Turn(0, true), Turn(0, true)];
    assert turns == RaceOpening;
    assert turns[4..] == [];
    assert Interleave(w3, turns[3..]) == w4 by {
      ApplyFirst(a2, b1, pending, true);
      assert turns[3] == Turn(0, true) && Apply(w3, Turn(0, true)) == w4;
      InterleaveFrom(w3, turns, 3);
    }
    assert Interleave(w2, turns[2..]) == w4 by {
      ApplyFirst(a1, b1, store, true);
      assert turns[2] == Turn(0, true) && Apply(w2, Turn(0, true)) == w3;
      InterleaveFrom(w2, turns, 2);
    }
    assert Interleave(w1, turns[1..]) == w4 by {
      ApplySecond(a1, b, store, true);
      assert turns[1] == Turn(1, true) && Apply(w1, Turn(1, true)) == w2;
      InterleaveFrom(w1, turns, 1);
    }
    assert Interleave(w0, turns[0..]) == w4 by {
      ApplyFirst(a, b, store, true);
      assert turns[0] == Turn(0, true) && Apply(w0, Turn(0, true)) == w1;
      InterleaveFrom(w0, turns, 0);
    }
    assert turns[0..] == turns;
  }

  /** The second half of the race: the first call publishes, the second
      claims over the published record and runs the function, and the first
      call's final read finds the pending record. */
  lemma RaceSecondClaimOverwrites<R, E>(a: Caller<R, E>, b: Caller<R, E>, store: Store<R, E>)
    requires a.key == b.key
    requires a.pc.Publish? && b.pc.Claim?
    ensures Interleave(World([a, b], store), RaceClosing) ==
      World([a.(pc := Done(Returns(None))), b.(pc := Publish, runs := b.runs + 1)], store[a.key := PendingRecord()])
  {
    var pending := store[a.key := PendingRecord()];
    var published := store[a.key := Terminal(a.outcome)];
    assert published[a.key := PendingRecord()] == pending;
    var a1 := a.(pc := Fetch);
    var a2 := a1.(pc := Done(Returns(None)));
    var b1 := b.(pc := Invoke);
    var b2 := b1.(pc := Publish, runs := b.runs + 1);
    var w0 := World([a, b], store);
    var w1 := World([a1, b], published);
    var w2 := World([a1, b1], pending);
    var w3 := World([a1, b2], pending);
    var w4 := World([a2, b2], pending);
    var turns := [Turn(0, true), Turn(1, true), Turn(1, true), Turn(0, true)];
    assert turns == RaceClosing;
    assert turns[4..] == [];
    assert Interleave(w3, turns[3..]) == w4 by {
      ApplyFirst(a1, b2, pending, true);
      assert turns[3] == Turn(0, true) && Apply(w3, Turn(0, true)) == w4;
      InterleaveFrom(w3, turns, 3);
    }
    assert Interleave(w2, turns[2..]) == w4 by {
      ApplySecond(a1, b1, pending, true);
      assert turns[2] == Turn(1, true) && Apply(w2, Turn(1, true)) == w3;
      InterleaveFrom(w2, turns, 2);
    }
    assert Interleave(w1, turns[1..]) == w4 by {
      ApplySecond(a1, b, published, true);
      assert turns[1] == Turn(1, true) && Apply(w1, Turn(1, true)) == w2;
      InterleaveFrom(w1, turns, 1);
    }
    assert Interleave(w0, turns[0..]) == w4 by {
      ApplyFirst(a, b, store, true);
      assert turns[0] == Turn(0, true) && Apply(w0, Turn(0, true)) == w1;
      InterleaveFrom(w0, turns, 0);
    }
    assert turns[0..] == turns;
  }

  /** Two identical requests whose first reads both happen before either
      claim both run the function: the check and the write are separate
      file operations, which two server processes sharing the directory can
      interleave. Here the second claim then overwrites the first call's
      published record with a pending one, so the first call returns
      `undefined`. */
  lemma CheckThenWriteRace<R, E>(a: Caller<R, E>, b: Caller<R, E>, store: Store<R, E>)
    requires a.key == b.key && a.key !in store
    requires a.pc.Probe? && b.pc.Probe?
    ensures var w := Interleave(World([a, b], store), RaceOpening + RaceClosing);
      && w.callers[0].runs == a.runs + 1
      && w.callers[1].runs == b.runs + 1
      && w.callers[0].pc == Done(Returns(None))
      && w.store == store[a.key := PendingRecord()]
  {
    InterleaveConcat(World([a, b], store), RaceOpening, RaceClosing);
    RaceBothProbeFirst(a, b, store);
    RaceSecondClaimOverwrites(a.(pc := Publish, runs := a.runs + 1), b.(pc := Claim), store[a.key := PendingRecord()]);
  }

  /** The first half of a shared run: the first call claims the key, and
      the second finds the pending record and starts waiting. */
  lemma FollowerStartsWaiting<R, E>(a: Caller<R, E>, b: Caller<R, E>, store: Store<R, E>)
    requires a.key == b.key && a.key !in store
    requires a.pc.Probe? && b.pc.Probe?
    ensures Interleave(World([a, b], store), SharedOpening) ==
      World([a.(pc := Invoke), b.(pc := Poll)], store[a.key := PendingRecord()])
  {
    var pending := store[a.key := PendingRecord()];
    var a1 := a.(pc := Claim);
    var a2 := a1.(pc := Invoke);
    var b1 := b.(pc := Recheck);
    var b2 := b1.(pc := Poll);
    var w0 := World([a, b], store);
    var w1 := World([a1, b], store);
    var w2 := World([a2, b], pending);
    var w3 := World([a2, b1], pending);
    var w4 := World([a2, b2], pending);
    var w5 := World([a2, b2], pending);
    var turns := [Turn(0, true), Turn(0, true), Turn(1, true), Turn(1, true), Turn(1, true)];
    assert turns == SharedOpening;
    assert turns[5..] == [];
    assert Interleave(w4, turns[4..]) == w5 by {
      ApplySecond(a2, b2, pending, true);
      assert turns[4] == Turn(1, true) && Apply(w4, Turn(1, true)) == w5;
      InterleaveFrom(w4, turns, 4);
    }
    assert Interleave(w3, turns[3..]) == w5 by {
      ApplySecond(a2, b1, pending, true);
      assert turns[3] == Turn(1, true) && Apply(w3, Turn(1, true)) == w4;
      InterleaveFrom(w3, turns, 3);
    }
    assert Interleave(w2, turns[2..]) == w5 by {
      ApplySecond(a2, b, pending, true);
      assert turns[2] == Turn(1, true) && Apply(w2, Turn(1, true)) == w3;
      InterleaveFrom(w2, turns, 2);
    }
    assert Interleave(w1, turns[1..]) == w5 by {
      ApplyFirst(a1, b, store, true);
      assert turns[1] == Turn(0, true) && Apply(w1, Turn(0, true)) == w2;
      InterleaveFrom(w1, turns, 1);
    }
    assert Interleave(w0, turns[0..]) == w5 by {
      ApplyFirst(a, b, store, true);
      assert turns[0] == Turn(0, true) && Apply(w0, Turn(0, true)) == w1;
      InterleaveFrom(w0, turns, 0);
    }
    assert turns[0..] == turns;
  }

  /** The second half of a shared run: the first call runs the function
      and publishes, and both calls then read the published record. */
  lemma FollowerReadsPublished<R, E>(a: Caller<R, E>, b: Caller<R, E>, store: Store<R, E>)
    requires a.key == b.key
    requires a.pc.Invoke? && b.pc.Poll?
    ensures Interleave(World([a, b], store), SharedClosing) ==
      World([a.(pc := Done(Direct(a.outcome)), runs := a.runs + 1), b.(pc := Done(Direct(a.outcome)))],
        store[a.key := Terminal(a.outcome)])
  {
    var published := store[a.key := Terminal(a.outcome)];
    var a1 := a.(pc := Publish, runs := a.runs + 1);
    var a2 := a1.(pc := Fetch);
    var a3 := a2.(pc := Done(Direct(a.outcome)));
    var b1 := b.(pc := Fetch);
    var b2 := b1.(pc := Done(Direct(a.outcome)));
    var w0 := World([a, b], store);
    var w1 := World([a1, b], store);
    var w2 := World([a2, b], published);
    var w3 := World([a2, b1], published);
    var w4 := World([a2, b2], published);
    var w5 := World([a3, b2], published);
    var turns := [Turn(0, true), Turn(0, true), Turn(1, true), Turn(1, true), Turn(0, true)];
    assert turns == SharedClosing;
    assert turns[5..] == [];
    assert Interleave(w4, turns[4..]) == w5 by {
      ApplyFirst(a2, b2, published, true);
      assert turns[4] == Turn(0, true) && Apply(w4, Turn(0, true)) == w5;
      InterleaveFrom(w4, turns, 4);
    }
    assert Interleave(w3, turns[3..]) == w5 by {
      ApplySecond(a2, b1, published, true);
      assert turns[3] == Turn(1, true) && Apply(w3, Turn(1, true)) == w4;
      InterleaveFrom(w3, turns, 3);
    }
    assert Interleave(w2, turns[2..]) == w5 by {
      ApplySecond(a2, b, published, true);
      assert turns[2] == Turn(1, true) && Apply(w2, Turn(1, true)) == w3;
      InterleaveFrom(w2, turns, 2);
    }
    assert Interleave(w1, turns[1..]) == w5 by {
      ApplyFirst(a1, b, store, true);
      assert turns[1] == Turn(0, true) && Apply(w1, Turn(0, true)) == w2;
      InterleaveFrom(w1, turns, 1);
    }
    assert Interleave(w0, turns[0..]) == w5 by {
      ApplyFirst(a, b, store, true);
      assert turns[0] == Turn(0, true) && Apply(w0, Turn(0, true)) == w1;
      InterleaveFrom(w0, turns, 0);
    }
    assert turns[0..] == turns;
  }

  /** A request arriving while an identical one is running waits for it:
      it neither writes nor runs the function, and both calls reply what
      the one run of the function gave, the error included. */
  lemma FollowerSharesLeaderOutcome<R, E>(a: Caller<R, E>, b: Caller<R, E>, store: Store<R, E>)
    requires a.key == b.key && a.key !in store
    requires a.pc.Probe? && b.pc.Probe?
    ensures var w := Interleave(World([a, b], store), SharedOpening + SharedClosing);
      && w.callers[0].runs == a.runs + 1
      && w.callers[1].runs == b.runs
      && w.callers[0].pc == Done(Direct(a.outcome))
      && w.callers[1].pc == Done(Direct(a.outcome))
      && w.store == store[a.key := Terminal(a.outcome)]
  {
    var waiting := World([a.(pc := Invoke), b.(pc := Poll)], store[a.key := PendingRecord()]);
    var published := store[a.key := Terminal(a.outcome)];
    assert waiting.store[a.key := Terminal(a.outcome)] == published;
    InterleaveConcat(World([a, b], store), SharedOpening, SharedClosing);
    FollowerStartsWaiting(a, b, store);
    FollowerReadsPublished(waiting.callers[0], waiting.callers[1], waiting.store);
  }

  /** What holds at every point of a run shared by a leader, which has
      claimed the key and is about to run the function, and a follower
      that has not yet read the key, while every read and write succeeds:
      the leader's key holds the pending record until the leader publishes
      and the terminal record from then on; the follower never runs the
      function and only reads; it reaches its final read only after the
      publish; and every reply given is what the one run gave. */
  ghost predicate SharedRun<R, E>(w: World<R, E>, a: Caller<R, E>, b: Caller<R, E>, store: Store<R, E>) {
    |w.callers| == 2 &&
    var leader, follower := w.callers[0], w.callers[1];
    && leader.key == a.key && leader.outcome == a.outcome
    && follower.key == a.key && follower.outcome == b.outcome
    && (leader.pc.Invoke? || leader.pc.Publish? || leader.pc.Fetch? || leader.pc.Done?)
    && leader.runs == (if leader.pc.Invoke? then a.runs else a.runs + 1)
    && (leader.pc.Done? ==> leader.pc.reply == Direct(a.outcome))
    && w.store == store[a.key := if leader.pc.Invoke? || leader.pc.Publish? then PendingRecord() else Terminal(a.outcome)]
    && (follower.pc.Probe? || Observing(follower.pc))
    && follower.runs == b.runs
    && (follower.pc.Fetch? || follower.pc.Done? ==> leader.pc.Fetch? || leader.pc.Done?)
    && (follower.pc.Done? ==> follower.pc.reply == Direct(a.outcome))
  }

  /** Any successful turn of either call keeps `SharedRun`. */
  lemma SharedRunStep<R, E>(w: World<R, E>, a: Caller<R, E>, b: Caller<R, E>, store: Store<R, E>, t: Turn)
    requires SharedRun(w, a, b, store) && t.ok
    ensures SharedRun(Apply(w, t), a, b, store)
  {
    var leader, follower := w.callers[0], w.callers[1];
    assert w == World([leader, follower], w.store);
    if t.who == 0 {
      ApplyFirst(leader, follower, w.store, true);
      assert store[a.key := PendingRecord()][a.key := Terminal(a.outcome)] == store[a.key := Terminal(a.outcome)];
    } else if t.who == 1 {
      ApplySecond(leader, follower, w.store, true);
    }
  }

  /** `SharedRun` holds after any schedule of successful turns. */
  lemma {:induction false} SharedRunKept<R, E>(w: World<R, E>, a: Caller<R, E>, b: Caller<R, E>, store: Store<R, E>, turns: seq<Turn>)
    requires SharedRun(w, a, b, store)
    requires forall i :: 0 <= i < |turns| ==> turns[i].ok
    ensures SharedRun(Interleave(w, turns), a, b, store)
    decreases |turns|
  {
    if turns != [] {
      SharedRunStep(w, a, b, store, turns[0]);
      SharedRunKept(Apply(w, turns[0]), a, b, store, turns[1..]);
    }
  }

  /** A request arriving after an identical one has claimed the key, under
      any schedule in which every read and write succeeds: the follower
      never runs the function and never writes, the leader runs it at most
      once, the key only ever holds the pending record or the leader's
      terminal record, the follower replies only once that terminal record
      is stored, and whichever of the two replies gets exactly what the one
      run of the function gave. */
  lemma FollowerAnySchedule<R, E>(a: Caller<R, E>, b: Caller<R, E>, store: Store<R, E>, turns: seq<Turn>)
    requires a.key == b.key && a.pc.Invoke? && b.pc.Probe?
    requires a.key in store && store[a.key] == PendingRecord()
    requires forall i :: 0 <= i < |turns| ==> turns[i].ok
    ensures var w := Interleave(World([a, b], store), turns);
      && |w.callers| == 2
      && w.callers[1].runs == b.runs
      && w.callers[0].runs <= a.runs + 1
      && w.store - {a.key} == store - {a.key}
      && a.key in w.store
      && (w.store[a.key] == PendingRecord() || w.store[a.key] == Terminal(a.outcome))
      && (w.callers[0].pc.Done? ==> w.callers[0].pc.reply == Direct(a.outcome))
      && (w.callers[1].pc.Done? ==> w.callers[1].pc.reply == Direct(a.outcome))
      && (w.callers[1].pc.Done? ==> w.store[a.key] == Terminal(a.outcome))
  {
    assert store[a.key := PendingRecord()] == store;
    assert SharedRun(World([a, b], store), a, b, store);
    SharedRunKept(World([a, b], store), a, b, store, turns);
  }

  // ---------------------------------------------------------------------
  // The wrapper over a `Cache` object

  /** One call of the wrapped function in progress, working on the shared
      store object `cache`. */
  class Call<R, E> {
    const key: Key
    const outcome: Outcome<R, E>
    const cache: Cache<Record<R, E>>
    var pc: Pc<R, E>
    var runs: nat

    /** The call as a value of the step model. */
    function State(): Caller<R, E>
      reads this
    {
      Caller(key, outcome, pc, runs)
    }

    /** A call that has not yet read its key. */
    constructor (cache: Cache<Record<R, E>>, key: Key, outcome: Outcome<R, E>)
      ensures this.cache == cache
      ensures State() == Caller(key, outcome, Probe, 0)
    {
      this.key := key;
      this.outcome := outcome;
      this.cache := cache;
      pc := Probe;
      runs := 0;
    }

    /** Takes the call's next step on the store object, exactly as `Advance`
        describes it. */
    method Step(ok: bool)
      modifies this, cache
      ensures Config(State(), cache.entries) == Advance(old(State()), old(cache.entries), ok)
    {
      match pc
      case Probe =>
        var found := cache.Get(key, ok);
        pc := if found.None? then Claim else Recheck;
      case Claim =>
        cache.Set(key, PendingRecord(), ok);
        pc := Invoke;
      case Invoke =>
        runs := runs + 1;
        pc := Publish;
      case Publish =>
        cache.Set(key, Terminal(outcome), ok);
        pc := Fetch;
      case Recheck =>
        var found := cache.Get(key, ok);
        pc := if IsPending(found) then Poll else Fetch;
      case Poll =>
        var found := cache.Get(key, ok);
        if !IsPending(found) {
          pc := Fetch;
        }
      case Fetch =>
        var found := cache.Get(key, ok);
        pc := Done(Replay(found));
      case Done(_) =>
    }
  }

  /** A tool handler wrapped by `withCache`: requests are keyed by a
      fingerprint of their parameters, and records live in a store created
      with the handler. */
  class CachedTool<P, R, E> {
    const fingerprint: P -> Key
    const cache: Cache<Record<R, E>>

    /** Wraps a handler; the store's directory may already hold records. */
    constructor (fingerprint: P -> Key, existing: Store<R, E>)
      ensures this.fingerprint == fingerprint
      ensures fresh(cache) && cache.path == DefaultPath && cache.entries == existing
    {
      this.fingerprint := fingerprint;
      cache := new Cache(DefaultPath, existing);
    }

    /** Serves one request whose handler would give `outcome`, taking one
        step per flag of `oks` until the call replies. `None` means the call
        had not replied when the flags ran out (it is still waiting). The
        new store and the reply are those of `Run`. */
    method Serve(params: P, outcome: Outcome<R, E>, oks: seq<bool>) returns (reply: Option<Reply<R, E>>)
      modifies cache
      ensures var final := Run(Caller(fingerprint(params), outcome, Probe, 0), old(cache.entries), oks);
        && cache.entries == final.store
        && (reply.Some? <==> final.caller.pc.Done?)
        && (reply.Some? ==> reply.value == final.caller.pc.reply)
      ensures cache.entries - {fingerprint(params)} == old(cache.entries) - {fingerprint(params)}
    {
      var start := Caller(fingerprint(params), outcome, Probe, 0);
      var call := new Call(cache, fingerprint(params), outcome);
      var i := 0;
      while i < |oks| && !call.pc.Done?
        invariant 0 <= i <= |oks|
        invariant call.cache == cache
        invariant Config(call.State(), cache.entries) == Run(start, old(cache.entries), oks[..i])
        modifies call, cache
      {
        RunConcat(start, old(cache.entries), oks[..i], [oks[i]]);
        assert oks[..i] + [oks[i]] == oks[..i + 1];
        call.Step(oks[i]);
        i := i + 1;
      }
      RunConcat(start, old(cache.entries), oks[..i], oks[i..]);
      assert oks[..i] + oks[i..] == oks;
      if call.pc.Done? {
        DoneIsFinal(call.State(), cache.entries, oks[i..]);
        reply := Some(call.pc.reply);
      } else {
        assert oks[i..] == [];
        reply := None;
      }
    }
  }
}
