/** The level-transaction wrapper: `tx(db)` attaches `txPut` to a database,
    and `txPut` writes one key after recording how to undo the write, handing
    back a handle whose `rollback` undoes it and whose `commit` keeps it. */
module LevelTransaction {

  import opened Engine

  /** The value of `db.txPut` after `tx(db)`: a property already present is
      kept, otherwise the library's txPut is attached. Since the result is
      always present, installing again changes nothing. */
  function InstallTxPut(slot: Option<Attached>): (r: Option<Attached>)
    ensures r.Some?
    ensures slot.Some? ==> r == slot
    ensures slot.None? ==> r == Some(LibraryTxPut)
  {
    if slot.Some? then slot else Some(LibraryTxPut)
  }

  /** `tx(db)`: attaches txPut unless the database already has one, and returns the database. */
  method Tx(db: Db) returns (r: Db)
    modifies db`txPut
    ensures r == db
    ensures old(db.txPut).Some? ==> db.txPut == old(db.txPut)
    ensures db.txPut == InstallTxPut(old(db.txPut))
  {
    db.txPut := InstallTxPut(db.txPut);
    r := db;
  }

  /** The optional arguments of `txPut(key, value, opts, cb)`: when `opts` is
      a function it is the callback, and no options are passed on. Returns
      the options handed to the engine and the callback that gets the result. */
  function NormalizeArgs(opts: Arg, cb: Arg): (r: (Arg, Arg))
    ensures !r.0.Function?
    ensures opts.Function? ==> r == (Undefined, opts)
    ensures !opts.Function? ==> r == (opts, cb)
  {
    if opts.Function? then (Undefined, opts) else (opts, cb)
  }

  /** The rollback log built from the outcome of the read that precedes the
      write: one entry for the key, a delete when the key was absent and a put
      of the prior value when it was present. Any other read error aborts. */
  function RollbackLog(key: Key, prior: Result<Value>): (r: Result<seq<Op>>)
    ensures prior.Failure? && prior.error != NotFoundError <==> r.Failure?
    ensures r.Failure? ==> r.error == prior.error
    ensures r.Success? ==> |r.value| == 1 && r.value[0].key == key
    ensures prior == Failure(NotFoundError) ==> r == Success([DelOp(key)])
    ensures prior.Success? ==> r == Success([PutOp(key, prior.value)])
  {
    match prior
    case Success(v) => Success([PutOp(key, v)])
    case Failure(NotFoundError) => Success([DelOp(key)])
    case Failure(e) => Failure(e)
  }

  /** Applied to any store s, the log built by reading key from m puts key
      back into m's state and leaves every other key of s as it is. */
  lemma RollbackRestoresKey(m: map<Key, Value>, s: map<Key, Value>, key: Key)
    ensures RollbackLog(key, Read(m, key, None)).Success?
    ensures SameAt(ApplyBatch(s, RollbackLog(key, Read(m, key, None)).value), m, key)
    ensures forall k :: k != key ==> SameAt(ApplyBatch(s, RollbackLog(key, Read(m, key, None)).value), s, k)
  {
    var log := RollbackLog(key, Read(m, key, None)).value;
    BatchOfOne(s, log[0]);
    assert log == [log[0]];
    forall k | k != key
      ensures SameAt(ApplyBatch(s, log), s, k)
    {
      BatchFrame(s, log, k);
    }
  }

  /** The round trip: rolling back right after txPut(key, value) on store m gives m back exactly. */
  lemma RollbackRestores(m: map<Key, Value>, key: Key, value: Value)
    ensures RollbackLog(key, Read(m, key, None)).Success?
    ensures ApplyBatch(m[key := value], RollbackLog(key, Read(m, key, None)).value) == m
  {
    var s := m[key := value];
    var t := ApplyBatch(s, RollbackLog(key, Read(m, key, None)).value);
    RollbackRestoresKey(m, s, key);
    forall k
      ensures SameAt(t, m, k)
    {
      if k != key {
        assert SameAt(t, s, k);
      }
    }
    SameEverywhere(t, m);
  }

  /** Applying the rollback log a second time changes nothing more. */
  lemma RollbackIdempotent(m: map<Key, Value>, s: map<Key, Value>, key: Key)
    ensures RollbackLog(key, Read(m, key, None)).Success?
    ensures var log := RollbackLog(key, Read(m, key, None)).value;
            ApplyBatch(ApplyBatch(s, log), log) == ApplyBatch(s, log)
  {
    var log := RollbackLog(key, Read(m, key, None)).value;
    var t := ApplyBatch(s, log);
    var u := ApplyBatch(t, log);
    RollbackRestoresKey(m, s, key);
    RollbackRestoresKey(m, t, key);
    forall k
      ensures SameAt(u, t, k)
    {
      if k == key {
        assert SameAt(u, m, k) && SameAt(t, m, k);
      } else {
        assert SameAt(u, t, k);
      }
    }
    SameEverywhere(u, t);
  }

  /** The object handed to txPut's callback. It keeps the database and the
      rollback log; it has no state of its own, so either operation may be
      called, and called again, at any time. */
  class TxHandle {
    const db: Db
    const rollbackBatch: seq<Op>

    constructor (db: Db, rollbackBatch: seq<Op>)
      ensures this.db == db && this.rollbackBatch == rollbackBatch
    {
      this.db := db;
      this.rollbackBatch := rollbackBatch;
    }

    /** `commit(cb)`: the write is already in the store, so this only reports success. */
    method Commit() returns (err: Option<DbError>)
      ensures err == None
    {
      err := None;
    }

    /** `rollback(cb)`: applies the rollback log as one batch and reports the batch's outcome. */
    method Rollback(fault: Option<string>) returns (err: Option<DbError>)
      modifies db`data, db`calls
      ensures fault.None? ==> err == None && db.data == ApplyBatch(old(db.data), rollbackBatch)
      ensures fault.Some? ==> err == Some(OtherError(fault.value)) && db.data == old(db.data)
      ensures db.calls == old(db.calls) + [BatchCall(rollbackBatch)]
    {
      err := db.Batch(rollbackBatch, fault);
    }
  }

  /** `db.txPut(key, value, [opts,] cb)`. The callback chosen by NormalizeArgs
      is returned as `notified`, with `r` the error or handle it receives.
      `readFault` and `writeFault` make the engine's get and put fail. */
  method TxPut(db: Db, key: Key, value: Value, opts: Arg, cb: Arg,
               readFault: Option<string>, writeFault: Option<string>)
    returns (notified: Arg, r: Result<TxHandle>)
    modifies db`data, db`calls
    ensures notified == NormalizeArgs(opts, cb).1
    ensures r.Success? ==> fresh(r.value) && r.value.db == db
    ensures match RollbackLog(key, Read(old(db.data), key, readFault))
      case Failure(e) =>
        // the read failed: no write is issued
        && r == Failure(e)
        && db.data == old(db.data)
        && db.calls == old(db.calls) + [GetCall(key)]
      case Success(log) =>
        // the log is taken from the store before the write, which follows the read
        && db.calls == old(db.calls) + [GetCall(key), PutCall(key, value, NormalizeArgs(opts, cb).0)]
        && (writeFault.Some? ==> r == Failure(OtherError(writeFault.value)) && db.data == old(db.data))
        && (writeFault.None? ==> r.Success? && r.value.rollbackBatch == log && db.data == old(db.data)[key := value])
  {
    var forwarded: Arg;
    forwarded, notified := NormalizeArgs(opts, cb).0, NormalizeArgs(opts, cb).1;

    var rollbackBatch: seq<Op> := [];
    var prior := db.Get(key, readFault);
    var entry: Op;
    if prior.Failure? {
      if prior.error != NotFoundError {
        return notified, Failure(prior.error);
      }
      entry := DelOp(key);
    } else {
      entry := PutOp(key, prior.value);
    }
    rollbackBatch := rollbackBatch + [entry];

    var err := db.Put(key, value, forwarded, writeFault);
    if err.Some? {
      return notified, Failure(err.value);
    }
    var handle := new TxHandle(db, rollbackBatch);
    r := Success(handle);
  }

  /** A put that is committed leaves the new value in the store. */
  method PutThenCommit(db: Db, key: Key, value: Value) returns (err: Option<DbError>)
    modifies db`data, db`calls
    ensures err == None
    ensures db.data == old(db.data)[key := value]
    ensures key in db.data && db.data[key] == value
  {
    var _, r := TxPut(db, key, value, Function("cb"), Undefined, None, None);
    var handle := r.value;
    err := handle.Commit();
  }

  /** A put that is rolled back leaves the store exactly as before: a key that
      was absent is absent again, and no other key changes. */
  method PutThenRollback(db: Db, key: Key, value: Value) returns (err: Option<DbError>)
    modifies db`data, db`calls
    ensures err == None
    ensures db.data == old(db.data)
    ensures key !in old(db.data) ==> key !in db.data
  {
    var _, r := TxPut(db, key, value, Function("cb"), Undefined, None, None);
    var handle := r.value;
    err := handle.Rollback(None);
    RollbackRestores(old(db.data), key, value);
  }

  /** Commit does not disarm the handle: a rollback after it still undoes the put. */
  method PutCommitThenRollback(db: Db, key: Key, value: Value) returns (err: Option<DbError>)
    modifies db`data, db`calls
    ensures err == None
    ensures db.data == old(db.data)
  {
    var _, r := TxPut(db, key, value, Function("cb"), Undefined, None, None);
    var handle := r.value;
    err := handle.Commit();
    err := handle.Rollback(None);
    RollbackRestores(old(db.data), key, value);
  }
}
