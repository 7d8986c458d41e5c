/** The storage engine that level-transaction is installed on: a key-value
    store with point reads and writes and atomic batches. Its on-disk format
    and ordering are not modelled; the store is a map, and whether a call
    fails is a parameter of that call. */
module Engine {

  type Key = string
  type Value = string

  datatype Option<T> = None | Some(value: T)

  /** The errors the engine reports: the key is absent, or any other failure
      (I/O, closed database, ...), described by its reason. */
  datatype DbError = NotFoundError | OtherError(reason: string)

  datatype Result<T> = Success(value: T) | Failure(error: DbError)

  /** The JavaScript values that may be passed as the optional arguments of
      txPut: nothing, a function (named, for identification only), or an
      options object that is handed to the engine unread. */
  datatype Arg = Undefined | Function(name: string) | Object(fields: map<string, string>)

  /** One operation of a batch: `{type: 'put', key, value}` or `{type: 'del', key}`. */
  datatype Op = PutOp(key: Key, value: Value) | DelOp(key: Key)

  /** A call made on the engine, recorded in the order it was issued. */
  datatype Call = GetCall(key: Key) | PutCall(key: Key, value: Value, opts: Arg) | BatchCall(ops: seq<Op>)

  /** What may sit in the `txPut` property of the database object: the
      library's own txPut bound to this database, or some other function. */
  datatype Attached = LibraryTxPut | OtherTxPut(name: string)

  /** The outcome of `get(key)` on store m; `fault` forces a failure other than NotFoundError. */
  function Read(m: map<Key, Value>, key: Key, fault: Option<string>): Result<Value>
  {
    if fault.Some? then Failure(OtherError(fault.value))
    else if key in m then Success(m[key])
    else Failure(NotFoundError)
  }

  function ApplyOp(m: map<Key, Value>, op: Op): map<Key, Value>
  {
    match op
    case PutOp(k, v) => m[k := v]
    case DelOp(k) => m - {k}
  }

  /** The store after applying the operations of a batch in order. */
  function ApplyBatch(m: map<Key, Value>, ops: seq<Op>): map<Key, Value>
    decreases |ops|
  {
    if ops == [] then m else ApplyBatch(ApplyOp(m, ops[0]), ops[1..])
  }

  /** The keys a batch mentions. */
  function KeysOf(ops: seq<Op>): set<Key>
    decreases |ops|
  {
    if ops == [] then {} else {ops[0].key} + KeysOf(ops[1..])
  }

  /** Stores a and b agree on key k: both lack it, or both hold the same value. */
  predicate SameAt(a: map<Key, Value>, b: map<Key, Value>, k: Key)
  {
    (k in a <==> k in b) && (k in a ==> a[k] == b[k])
  }

  /** Stores that agree on every key are equal. */
  lemma SameEverywhere(a: map<Key, Value>, b: map<Key, Value>)
    requires forall k :: SameAt(a, b, k)
    ensures a == b
  {
    assert a.Keys == b.Keys by {
      forall k | k in a.Keys ensures k in b.Keys { assert SameAt(a, b, k); }
      forall k | k in b.Keys ensures k in a.Keys { assert SameAt(a, b, k); }
    }
    forall k | k in a ensures a[k] == b[k] { assert SameAt(a, b, k); }
  }

  /** A batch leaves every key it does not mention as it was. */
  lemma {:induction false} BatchFrame(m: map<Key, Value>, ops: seq<Op>, k: Key)
    requires k !in KeysOf(ops)
    ensures SameAt(ApplyBatch(m, ops), m, k)
    decreases |ops|
  {
    if ops != [] {
      assert k != ops[0].key;
      assert SameAt(ApplyOp(m, ops[0]), m, k);
      BatchFrame(ApplyOp(m, ops[0]), ops[1..], k);
    }
  }

  /** A batch of one operation has exactly that operation's effect. */
  lemma {:induction false} BatchOfOne(m: map<Key, Value>, op: Op)
    ensures ApplyBatch(m, [op]) == ApplyOp(m, op)
    ensures KeysOf([op]) == {op.key}
  {
    assert [op][1..] == [];
  }

  /** The database object: the store's contents, the `txPut` property that
      `tx` attaches, and (for specification only) the calls made on it. */
  class Db {
    var data: map<Key, Value>
    var txPut: Option<Attached>
    ghost var calls: seq<Call>

    constructor (initial: map<Key, Value>)
      ensures data == initial && txPut == None && calls == []
    {
      data := initial;
      txPut := None;
      calls := [];
    }

    /** `db.get(key, cb)`: reads the key without changing the store. */
    method Get(key: Key, fault: Option<string>) returns (r: Result<Value>)
      modifies this`calls
      ensures r == Read(data, key, fault)
      ensures calls == old(calls) + [GetCall(key)]
    {
      r := Read(data, key, fault);
      calls := calls + [GetCall(key)];
    }

    /** `db.put(key, value, opts, cb)`: writes the key, or fails leaving the store as it was. */
    method Put(key: Key, value: Value, opts: Arg, fault: Option<string>) returns (err: Option<DbError>)
      modifies this`data, this`calls
      ensures fault.None? ==> err == None && data == old(data)[key := value]
      ensures fault.Some? ==> err == Some(OtherError(fault.value)) && data == old(data)
      ensures calls == old(calls) + [PutCall(key, value, opts)]
    {
      if fault.Some? {
        err := Some(OtherError(fault.value));
      } else {
        data := data[key := value];
        err := None;
      }
      calls := calls + [PutCall(key, value, opts)];
    }

    /** `db.batch(ops, cb)`: applies all operations, or none of them when it fails. */
    method Batch(ops: seq<Op>, fault: Option<string>) returns (err: Option<DbError>)
      modifies this`data, this`calls
      ensures fault.None? ==> err == None && data == ApplyBatch(old(data), ops)
      ensures fault.Some? ==> err == Some(OtherError(fault.value)) && data == old(data)
      ensures calls == old(calls) + [BatchCall(ops)]
    {
      if fault.Some? {
        err := Some(OtherError(fault.value));
      } else {
        data := ApplyBatch(data, ops);
        err := None;
      }
      calls := calls + [BatchCall(ops)];
    }
  }
}
