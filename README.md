# level-transaction, modelled in Dafny

level-transaction wraps a LevelDB database object. `tx(db)` attaches a
`txPut` method to the database, unless it already has one. `txPut(key, value,
[opts,] cb)` is a pseudo-transaction on a single key. It reads the key's
current state and turns the read into a one-entry rollback log: a `del` if the
key was absent, or a `put` of the prior value if it was present. Then it
writes the new value. Finally it hands the callback an object with `commit`
and `rollback`. `commit` only reports success. `rollback` applies the log as
one batch, which puts the store back as it was.

The model has two modules:

- `Engine` (engine.dfy) is the storage engine. The store is a map from keys to
  values, held in the `data` field of the class `Db`. `Get`, `Put` and `Batch`
  are methods of `Db`. Each takes a `fault` parameter that makes the call fail
  with an error other than `NotFoundError`. A failed `Put` or `Batch` leaves the
  store unchanged. `Batch` applies its operations in order, or none of them.
  The ghost field `calls` records every engine call in the order it was made.
  Contracts use it to say which calls were issued, and when.
- `LevelTransaction` (level_transaction.dfy) is `index.js`. `Tx` and
  `InstallTxPut` model `tx`. `TxPut` models `txPut`, with its callbacks
  flattened into sequential steps. Its result is the value its callback
  receives. `TxHandle` is the object passed to that callback. The pure function
  `RollbackLog` specifies how the rollback log is built. The lemmas prove that
  applying the log restores the key's prior state and touches no other key.

Where the code differs from a fuller transaction design, the model follows the
code. There is no lock table and no timeout. The handle has no state, so
`commit` does not disarm `rollback`: a rollback after a commit still undoes
the write (`PutCommitThenRollback`). `rollback` may also be called more than
once. Doing so right away changes nothing more (`RollbackIdempotent`).

## Model

| member | source | states |
|---|---|---|
| LevelTransaction.InstallTxPut | index.js:3 | the `txPut` property is always present afterwards; a property that was present is kept unchanged, so installing twice is the same as installing once |
| LevelTransaction.Tx | index.js:2-5 | `tx(db)` returns `db`; an existing `txPut` is never overwritten; only the `txPut` property changes |
| LevelTransaction.NormalizeArgs | index.js:8-11 | when `opts` is a function it becomes the callback and the options become undefined; the options passed to the engine are never a function |
| LevelTransaction.RollbackLog | index.js:16-26 | a NotFoundError read gives the single entry `del key`; a successful read gives `put key <prior value>`; any other error aborts with that same error; a log that is produced has exactly one entry, for the target key |
| LevelTransaction.TxPut | index.js:7-43 | the key is read first. If the read fails with an error other than NotFoundError, the callback gets that error, no put is issued and the store is unchanged. Otherwise the log is built from the store as it was before the write, and the put follows with the normalized options. A failed put passes its error on, produces no handle and leaves the store unchanged. A successful put maps the key to the new value and yields a fresh handle holding that log |
| LevelTransaction.TxHandle.Commit | index.js:34-36 | commit reports success and changes nothing |
| LevelTransaction.TxHandle.Rollback | index.js:37-39 | rollback issues one batch of the rollback log; on success the store is the log applied to it; on failure the store is unchanged and the batch's error is reported |
| LevelTransaction.RollbackRestoresKey | index.js:17-39 | on any later store, applying the log built from store m puts the key back to its state in m (absent again if it was absent, otherwise its prior value) and leaves every other key as it is |
| LevelTransaction.RollbackRestores | index.js:16-39 | round trip: the log applied to the store right after the write gives back exactly the store from before txPut |
| LevelTransaction.RollbackIdempotent | index.js:37-39 | applying the rollback log twice gives the same store as applying it once |
| LevelTransaction.PutThenCommit | test/index.js:24-38 | txPut then commit succeeds and leaves the key mapped to the new value, with every other key unchanged |
| LevelTransaction.PutThenRollback | test/index.js:40-54 | txPut then rollback succeeds and leaves the store exactly as before; a key that was absent is absent again |
| LevelTransaction.PutCommitThenRollback | index.js:33-40 | a rollback after a commit on the same handle still restores the store from before txPut |
| Engine.Db.Get | index.js:17 | a read reports the stored value, NotFoundError for an absent key, or the injected failure; it does not change the store |
| Engine.Db.Put | index.js:31 | a put maps the key to the value, or fails with the store unchanged; the options are passed through unread |
| Engine.Db.Batch | index.js:38 | a batch applies all its operations in order, or fails with the store unchanged |
| Engine.BatchFrame | index.js:38 | a batch leaves every key it does not mention unchanged |
| Engine.BatchOfOne | index.js:26 | a one-entry batch has exactly that entry's effect and mentions only that entry's key |

## Left out

- The storage engine itself (LevelDB): its on-disk format, key ordering and iteration. It is a map here, and whether each call fails is a parameter.
- Engine.Db.Get: an injected read failure is always an error other than NotFoundError. NotFoundError comes only from an absent key, so the engine never claims that a present key is missing.
- How the engine marks "not found" (`err.type === 'NotFoundError'`) is the constructor `NotFoundError`. Engine versions that mark it differently are not modelled.
- Asynchronous callbacks and the event loop: each callback becomes the next sequential step. `TxPut` returns the value its callback receives, together with which callback that is.
- LevelTransaction.Tx: a `txPut` property that is present but falsy (`null`, `false`, `0`) counts as absent (`None`), since `||` replaces it.
- The options object is passed to `db.put` unread, as an opaque value (`Arg.Object`).
- Calling `txPut` with no callback at all, which throws in JavaScript, is not modelled.
- The unused `args` variable of `txPut` has no behaviour to model.
- Locking, `txGet`, `txBatch`, `txDel`, the `txTimeout` auto-rollback, read/key/value/write stream gating and the `commit`/`rollback` events. The tests call these, but `index.js` does not implement them.
