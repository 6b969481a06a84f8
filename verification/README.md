# purescript-indexedDB: key paths, mode and error decoding, and the index request bridge

This project models the part of the PureScript IndexedDB binding that has
logic of its own. Almost every function of the binding makes one native call.
The parts modelled here are the ones that decide something:

- **Key paths.** A PureScript key path is a list of strings. `_createObjectStore`
  encodes it for the engine: `undefined` for no element, the bare string for one
  element, the array for two or more (`KeyPaths.Encode`). Two getters decode a
  native key path back into a list:
  - the object store's `keyPath` passes arrays through and splits strings on `':'`
    (`KeyPaths.StoreKeyPath`);
  - the index's `_keyPath` passes arrays through, turns a non-empty string into a
    one-element list and everything else into `[]` (`KeyPaths.IndexKeyPath`).
    `src/Database/IndexedDB/IDBIndex/Internal.js:14-26` is the same code and is
    modelled by the same function.

  The round-trip lemmas say exactly which key paths survive the encoder followed
  by each getter. `StoreRoundTrip`: all except a one-element path whose element
  contains `':'`. `IndexRoundTrip`: all except `[""]`, which comes back as `[]`.
  `Split` and `Join` model `String.prototype.split` and `Array.prototype.join`
  with a one-character separator, and are proved inverse to each other.
- **Re-raising native failures.** Every guarded native call of the database and
  transaction modules (`_close`, `_createObjectStore`, `_deleteObjectStore`,
  `_transaction`, `abort`, `_objectStore`) has the shape
  `try { ... } catch (e) { throw new Error(e.name); }`. `Errors.Reraise` models it.
  `new Error(x)` is modelled as the JavaScript object it builds: `name` is
  `"Error"` and `message` is `x`.
- **Transaction getters.** `mode` decodes the engine's mode string and is total.
  `error` turns a nullable native error into an optional name-only error. Both
  build their results by calling PureScript constructors as plain functions,
  which as written returns `undefined`; the model uses the intended results
  and "## Findings" records the difference.
- **The index request bridge.** `IndexBridge.Aff` is one run of an `aff` function.
  It calls the engine, and if a request comes back it assigns the request's
  `onsuccess` and `onerror` slots (`IndexBridge.NativeRequest`). Events the engine
  later fires run the closure in the matching slot. Every call a continuation
  receives is recorded in `calls`, and the class keeps `calls` equal to the pure
  specification `Replay` of the creation outcome and the events so far. The four
  kinds of wrapper (`Bridge`) differ in three ways: whether a synchronous fault is
  caught, how errors are delivered, and whether cursor dispatch is used.

The engine is a parameter throughout. Native calls are a function argument or a
`Creation` outcome, and events are method calls on `Aff`. Engine values are
represented by `Value`, which tells `null` and `undefined` apart from a stored
value.

The model follows the code where it departs from the binding's intended design:
- Every bridged operation is meant to catch synchronous faults. The
  Internal module's `_get`, `_getKey`, `_getAllKeys`, `_openCursor` and
  `_openKeyCursor` do not, so a fault escapes `aff` (`Bridge.InternalUnguarded`,
  `SyncFaultTrace`).
- Key paths are meant never to be collapsed into a bare string. The code
  passes a one-element key path as a bare string, and the object-store getter
  re-splits it on `':'`.
- A bridged operation is meant to resolve exactly once. The Internal module's
  `_openCursor` and `_openKeyCursor` attach the one-shot success handler, so
  every cursor step calls `success` again (`InternalUnguardedResolvesPerEvent`).

## Model

| member | source | states |
|---|---|---|
| `Errors.Rename` | src/Database/IndexedDB/IDBDatabase.js:10-11 | the re-raised error is a plain `Error` whose message is the native error's name |
| `Errors.RenameDependsOnlyOnName` | src/Database/IndexedDB/IDBIndex/Internal.js:3 | two native errors are re-raised identically exactly when their names agree |
| `Errors.Reraise` | src/Database/IndexedDB/IDBDatabase.js:6-14 | a guarded call returns what the engine returned, and a native failure is re-raised as an error carrying only the native name |
| `Errors.ReraiseIgnoresMessage` | src/Database/IndexedDB/IDBDatabase.js:38-40 | failures that differ only in their message are re-raised identically |
| `KeyPaths.Encode` | src/Database/IndexedDB/IDBDatabase.js:24-33 | `[]` becomes `undefined` and never an empty array; one element becomes the bare string; two or more pass through as the same array; `null` is never produced |
| `KeyPaths.EncodeInjective` | src/Database/IndexedDB/IDBDatabase.js:21-33 | no two key paths get the same native form, so the three arities stay distinct |
| `KeyPaths.Split` | src/Database/IndexedDB/IDBObjectStore.js:21-23 | splitting gives at least one piece, and no piece contains the separator |
| `KeyPaths.JoinSplit` | src/Database/IndexedDB/IDBObjectStore.js:21-23 | joining the pieces of a split with the separator reproduces the string |
| `KeyPaths.SplitJoin` | src/Database/IndexedDB/IDBObjectStore.js:21-23 | splitting a join gives back any non-empty list of separator-free pieces |
| `KeyPaths.StoreKeyPath` | src/Database/IndexedDB/IDBObjectStore.js:14-26 | an array comes back unchanged; a string comes back as at least one separator-free piece whose join is the string; null and undefined give `[]` |
| `KeyPaths.StoreKeyPathOfPlainString` | src/Database/IndexedDB/IDBObjectStore.js:21-23 | a string without `':'`, including `""`, decodes to the one-element list of itself |
| `KeyPaths.IndexKeyPath` | src/Database/IndexedDB/IDBIndex.js:14-26 | an array comes back unchanged; a non-empty string gives the one-element list; `""`, null and undefined give `[]` |
| `KeyPaths.DecodersAgreeOnString` | src/Database/IndexedDB/IDBIndex.js:21-23 | on a string key path, the index and object-store getters agree exactly when the string is non-empty and contains no `':'` |
| `KeyPaths.StoreRoundTrip` | src/Database/IndexedDB/IDBObjectStore.js:14-26 | encoding then decoding with the object-store getter gives the key path back exactly when it is not a one-element path whose element contains `':'` |
| `KeyPaths.StoreRoundTripSplits` | src/Database/IndexedDB/IDBObjectStore.js:21-23 | a one-element path comes back as the split of its element, which has two or more pieces when the element contains `':'` |
| `KeyPaths.IndexRoundTrip` | src/Database/IndexedDB/IDBIndex.js:14-26 | encoding then decoding with the index getter gives the key path back exactly when it is not `[""]`, and `[""]` comes back as `[]` |
| `Transactions.ModeNameInjective` | src/Database/IndexedDB/IDBDatabase.js:97 | the engine names of the three modes are distinct |
| `Transactions.DecodeMode` | src/Database/IndexedDB/IDBTransaction.js:21-29 | `"readwrite"` gives ReadWrite and `"versionchange"` gives VersionChange, each exactly; every other string gives ReadOnly |
| `Transactions.ModeRoundTrip` | src/Database/IndexedDB/IDBTransaction.js:21-29 | every mode decodes back from its engine name; a string survives the opposite trip exactly when it is one of the three names |
| `Transactions.DecodeError` | src/Database/IndexedDB/IDBTransaction.js:15-19 | an absent (null or undefined) error is Nothing; a present one is Just of an error carrying only its name |
| `Transactions.DecodeErrorOnlyName` | src/Database/IndexedDB/IDBTransaction.js:18 | two present native errors decode identically exactly when their names agree |
| `Transactions.DecodeModeAsWritten` | src/Database/IndexedDB/IDBTransaction.js:21-29 | the mode getter as written: the same string tests, but no result is ever the intended mode |
| `Transactions.DecodeErrorAsWritten` | src/Database/IndexedDB/IDBTransaction.js:15-19 | the error getter as written: no result is ever the intended optional error |
| `Transactions.GettersReturnUndefinedAsWritten` | src/Database/IndexedDB/IDBTransaction.js:17-28 | as written both getters return `undefined` for every transaction and never a `Mode` |
| `Database.NativeOptions` | src/Database/IndexedDB/IDBDatabase.js:34-37 | `autoIncrement` is forwarded unchanged, and the key path is exactly its encoding: `undefined`, the bare single element, or the same array |
| `Database.NativeOptionsInjective` | src/Database/IndexedDB/IDBDatabase.js:18-37 | the PureScript options can be recovered from the native options object |
| `Database.CreateObjectStore` | src/Database/IndexedDB/IDBDatabase.js:16-42 | the engine receives the store name unchanged and the native options; its store is returned, or its failure is re-raised carrying only the name |
| `Database.Transaction` | src/Database/IndexedDB/IDBDatabase.js:94-102 | the engine receives the store names unchanged and the mode's engine name; its transaction is returned, or its failure is re-raised carrying only the name |
| `IndexBridge.SuccessHandlerOf` | src/Database/IndexedDB/IDBIndex.js:48 | every wrapper fills the `onsuccess` slot, and the cursor dispatcher is used exactly by the cursor wrappers |
| `IndexBridge.ErrorHandlerOf` | src/Database/IndexedDB/IDBIndex/Internal.js:49 | every wrapper fills the `onerror` slot: the pass-through handler for the index module's one-shot wrappers, the cursor handler for its cursor wrappers, and the name-only handler exactly for the Internal wrappers |
| `IndexBridge.OnSuccessEvent` | src/Database/IndexedDB/IDBIndex.js:127-133 | a success event delivers `e.target.result` to `success`; the cursor handler calls exactly one of `cb.onSuccess` (non-null result) and `cb.onComplete` (null result) |
| `IndexBridge.OnErrorEvent` | src/Database/IndexedDB/IDBIndex.js:1-5 | an error event delivers the native error to `error` (index module), `new Error(name)` and nothing else to `error` (Internal module), or the native error to `cb.onError` (cursor) |
| `IndexBridge.OnErrorEventAsWritten` | src/Database/IndexedDB/IDBIndex.js:134-136 | as written, an error event on a cursor request runs no callback, because `cb.onError(error)` is applied but its effect is not run; the other handlers are unchanged |
| `IndexBridge.CursorErrorDroppedAsWritten` | src/Database/IndexedDB/IDBIndex.js:159-161 | a cursor error event reaches no continuation as written, and exactly `cb.onError` once with the intended handler |
| `IndexBridge.CursorErrorSilentInTraceAsWritten` | src/Database/IndexedDB/IDBIndex.js:134-136 | as written an error event leaves a cursor request's trace unchanged, while the intended handler adds exactly one call |
| `IndexBridge.InternalUnguardedResolvesPerEvent` | src/Database/IndexedDB/IDBIndex/Internal.js:95-109 | the Internal wrappers call `success` once per success event and `error` (name only) once per error event, so the Internal cursor wrappers resolve `success` once per step |
| `IndexBridge.Begin` | src/Database/IndexedDB/IDBIndex.js:44-57 | handlers are attached exactly when the engine call did not throw; a guarded fault makes exactly one `error` call (with `new Error(name)` in the Internal `_count`) and no `success` call; only the unguarded Internal wrappers let it escape; the cursor wrappers call `success()` right after attaching |
| `IndexBridge.DispatchOneCall` | src/Database/IndexedDB/IDBIndex.js:48-49 | every event on an attached request makes exactly one continuation call |
| `IndexBridge.DispatchAllAt` | src/Database/IndexedDB/IDBIndex.js:127-136 | a sequence of events makes one call per event, in the same order |
| `IndexBridge.SyncFaultTrace` | src/Database/IndexedDB/IDBIndex/Internal.js:56-61 | after a synchronous fault, later events cannot call anything: the trace is one `error` call (guarded) or empty (unguarded), and never a `success` call |
| `IndexBridge.OneEventResolvesOnce` | src/Database/IndexedDB/IDBIndex/Internal.js:44-54 | a one-shot request whose single event fires resolves exactly once: success to `success`, error to `error`, name-only in the Internal module |
| `IndexBridge.CursorTrace` | src/Database/IndexedDB/IDBIndex.js:123-146 | the cursor wrappers call `success()` first and only once; after it, each event makes exactly one cursor callback in order, chosen by null or non-null result and by event kind (with the corrected error handler, see Findings) |
| `IndexBridge.CountArgument` | src/Database/IndexedDB/IDBIndex.js:94 | the falsy-count fallback gives `undefined` (no cap) exactly when the count is 0, and otherwise passes the count unchanged |
| `IndexBridge.Parameters` | src/Database/IndexedDB/IDBIndex/Internal.js:45 | `aff` takes `(error, success)` in the index module and `(success, error)` in the Internal module |
| `IndexBridge.NativeRequest.constructor` | src/Database/IndexedDB/IDBIndex.js:47 | a fresh request has both handler slots empty |
| `IndexBridge.Aff.Run` | src/Database/IndexedDB/IDBIndex.js:45-52 | running `aff` creates a request only when the engine call succeeds, assigns both slots, and makes exactly the synchronous calls `Begin` states |
| `IndexBridge.Aff.FireSuccess` | src/Database/IndexedDB/IDBIndex.js:7-11 | a success event runs the closure in the `onsuccess` slot, appends its call to the trace, and keeps the trace equal to `Replay` |
| `IndexBridge.Aff.FireError` | src/Database/IndexedDB/IDBIndex/Internal.js:1-5 | an error event runs the closure in the `onerror` slot, appends its call to the trace, and keeps the trace equal to `Replay` |
| `IndexBridge.Aff.Cancel` | src/Database/IndexedDB/IDBIndex.js:54-56 | the index module's canceler always refuses with "Can't cancel IDB Effects"; the Internal wrappers return no canceler |

## Left out

- `Call` records callbacks whose effects run. The cursor error handler as written applies `cb.onError` without running the effect it returns. The model records the run call, and "## Findings" describes the difference. The PureScript type of `cb` is not part of this model, so the finding assumes `onError` has the same curried effect type as `onSuccess`.

- `_close`, `_deleteObjectStore` (src/Database/IndexedDB/IDBDatabase.js), `abort` and `_objectStore` (src/Database/IndexedDB/IDBTransaction.js) have no separate members. Each is one native call wrapped exactly as `Errors.Reraise` states.
- The TransactionMode `Show` instance used by `_transaction` is PureScript code and is not part of this model. `Transactions.ModeName` uses the engine's three mode names.
- `Aff`'s continuations are assumed not to throw. In the cursor wrappers `success()` runs inside the `try`, so a throwing `success` would also reach `error`.
- IndexBridge.OneEventResolvesOnce: the engine's promise that a one-shot request fires a single event is a hypothesis of this lemma. `Aff` itself accepts any number of events.
- Engine values are opaque. `Value` only tells `null` and `undefined` apart from a stored value, and the native `e.target` is reduced to its `result` or `error`.
- Key ranges (src/Database/IndexedDB/IDBKeyRange.js) are left out: each function forwards to the engine, and `_bound` turns a thrown fault into `null`. There is no ordering logic to model.
- The cursor module (src/Database/IndexedDB/IDBCursor.js) is left out: each function is one native call, and `_source` is unfinished.
- Connection lifecycle is left out (src/Database/IndexedDB/IDBFactory.js and the `_onAbort`, `_onClose`, `_onError`, `_onVersionChange` handlers). It is asynchronous event plumbing on the global factory.
- The field getters `_name`, `_unique`, `_multiEntry`, `_objectStore` of the index, `name`, `autoIncrement`, `indexNames` of the object store, and `_name`, `_version`, `_objectStoreNames` of the database are left out. Each reads one field.
- src/Main.js, src/IDBDatabase.js and src/Core.js are older variants of the open wrapper and are not part of this model.
- The display helpers in src/Database/IndexedDB/Core.js rely on JavaScript string coercion and are left out.
- Date keys (src/Database/IndexedDB/IDBKey/Internal.js) depend on the JavaScript `Date` object and time zones and are left out.
- The test harness (src/Test/Spec/Mocha.js, karma.conf.js) is left out.
- Index creation is not part of this model: no modelled file creates an index, so whether an index's key path is encoded the way `_createObjectStore` encodes it is not modelled. `KeyPaths.IndexRoundTrip` applies the index getter to the encoder's output.

## Findings

| source | as written | input that shows it | evidently intended | confidence | as-written member | corrected member |
|---|---|---|---|---|---|---|
| src/Database/IndexedDB/IDBIndex.js:135 | `cb.onError(e.target.error)` builds the callback's effect and never runs it, unlike `cb.onSuccess(e.target.result)()` two lines above; the same holds at line 160 | any error event on a request from `_openCursor` or `_openKeyCursor` | run the effect, so `cb.onError` receives the error | not executed; medium, because it assumes `onError` returns an effect like `onSuccess` does | `IndexBridge.OnErrorEventAsWritten` | `IndexBridge.OnErrorEvent` |
| src/Database/IndexedDB/IDBTransaction.js:21-29 | `Core.ReadWrite()`, `Core.VersionChange()` and `Core.ReadOnly()` call compiled PureScript constructors as plain functions, which return `undefined` | any transaction, e.g. one whose mode is "readwrite" | build the values (`Core.ReadWrite.value`, ...), so `mode` gives ReadWrite | not executed; medium, because it assumes the standard compiled form of the Core module, which is not part of this model | `Transactions.DecodeModeAsWritten` | `Transactions.DecodeMode` |
| src/Database/IndexedDB/IDBTransaction.js:15-19 | `Maybe.Nothing()` and `Maybe.Just(new Error(...))` call compiled PureScript constructors as plain functions, which return `undefined` | any transaction, with or without an error | build the values (`Maybe.Nothing.value`, `Maybe.Just.create(...)`), so `error` gives Nothing or Just | not executed; medium, because it assumes the standard compiled form of Data.Maybe, which is not part of this model | `Transactions.DecodeErrorAsWritten` | `Transactions.DecodeError` |
