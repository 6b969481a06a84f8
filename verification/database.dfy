/**
 * The database wrappers that do more than one native call: creating an
 * object store (which encodes the key path) and beginning a transaction
 * (which names the mode). The engine is a parameter: a function from the
 * arguments of the native call to what that call does.
 */
module Database {
  import opened Errors
  import opened KeyPaths
  import opened Transactions

  /** The PureScript options record given to `createObjectStore`. */
  datatype StoreOptions = StoreOptions(keyPath: seq<string>, autoIncrement: bool)

  /** The options object passed to the engine's `createObjectStore`. */
  datatype NativeStoreOptions = NativeStoreOptions(autoIncrement: bool, keyPath: NativeKeyPath)

  /** The options object built by `_createObjectStore`: `autoIncrement` is
      forwarded unchanged and the key path is encoded. */
  function NativeOptions(opts: StoreOptions): (o: NativeStoreOptions)
    ensures o.autoIncrement == opts.autoIncrement
    ensures o.keyPath.Undefined? <==> opts.keyPath == []
    ensures o.keyPath.Str? <==> |opts.keyPath| == 1
    ensures o.keyPath.Str? ==> o.keyPath.path == opts.keyPath[0]
    ensures o.keyPath.Arr? ==> |opts.keyPath| >= 2 && o.keyPath.paths == opts.keyPath
    ensures o.keyPath == Encode(opts.keyPath)
  {
    NativeStoreOptions(opts.autoIncrement, Encode(opts.keyPath))
  }

  /**
   * `_createObjectStore(db, name, opts)`: the engine is called with the store
   * name unchanged and the native options; its store is returned, and a
   * native failure is re-raised carrying only its name.
   */
  function CreateObjectStore<S>(create: (string, NativeStoreOptions) -> Native<S>,
                                name: string, opts: StoreOptions): (r: Result<S>)
    ensures r.Ok? <==> create(name, NativeOptions(opts)).Returned?
    ensures r.Ok? ==> r.value == create(name, NativeOptions(opts)).value
    ensures r.Raised? ==> r.error == Rename(create(name, NativeOptions(opts)).fault)
  {
    Reraise(create(name, NativeOptions(opts)))
  }

  /** The store options reach the engine in a form from which the PureScript
      options can be recovered exactly. */
  lemma NativeOptionsInjective(a: StoreOptions, b: StoreOptions)
    requires NativeOptions(a) == NativeOptions(b)
    ensures a == b
  {
  }

  /**
   * `_transaction(show, db, stores, mode)`: the engine is called with the
   * store names unchanged and the mode's engine name; a native failure is
   * re-raised carrying only its name.
   */
  function Transaction<T>(begin: (seq<string>, string) -> Native<T>,
                          stores: seq<string>, mode: Mode): (r: Result<T>)
    ensures r.Ok? <==> begin(stores, ModeName(mode)).Returned?
    ensures r.Ok? ==> r.value == begin(stores, ModeName(mode)).value
    ensures r.Raised? ==> r.error == Rename(begin(stores, ModeName(mode)).fault)
  {
    Reraise(begin(stores, ModeName(mode)))
  }
}
