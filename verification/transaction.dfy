/**
 * The transaction getters: the access mode, decoded from the engine's mode
 * string, and the transaction's error, decoded from a nullable native field.
 */
module Transactions {
  import opened Wrappers
  import opened Errors

  /** The three access modes of the Indexed Database API. */
  datatype Mode = ReadOnly | ReadWrite | VersionChange

  /** The engine's name for each mode (what the binding passes to
      `db.transaction` and what `tx.mode` reports). */
  function ModeName(m: Mode): (s: string)
  {
    match m
    case ReadOnly => "readonly"
    case ReadWrite => "readwrite"
    case VersionChange => "versionchange"
  }

  /** The three mode names are distinct. */
  lemma ModeNameInjective(m: Mode, n: Mode)
    requires ModeName(m) == ModeName(n)
    ensures m == n
  {
  }

  /**
   * `mode(tx)`: "readwrite" and "versionchange" are recognised; every other
   * string, "readonly" and unknown strings alike, falls back to read-only,
   * so the decoder is total.
   */
  function DecodeMode(s: string): (m: Mode)
    ensures m == ReadWrite <==> s == "readwrite"
    ensures m == VersionChange <==> s == "versionchange"
    ensures m == ReadOnly <==> s != "readwrite" && s != "versionchange"
  {
    if s == "readwrite" then ReadWrite
    else if s == "versionchange" then VersionChange
    else ReadOnly
  }

  /** Every mode survives the trip through its engine name, and a string
      survives the opposite trip exactly when it is one of the three names. */
  lemma ModeRoundTrip(m: Mode, s: string)
    ensures DecodeMode(ModeName(m)) == m
    ensures ModeName(DecodeMode(s)) == s <==> s in {"readonly", "readwrite", "versionchange"}
  {
  }

  /**
   * `error(tx)`: a null or undefined `tx.error` (both are `None` here) is
   * `Nothing`; a present error is re-raised as `new Error(name)`.
   */
  function DecodeError(txError: Option<JsError>): (r: Option<JsError>)
    ensures r.None? <==> txError.None?
    ensures r.Some? ==> r.value.name == PlainErrorName && r.value.message == txError.value.name
  {
    match txError
    case None => None
    case Some(e) => Some(Rename(e))
  }

  /** The decoded error depends on the native error's name alone. */
  lemma DecodeErrorOnlyName(a: JsError, b: JsError)
    ensures DecodeError(Some(a)) == DecodeError(Some(b)) <==> a.name == b.name
  {
    RenameDependsOnlyOnName(a, b);
  }

  /** What a JavaScript call returns: `undefined`, or a PureScript value. */
  datatype JsReturn<+T> = ReturnsUndefined | Returns(value: T)

  /**
   * A compiled PureScript data constructor called as a plain function
   * (`Core.ReadWrite()`, `Maybe.Just(x)`): the constructor function has an
   * empty body, so without `new` (or `.value` / `.create`) the call returns
   * `undefined` whatever it was meant to build.
   */
  function CallConstructor<T>(intended: T): (r: JsReturn<T>)
    ensures r != Returns(intended)
  {
    ReturnsUndefined
  }

  /** `mode(tx)` as written: the same string tests, each arm calling a
      constructor as a plain function. */
  function DecodeModeAsWritten(s: string): (r: JsReturn<Mode>)
    ensures r != Returns(DecodeMode(s))
  {
    if s == "readwrite" then CallConstructor(ReadWrite)
    else if s == "versionchange" then CallConstructor(VersionChange)
    else CallConstructor(ReadOnly)
  }

  /** `error(tx)` as written: `Maybe.Nothing()` or `Maybe.Just(new Error(name))`
      called as plain functions. */
  function DecodeErrorAsWritten(txError: Option<JsError>): (r: JsReturn<Option<JsError>>)
    ensures r != Returns(DecodeError(txError))
  {
    match txError
    case None => CallConstructor(None)
    case Some(e) => CallConstructor(Some(Rename(e)))
  }

  /** As written both getters return `undefined` for every transaction, so
      neither ever yields the mode or the optional error it was meant to. */
  lemma GettersReturnUndefinedAsWritten(s: string, txError: Option<JsError>)
    ensures DecodeModeAsWritten(s) == ReturnsUndefined
    ensures DecodeErrorAsWritten(txError) == ReturnsUndefined
    ensures forall m: Mode :: DecodeModeAsWritten(s) != Returns(m)
  {
  }
}
