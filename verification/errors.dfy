/**
 * Native failures and the way the binding re-raises them.
 *
 * The engine signals a failure with a DOMException: an object with a symbolic
 * `name` ("NotFoundError", "InvalidStateError", ...) and a free-text `message`
 * that depends on the engine and the locale. The binding re-raises such a
 * fault as `new Error(e.name)`: a plain JavaScript Error, whose own `name` is
 * "Error" and whose `message` is the native name.
 */
module Errors {

  /** A JavaScript error object, seen through its `name` and `message` properties. */
  datatype JsError = JsError(name: string, message: string)

  /** The `name` every object built by `new Error(...)` carries. */
  const PlainErrorName: string := "Error"

  /** `new Error(e.name)`: the only part of the native fault that survives is its name. */
  function Rename(e: JsError): (r: JsError)
    ensures r.name == PlainErrorName
    ensures r.message == e.name
  {
    JsError(PlainErrorName, e.name)
  }

  /** Two faults are re-raised as the same error exactly when their names agree:
      the message is never consulted and the name is never lost. */
  lemma RenameDependsOnlyOnName(a: JsError, b: JsError)
    ensures Rename(a) == Rename(b) <==> a.name == b.name
  {
  }

  /** What a synchronous native call does: return a value or throw a fault. */
  datatype Native<+T> = Returned(value: T) | Threw(fault: JsError)

  /** What the binding's effect does: return a value or throw an error. */
  datatype Result<+T> = Ok(value: T) | Raised(error: JsError)

  /**
   * The guarded call `try { return native(); } catch (e) { throw new Error(e.name); }`
   * shared by `_close`, `_createObjectStore`, `_deleteObjectStore` and
   * `_transaction` of the database module and by `abort` and `_objectStore` of
   * the transaction module.
   */
  function Reraise<T>(n: Native<T>): (r: Result<T>)
    ensures r.Ok? <==> n.Returned?
    ensures r.Ok? ==> r.value == n.value
    ensures r.Raised? ==> r.error.name == PlainErrorName && r.error.message == n.fault.name
  {
    match n
    case Returned(v) => Ok(v)
    case Threw(f) => Raised(Rename(f))
  }

  /** Two native failures that differ only in their message are re-raised identically. */
  lemma ReraiseIgnoresMessage<T>(f: JsError, g: JsError)
    requires f.name == g.name
    ensures Reraise<T>(Threw(f)) == Reraise<T>(Threw(g))
  {
  }
}
