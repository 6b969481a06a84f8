/**
 * The request bridge of the index module and of its Internal variant.
 *
 * Each bridged operation is an `aff(...)` function: it calls the engine
 * (`index.count`, `index.get`, `index.openCursor`, ...), which either throws
 * synchronously or returns a request object; the bridge then assigns the
 * request's `onsuccess` and `onerror` slots, and the engine later fires
 * events on the request, each of which runs the handler in its slot. The
 * continuations (`success`, `error`, and the cursor callbacks `cb.onSuccess`,
 * `cb.onComplete`, `cb.onError`) are recorded as a trace of calls.
 */
module IndexBridge {
  import opened Wrappers
  import opened Errors

  /** `e.target.result` as delivered by the engine: `undefined`, `null` or a stored value. */
  datatype Value = NoResult | NullResult | Stored(repr: string)

  /** The values for which the JavaScript test `v != null` is false. */
  predicate IsNullish(v: Value) {
    v.NoResult? || v.NullResult?
  }

  /** The wrappers, grouped by how they are written. */
  datatype Bridge =
    | Request           // index module: _count, _get, _getKey, _getAllKeys
    | Cursor            // index module: _openCursor, _openKeyCursor
    | InternalCount     // Internal module: _count
    | InternalUnguarded // Internal module: _get, _getKey, _getAllKeys, _openCursor, _openKeyCursor
                        // (its cursor wrappers attach the one-shot success handler too)

  /** One call of a continuation. */
  datatype Call =
    | Success(result: Value)        // aff's `success`
    | Failure(error: JsError)       // aff's `error`
    | OnRecord(cursor: Value)       // `cb.onSuccess(cursor)`
    | OnComplete                    // `cb.onComplete()`
    | OnCursorError(error: JsError) // `cb.onError(error)`

  /** The closure held by a request's `onsuccess` slot. */
  datatype SuccessHandler =
    | NoSuccessHandler
    | DeliverResult   // successHandler(success)
    | DispatchCursor  // the cursor operations' inline onSuccess

  /** The closure held by a request's `onerror` slot. */
  datatype ErrorHandler =
    | NoErrorHandler
    | DeliverError       // errorHandler(error) of the index module: the native error itself
    | DeliverErrorName   // errorHandler(error) of the Internal module: `new Error(name)`
    | DeliverCursorError // the cursor operations' inline onError

  /** The `onsuccess` closure each wrapper assigns. */
  function SuccessHandlerOf(b: Bridge): (h: SuccessHandler)
    ensures h != NoSuccessHandler
    ensures h == DispatchCursor <==> b.Cursor?
  {
    if b.Cursor? then DispatchCursor else DeliverResult
  }

  /** The `onerror` closure each wrapper assigns. */
  function ErrorHandlerOf(b: Bridge): (h: ErrorHandler)
    ensures h != NoErrorHandler
    ensures h == DeliverErrorName <==> (b.InternalCount? || b.InternalUnguarded?)
    ensures b.Request? ==> h == DeliverError
    ensures b.Cursor? ==> h == DeliverCursorError
  {
    match b
    case Request => DeliverError
    case Cursor => DeliverCursorError
    case _ => DeliverErrorName
  }

  /**
   * What the closure in `onsuccess` does with a success event. An assigned
   * handler makes exactly one call; the cursor handler sends a non-null
   * result to `cb.onSuccess` and a null one to `cb.onComplete`, never both.
   */
  function OnSuccessEvent(h: SuccessHandler, result: Value): (calls: seq<Call>)
    ensures h.NoSuccessHandler? <==> calls == []
    ensures h == DeliverResult ==> calls == [Success(result)]
    ensures h == DispatchCursor ==> |calls| == 1
    ensures h == DispatchCursor ==> (calls[0].OnRecord? <==> !IsNullish(result))
    ensures h == DispatchCursor ==> (calls[0].OnComplete? <==> IsNullish(result))
    ensures h == DispatchCursor && !IsNullish(result) ==> calls[0].cursor == result
  {
    match h
    case NoSuccessHandler => []
    case DeliverResult => [Success(result)]
    case DispatchCursor => if !IsNullish(result) then [OnRecord(result)] else [OnComplete]
  }

  /**
   * What the closure in `onerror` does with an error event: the index
   * module passes `e.target.error` through, the Internal module keeps only
   * its name, and the cursor handler passes it to `cb.onError`.
   */
  function OnErrorEvent(h: ErrorHandler, error: JsError): (calls: seq<Call>)
    ensures h.NoErrorHandler? <==> calls == []
    ensures h == DeliverError ==> calls == [Failure(error)]
    ensures h == DeliverErrorName ==> calls == [Failure(Rename(error))]
    ensures h == DeliverCursorError ==> calls == [OnCursorError(error)]
  {
    match h
    case NoErrorHandler => []
    case DeliverError => [Failure(error)]
    case DeliverErrorName => [Failure(Rename(error))]
    case DeliverCursorError => [OnCursorError(error)]
  }

  /** What the engine's `index.count(...)`, `index.get(...)`, ... call did. */
  datatype Creation = Created | Faulted(fault: JsError)

  /**
   * What `aff` does before returning: whether a request exists with its
   * handlers attached, the continuation calls made synchronously, and the
   * fault that escapes `aff` itself, if any.
   */
  datatype Start = Start(attached: bool, calls: seq<Call>, escaped: Option<JsError>)

  function Begin(b: Bridge, c: Creation): (s: Start)
    // a request exists, and handlers are attached, exactly when the engine call did not throw
    ensures s.attached <==> c.Created?
    // only the cursor wrappers call `success()`, right after attaching, with no argument
    ensures c.Created? ==> s.calls == (if b.Cursor? then [Success(NoResult)] else [])
    ensures c.Created? ==> s.escaped.None?
    // only the unguarded Internal wrappers let a synchronous fault escape
    ensures c.Faulted? ==> (s.escaped.Some? <==> b.InternalUnguarded?)
    ensures s.escaped.Some? ==> s.escaped.value == c.fault && s.calls == []
    // every guarded wrapper turns it into exactly one call of `error`, never of `success`
    ensures c.Faulted? && !b.InternalUnguarded? ==> |s.calls| == 1 && s.calls[0].Failure?
    ensures c.Faulted? && b.InternalCount? ==> s.calls == [Failure(Rename(c.fault))]
    ensures c.Faulted? && (b.Request? || b.Cursor?) ==> s.calls[0].error == c.fault
  {
    match c
    case Created => Start(true, if b.Cursor? then [Success(NoResult)] else [], None)
    case Faulted(f) =>
      match b
      case InternalUnguarded => Start(false, [], Some(f))
      case InternalCount => Start(false, [Failure(Rename(f))], None)
      case _ => Start(false, [Failure(f)], None)
  }

  /** An event the engine fires on a request. */
  datatype Event = SuccessEvent(result: Value) | ErrorEvent(error: JsError)

  /** One event, handled by the closure in its own slot. */
  function Dispatch(b: Bridge, ev: Event): (calls: seq<Call>)
  {
    match ev
    case SuccessEvent(result) => OnSuccessEvent(SuccessHandlerOf(b), result)
    case ErrorEvent(error) => OnErrorEvent(ErrorHandlerOf(b), error)
  }

  /** Every event on an attached request makes exactly one call. */
  lemma DispatchOneCall(b: Bridge, ev: Event)
    ensures |Dispatch(b, ev)| == 1
  {
  }

  /**
   * The cursor wrappers' `onerror` closure as written: `cb.onError(e.target.error)`
   * applies the callback but, unlike `cb.onSuccess(...)()` beside it, does not
   * run the effect it returns, so no callback runs. The rest of the model uses
   * the evidently intended `OnErrorEvent`, which runs `cb.onError`.
   */
  function OnErrorEventAsWritten(h: ErrorHandler, error: JsError): (calls: seq<Call>)
    ensures h == DeliverCursorError ==> calls == []
    ensures h != DeliverCursorError ==> calls == OnErrorEvent(h, error)
  {
    if h == DeliverCursorError then [] else OnErrorEvent(h, error)
  }

  /** An error event on a cursor request: as written it reaches no
      continuation at all, while the intended handler reports it to
      `cb.onError` exactly once. */
  lemma CursorErrorDroppedAsWritten(error: JsError)
    ensures OnErrorEventAsWritten(ErrorHandlerOf(Cursor), error) == []
    ensures OnErrorEvent(ErrorHandlerOf(Cursor), error) == [OnCursorError(error)]
  {
  }

  /** The calls made by a sequence of events, in order. */
  function DispatchAll(b: Bridge, events: seq<Event>): (calls: seq<Call>)
    decreases |events|
  {
    if events == [] then []
    else DispatchAll(b, events[..|events| - 1]) + Dispatch(b, events[|events| - 1])
  }

  /** The calls made by a sequence of events with the cursor error handler as written. */
  function DispatchAllAsWritten(b: Bridge, events: seq<Event>): (calls: seq<Call>)
    decreases |events|
  {
    if events == [] then []
    else
      var ev := events[|events| - 1];
      DispatchAllAsWritten(b, events[..|events| - 1]) +
        match ev
        case SuccessEvent(result) => OnSuccessEvent(SuccessHandlerOf(b), result)
        case ErrorEvent(error) => OnErrorEventAsWritten(ErrorHandlerOf(b), error)
  }

  /** As written, an error event on a cursor request leaves the whole trace
      unchanged: no continuation ever learns of the failure. */
  lemma CursorErrorSilentInTraceAsWritten(events: seq<Event>, error: JsError)
    ensures DispatchAllAsWritten(Cursor, events + [ErrorEvent(error)]) == DispatchAllAsWritten(Cursor, events)
    ensures |DispatchAll(Cursor, events + [ErrorEvent(error)])| == |DispatchAll(Cursor, events)| + 1
  {
    assert (events + [ErrorEvent(error)])[..|events|] == events;
  }

  /** The whole trace of continuation calls for an `aff` run with creation
      outcome `c` followed by `events` on its request. */
  function Replay(b: Bridge, c: Creation, events: seq<Event>): (calls: seq<Call>)
  {
    Begin(b, c).calls + (if Begin(b, c).attached then DispatchAll(b, events) else [])
  }

  /** Event `i` makes call `i`: one call per event, each the handler's answer. */
  lemma {:induction false} DispatchAllAt(b: Bridge, events: seq<Event>)
    ensures |DispatchAll(b, events)| == |events|
    ensures forall i :: 0 <= i < |events| ==> DispatchAll(b, events)[i] == Dispatch(b, events[i])[0]
    decreases |events|
  {
    if events != [] {
      var n := |events| - 1;
      DispatchAllAt(b, events[..n]);
      DispatchOneCall(b, events[n]);
      assert forall i :: 0 <= i < n ==> events[..n][i] == events[i];
    }
  }

  /**
   * A synchronous fault in a guarded wrapper reaches `error` exactly once and
   * `success` never, whatever else happens: no request exists for the engine
   * to fire on. In the unguarded Internal wrappers no continuation is called.
   */
  lemma SyncFaultTrace(b: Bridge, f: JsError, events: seq<Event>)
    ensures b.InternalUnguarded? ==> Replay(b, Faulted(f), events) == []
    ensures !b.InternalUnguarded? ==> |Replay(b, Faulted(f), events)| == 1
    ensures forall i :: 0 <= i < |Replay(b, Faulted(f), events)| ==> Replay(b, Faulted(f), events)[i].Failure?
  {
  }

  /**
   * A one-shot request resolves exactly once: when the engine fires its one
   * event, a success event delivers its result to `success` and an error
   * event delivers the error (the Internal wrappers keep only its name) to
   * `error`.
   */
  lemma {:induction false} OneEventResolvesOnce(b: Bridge, ev: Event)
    requires !b.Cursor?
    ensures |Replay(b, Created, [ev])| == 1
    ensures ev.SuccessEvent? ==> Replay(b, Created, [ev]) == [Success(ev.result)]
    ensures ev.ErrorEvent? && b.Request? ==> Replay(b, Created, [ev]) == [Failure(ev.error)]
    ensures ev.ErrorEvent? && !b.Request? ==> Replay(b, Created, [ev]) == [Failure(Rename(ev.error))]
  {
    assert [ev][..0] == [];
    assert DispatchAll(b, [ev]) == Dispatch(b, ev);
  }

  /**
   * The cursor wrappers: `success()` is the first call, made once, right
   * after the handlers are attached; then every event makes exactly one
   * cursor callback, in order, and neither `success` nor `error` is called
   * again.
   */
  lemma {:induction false} CursorTrace(events: seq<Event>)
    ensures |Replay(Cursor, Created, events)| == |events| + 1
    ensures Replay(Cursor, Created, events)[0] == Success(NoResult)
    ensures forall i :: 0 <= i < |events| && events[i].SuccessEvent? && !IsNullish(events[i].result) ==>
              Replay(Cursor, Created, events)[i + 1] == OnRecord(events[i].result)
    ensures forall i :: 0 <= i < |events| && events[i].SuccessEvent? && IsNullish(events[i].result) ==>
              Replay(Cursor, Created, events)[i + 1] == OnComplete
    ensures forall i :: 0 <= i < |events| && events[i].ErrorEvent? ==>
              Replay(Cursor, Created, events)[i + 1] == OnCursorError(events[i].error)
  {
    var trace := Replay(Cursor, Created, events);
    DispatchAllAt(Cursor, events);
    assert trace == [Success(NoResult)] + DispatchAll(Cursor, events);
    forall i | 0 <= i < |events|
      ensures trace[i + 1] == Dispatch(Cursor, events[i])[0]
    {
    }
  }

  /**
   * The Internal cursor wrappers attach the one-shot `successHandler`, so a
   * cursor request resolves `success` once per step: every success event
   * calls `success` again, and an error event calls `error` after any number
   * of successes. Exactly-once resolution holds only for one-event requests.
   */
  lemma {:induction false} InternalUnguardedResolvesPerEvent(events: seq<Event>)
    ensures |Replay(InternalUnguarded, Created, events)| == |events|
    ensures forall i :: 0 <= i < |events| && events[i].SuccessEvent? ==>
              Replay(InternalUnguarded, Created, events)[i] == Success(events[i].result)
    ensures forall i :: 0 <= i < |events| && events[i].ErrorEvent? ==>
              Replay(InternalUnguarded, Created, events)[i] == Failure(Rename(events[i].error))
  {
    DispatchAllAt(InternalUnguarded, events);
    assert Replay(InternalUnguarded, Created, events) == DispatchAll(InternalUnguarded, events);
  }

  /** `count || undefined`, the cap `_getAllKeys` passes to the engine: a count
      of 0 becomes `undefined`, meaning no cap. The engine call itself is
      abstracted by `Creation`, so this function describes the argument only. */
  function CountArgument(count: int): (r: Option<int>)
    ensures r.None? <==> count == 0
    ensures r.Some? ==> r.value == count
  {
    if count != 0 then Some(count) else None
  }

  /** The continuations in the order `aff` takes them. */
  datatype Continuation = SuccessK | ErrorK

  /** The parameter list of `aff`: `(error, success)` in the index module,
      `(success, error)` in the Internal module. It describes the positional
      signature only; the trace records continuations by role, not position. */
  function Parameters(b: Bridge): (ps: seq<Continuation>)
    ensures |ps| == 2 && ps[0] != ps[1]
    ensures ps[0] == ErrorK <==> (b.Request? || b.Cursor?)
  {
    if b.Request? || b.Cursor? then [ErrorK, SuccessK] else [SuccessK, ErrorK]
  }

  /** The message of the canceler's refusal. */
  const CancelMessage: string := "Can't cancel IDB Effects"

  /** The engine's request object: its two handler slots. */
  class NativeRequest {
    var onsuccess: SuccessHandler
    var onerror: ErrorHandler

    constructor ()
      ensures onsuccess == NoSuccessHandler && onerror == NoErrorHandler
    {
      onsuccess := NoSuccessHandler;
      onerror := NoErrorHandler;
    }
  }

  /** One run of an `aff` function and the calls its continuations receive. */
  class Aff {
    const bridge: Bridge
    const creation: Creation
    var request: NativeRequest?
    var calls: seq<Call>
    var escaped: Option<JsError>
    ghost var events: seq<Event>

    ghost predicate Valid()
      reads this, request
    {
      && (request != null <==> creation.Created?)
      && (request != null ==> request.onsuccess == SuccessHandlerOf(bridge)
                              && request.onerror == ErrorHandlerOf(bridge))
      && (request == null ==> events == [])
      && escaped == Begin(bridge, creation).escaped
      && calls == Replay(bridge, creation, events)
    }

    /** Runs `aff`: calls the engine and, if it returned a request, assigns
        both of its handler slots. */
    constructor Run(b: Bridge, c: Creation)
      ensures Valid() && bridge == b && creation == c && events == []
      ensures calls == Begin(b, c).calls && escaped == Begin(b, c).escaped
      ensures c.Faulted? ==> request == null
      ensures request != null ==> fresh(request)
    {
      bridge := b;
      creation := c;
      events := [];
      escaped := None;
      calls := [];
      request := null;
      match c {
        case Created =>
          var r := new NativeRequest();
          r.onsuccess := SuccessHandlerOf(b);
          r.onerror := ErrorHandlerOf(b);
          request := r;
          if b.Cursor? {
            calls := calls + [Success(NoResult)];
          }
        case Faulted(f) =>
          if b.InternalUnguarded? {
            escaped := Some(f);
          } else if b.InternalCount? {
            calls := calls + [Failure(Rename(f))];
          } else {
            calls := calls + [Failure(f)];
          }
      }
    }

    /** The engine fires a success event on the request: the closure in its
        `onsuccess` slot runs. */
    method FireSuccess(result: Value)
      requires Valid() && request != null
      modifies this
      ensures Valid() && request == old(request) && escaped == old(escaped)
      ensures events == old(events) + [SuccessEvent(result)]
      ensures calls == old(calls) + OnSuccessEvent(request.onsuccess, result)
    {
      events := events + [SuccessEvent(result)];
      assert events[..|events| - 1] == old(events);
      calls := calls + OnSuccessEvent(request.onsuccess, result);
    }

    /** The engine fires an error event on the request: the closure in its
        `onerror` slot runs. */
    method FireError(error: JsError)
      requires Valid() && request != null
      modifies this
      ensures Valid() && request == old(request) && escaped == old(escaped)
      ensures events == old(events) + [ErrorEvent(error)]
      ensures calls == old(calls) + OnErrorEvent(request.onerror, error)
    {
      events := events + [ErrorEvent(error)];
      assert events[..|events| - 1] == old(events);
      calls := calls + OnErrorEvent(request.onerror, error);
    }

    /** The canceler `aff` returns in the index module: it always refuses,
        through `cancelerError`. The Internal wrappers return no canceler. */
    method Cancel() returns (refusal: Option<JsError>)
      ensures refusal.Some? <==> (bridge.Request? || bridge.Cursor?)
      ensures refusal.Some? ==> refusal.value == JsError(PlainErrorName, CancelMessage)
    {
      if bridge.Request? || bridge.Cursor? {
        refusal := Some(JsError(PlainErrorName, CancelMessage));
      } else {
        refusal := None;
      }
    }
  }
}
