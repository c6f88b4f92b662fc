/**
 * The `ErrorHandler` middleware of the Atom framework (namespace `Atom\Middleware`).
 *
 * It calls the downstream request handler; when that call throws, it hands the request, with
 * the thrown object attached as the attribute `error`, to the middleware configured for the
 * thrown object's kind: the exception handler for an `Exception`, the error handler for an
 * `Error`. With no middleware configured for that kind, the thrown object is rethrown.
 */
module AtomMiddleware {
  import opened Wrappers
  import opened Psr

  /**
   * A PHP value handed to the constructor or to a setter, with the two dynamic type tests the
   * source applies to it made explicit: `is_callable` and `instanceof MiddlewareInterface`.
   * Objects can be both (a middleware class with `__invoke`); non-objects (strings naming a
   * function, arrays `[object, 'method']`, numbers, ...) can only be callable.
   */
  datatype Value =
    | Null
    | Object(id: nat, isMiddleware: bool, isCallable: bool)
    | NonObject(id: nat, isCallable: bool)

  /** `is_callable($value)` */
  predicate IsCallable(v: Value) {
    match v
    case Null => false
    case Object(_, _, callable) => callable
    case NonObject(_, callable) => callable
  }

  /** `$value instanceof MiddlewareInterface` */
  predicate IsMiddleware(v: Value) {
    v.Object? && v.isMiddleware
  }

  /**
   * What a handler slot holds: a middleware object, or a `CallableMiddleware` built around a
   * callable value.
   */
  datatype Middleware = Instance(obj: Value) | CallableMiddleware(callable: Value)

  /** The `InvalidArgumentException` raised for a value that cannot fill a handler slot. */
  datatype InvalidArgument = InvalidArgument(received: Value)

  /**
   * `filterHandler`: what a handler slot stores for a given value. A callable is wrapped in a
   * `CallableMiddleware` before anything else is looked at, so a callable middleware object is
   * wrapped too; `null` stays `null`; a middleware that is not callable is stored as it is;
   * anything else is rejected.
   */
  function FilterHandler(v: Value): (r: Result<Option<Middleware>, InvalidArgument>)
    ensures r.Success? <==> v.Null? || IsCallable(v) || IsMiddleware(v)
    ensures r == Success(None) <==> v.Null?
    ensures IsCallable(v) ==> r == Success(Some(CallableMiddleware(v)))
    ensures IsMiddleware(v) && !IsCallable(v) ==> r == Success(Some(Instance(v)))
    ensures r.Failure? ==> r.error.received == v
  {
    var handler := if IsCallable(v) then Some(CallableMiddleware(v))
                   else if v.Null? then None
                   else if IsMiddleware(v) then Some(Instance(v))
                   else None;
    if handler.None? && !v.Null? then Failure(InvalidArgument(v)) else Success(handler)
  }

  /**
   * The code the middleware calls into but does not contain: how a middleware object's
   * `process` behaves, and how a callable behaves when called with a request and a handler.
   */
  datatype Collaborators = Collaborators(
    process: (Value, Request, Handler) -> Outcome,
    call: (Value, Request, Handler) -> Outcome)

  /**
   * `$middleware->process($request, $handler)` for a slot's middleware; a `CallableMiddleware`
   * forwards both arguments to its callable and passes its result or failure through unchanged.
   */
  function Invoke(m: Middleware, request: Request, handler: Handler, env: Collaborators): Outcome {
    match m
    case Instance(obj) => env.process(obj, request, handler)
    case CallableMiddleware(callable) => env.call(callable, request, handler)
  }

  /** The three fields of an `ErrorHandler`. */
  datatype HandlerState = HandlerState(
    exceptionHandler: Option<Middleware>,
    errorHandler: Option<Middleware>,
    error: Option<Throwable>)

  /** The slot that handles thrown objects of kind `c`. */
  function SlotFor(st: HandlerState, c: Category): Option<Middleware> {
    match c
    case Exception => st.exceptionHandler
    case Error => st.errorHandler
  }

  /** The request handed to a recovery middleware: the original one with `error` bound to `e`. */
  function Augmented(request: Request, e: Throwable): Request {
    WithAttribute(request, "error", ThrowableValue(e))
  }

  /** A call of a recovery middleware's `process`: the middleware and both arguments. */
  datatype Delegation = Delegation(target: Middleware, request: Request, handler: Handler)

  /** The result of one `process` call: the new fields, what it returns or throws, and whom it called. */
  datatype Dispatched = Dispatched(after: HandlerState, outcome: Outcome, delegated: Option<Delegation>)

  /** The catch branch for `e` once its slot holds `m`: record `e`, then call `m` on the augmented request. */
  function Deliver(st: HandlerState, m: Middleware, request: Request, handler: Handler, e: Throwable,
                   env: Collaborators): Dispatched
  {
    var augmented := Augmented(request, e);
    Dispatched(st.(error := Some(e)), Invoke(m, augmented, handler, env), Some(Delegation(m, augmented, handler)))
  }

  /**
   * `process($request, $handler)` on an instance whose fields are `st`, given what
   * `$handler->handle($request)` does (`downstream`).
   */
  function Dispatch(st: HandlerState, request: Request, handler: Handler, downstream: Outcome,
                    env: Collaborators): (d: Dispatched)
    // a response from the handler is returned unchanged; nothing else happens
    ensures downstream.Returned? ==> d == Dispatched(st, downstream, None)
    // a thrown object with no middleware for its kind is rethrown unchanged; nothing else happens
    ensures downstream.Threw? && SlotFor(st, downstream.thrown.category).None? ==>
      d == Dispatched(st, downstream, None)
    // otherwise it is recorded, and the middleware of its kind, and only that one, gets the
    // request with `error` bound to it and the same handler; what it does is what `process` does
    ensures downstream.Threw? && SlotFor(st, downstream.thrown.category).Some? ==>
      var e, m := downstream.thrown, SlotFor(st, downstream.thrown.category).value;
      && d.after == st.(error := Some(e))
      && d.delegated == Some(Delegation(m, Augmented(request, e), handler))
      && d.outcome == Invoke(m, Augmented(request, e), handler, env)
  {
    match downstream
    case Returned(_) => Dispatched(st, downstream, None)
    case Threw(e) =>
      match e.category
      case Exception =>
        if st.exceptionHandler.None? then Dispatched(st, downstream, None)
        else Deliver(st, st.exceptionHandler.value, request, handler, e, env)
      case Error =>
        if st.errorHandler.None? then Dispatched(st, downstream, None)
        else Deliver(st, st.errorHandler.value, request, handler, e, env)
  }

  /** `setExceptionHandler` / `setErrorHandler`: the new fields, or the error that leaves them as they were. */
  function Configure(st: HandlerState, c: Category, v: Value): (r: Result<HandlerState, InvalidArgument>)
    ensures r.Success? <==> FilterHandler(v).Success?
    ensures r.Failure? ==> r.error == InvalidArgument(v)
    ensures r.Success? ==>
      && SlotFor(r.value, c) == FilterHandler(v).value
      && (SlotFor(r.value, c).Some? <==> !v.Null?)
      && r.value.error == st.error
      && (forall other: Category :: other != c ==> SlotFor(r.value, other) == SlotFor(st, other))
  {
    match FilterHandler(v)
    case Failure(err) => Failure(err)
    case Success(slot) =>
      match c
      case Exception => Success(st.(exceptionHandler := slot))
      case Error => Success(st.(errorHandler := slot))
  }

  /**
   * The two catch branches are exclusive: what `process` does with a thrown object does not
   * depend on the slot of the other kind, whatever that slot holds.
   */
  lemma OtherSlotIsIgnored(st: HandlerState, request: Request, handler: Handler, e: Throwable,
                           env: Collaborators, other: Option<Middleware>)
    ensures var st' := match e.category
                       case Exception => st.(errorHandler := other)
                       case Error => st.(exceptionHandler := other);
            var d, d' := Dispatch(st, request, handler, Threw(e), env), Dispatch(st', request, handler, Threw(e), env);
            d'.outcome == d.outcome && d'.delegated == d.delegated && d'.after.error == d.after.error
  {
  }

  /**
   * A failure of the recovery middleware is not caught again: it leaves `process` unchanged,
   * and by then the original thrown object has already been recorded.
   */
  lemma RecoveryFailurePropagates(st: HandlerState, request: Request, handler: Handler, e: Throwable,
                                  env: Collaborators, m: Middleware, f: Throwable)
    requires SlotFor(st, e.category) == Some(m)
    requires Invoke(m, Augmented(request, e), handler, env) == Threw(f)
    ensures Dispatch(st, request, handler, Threw(e), env).outcome == Threw(f)
    ensures Dispatch(st, request, handler, Threw(e), env).after.error == Some(e)
  {
  }

  /**
   * Configuring a slot with a callable dispatches exactly as configuring it with a middleware
   * object whose `process` behaves like that callable.
   */
  lemma CallableActsAsMiddleware(st: HandlerState, c: Category, callable: Value, obj: Value,
                                 request: Request, handler: Handler, downstream: Outcome, env: Collaborators)
    requires IsCallable(callable) && IsMiddleware(obj) && !IsCallable(obj)
    requires forall r: Request, h: Handler :: env.call(callable, r, h) == env.process(obj, r, h)
    ensures Configure(st, c, callable).Success? && Configure(st, c, obj).Success?
    ensures var viaCallable := Dispatch(Configure(st, c, callable).value, request, handler, downstream, env);
            var viaObject := Dispatch(Configure(st, c, obj).value, request, handler, downstream, env);
            viaCallable.outcome == viaObject.outcome && viaCallable.after.error == viaObject.after.error
  {
  }

  /**
   * Setting a slot twice to the same value is the same as setting it once. Wrappers are compared
   * as values here: each call in PHP builds a new `CallableMiddleware` object, whose identity
   * the model does not keep.
   */
  lemma ConfigureIdempotent(st: HandlerState, c: Category, v: Value)
    requires Configure(st, c, v).Success?
    ensures Configure(Configure(st, c, v).value, c, v) == Configure(st, c, v)
  {
  }

  /** The middleware itself: two recovery slots and the last thrown object it intercepted. */
  class ErrorHandler {
    var exceptionHandler: Option<Middleware>
    var errorHandler: Option<Middleware>
    var error: Option<Throwable>

    /** The instance's fields as a value. */
    function Snapshot(): HandlerState
      reads this
    {
      HandlerState(exceptionHandler, errorHandler, error)
    }

    /** `new ErrorHandler()`: both slots default to `null`, and nothing has been intercepted. */
    constructor ()
      ensures Snapshot() == HandlerState(None, None, None)
    {
      exceptionHandler := None;
      errorHandler := None;
      error := None;
    }

    /**
     * `new ErrorHandler($exceptionHandler, $errorHandler)`: the exception slot is set first, so
     * an invalid exception handler is the one reported when both are invalid.
     */
    static method Create(exceptionHandler: Value, errorHandler: Value)
      returns (r: Result<ErrorHandler, InvalidArgument>)
      ensures r.Success? <==> FilterHandler(exceptionHandler).Success? && FilterHandler(errorHandler).Success?
      ensures FilterHandler(exceptionHandler).Failure? ==> r == Failure(InvalidArgument(exceptionHandler))
      ensures FilterHandler(exceptionHandler).Success? && FilterHandler(errorHandler).Failure? ==>
        r == Failure(InvalidArgument(errorHandler))
      ensures r.Success? ==> fresh(r.value)
      ensures r.Success? ==>
        r.value.Snapshot() == HandlerState(FilterHandler(exceptionHandler).value, FilterHandler(errorHandler).value, None)
    {
      var h := new ErrorHandler();
      var thrown := h.SetExceptionHandler(exceptionHandler);
      if thrown.Some? {
        return Failure(thrown.value);
      }
      thrown := h.SetErrorHandler(errorHandler);
      if thrown.Some? {
        return Failure(thrown.value);
      }
      r := Success(h);
    }

    /** `setExceptionHandler($handler)`; `thrown` is the `InvalidArgumentException`, if one is raised. */
    method SetExceptionHandler(handler: Value) returns (thrown: Option<InvalidArgument>)
      modifies this
      ensures thrown.None? <==> FilterHandler(handler).Success?
      ensures thrown.Some? ==> thrown.value == InvalidArgument(handler) && Snapshot() == old(Snapshot())
      ensures thrown.None? ==> exceptionHandler == FilterHandler(handler).value
      ensures errorHandler == old(errorHandler) && error == old(error)
      ensures Configure(old(Snapshot()), Exception, handler) ==
        if thrown.None? then Success(Snapshot()) else Failure(thrown.value)
    {
      var filtered := FilterHandler(handler);
      if filtered.Failure? {
        return Some(filtered.error);
      }
      exceptionHandler := filtered.value;
      thrown := None;
    }

    /** `setErrorHandler($handler)`; `thrown` is the `InvalidArgumentException`, if one is raised. */
    method SetErrorHandler(handler: Value) returns (thrown: Option<InvalidArgument>)
      modifies this
      ensures thrown.None? <==> FilterHandler(handler).Success?
      ensures thrown.Some? ==> thrown.value == InvalidArgument(handler) && Snapshot() == old(Snapshot())
      ensures thrown.None? ==> errorHandler == FilterHandler(handler).value
      ensures exceptionHandler == old(exceptionHandler) && error == old(error)
      ensures Configure(old(Snapshot()), Error, handler) ==
        if thrown.None? then Success(Snapshot()) else Failure(thrown.value)
    {
      var filtered := FilterHandler(handler);
      if filtered.Failure? {
        return Some(filtered.error);
      }
      errorHandler := filtered.value;
      thrown := None;
    }

    /** `getError()`: the last thrown object handed to a recovery middleware, if any. */
    function GetError(): (e: Option<Throwable>)
      reads this
      ensures e == Snapshot().error
    {
      error
    }

    /**
     * `process($request, $handler)`, where `downstream` is what `$handler->handle($request)`
     * does. `outcome` is what `process` returns or throws; `delegated` is the recovery
     * middleware call it made, if any.
     */
    method Process(request: Request, handler: Handler, downstream: Outcome, env: Collaborators)
      returns (outcome: Outcome, delegated: Option<Delegation>)
      modifies this
      ensures exceptionHandler == old(exceptionHandler) && errorHandler == old(errorHandler)
      ensures downstream.Returned? ==> outcome == downstream && delegated.None? && error == old(error)
      ensures downstream.Threw? && SlotFor(old(Snapshot()), downstream.thrown.category).None? ==>
        outcome == downstream && delegated.None? && error == old(error)
      ensures downstream.Threw? && SlotFor(old(Snapshot()), downstream.thrown.category).Some? ==>
        error == Some(downstream.thrown) && delegated.Some? &&
        delegated.value.target == SlotFor(old(Snapshot()), downstream.thrown.category).value
      ensures Dispatch(old(Snapshot()), request, handler, downstream, env) ==
        Dispatched(Snapshot(), outcome, delegated)
    {
      delegated := None;
      match downstream {
        case Returned(_) =>
          outcome := downstream;
        case Threw(e) =>
          if e.category == Exception {
            if exceptionHandler.None? {
              return downstream, None;
            }
            var middleware := exceptionHandler.value;
            error := Some(e);
            var augmented := WithAttribute(request, "error", ThrowableValue(e));
            delegated := Some(Delegation(middleware, augmented, handler));
            outcome := Invoke(middleware, augmented, handler, env);
          } else {
            if errorHandler.None? {
              return downstream, None;
            }
            var middleware := errorHandler.value;
            error := Some(e);
            var augmented := WithAttribute(request, "error", ThrowableValue(e));
            delegated := Some(Delegation(middleware, augmented, handler));
            outcome := Invoke(middleware, augmented, handler, env);
          }
      }
    }
  }
}
