# ErrorHandler middleware, modelled in Dafny

A model of the Atom framework's `ErrorHandler` middleware (`Atom\Middleware\ErrorHandler`), a
PSR-15 middleware. Its `process` calls the downstream request handler. If that call throws, the
middleware sends the request on to a recovery middleware chosen by the kind of the thrown object:
the exception handler for a PHP `Exception`, the error handler for a PHP `Error`. The request
it sends carries the thrown object as its `error` attribute. If the slot for that kind is
empty, the thrown object is rethrown. Handler slots are filled by the constructor and two setters.
These pass every value through `filterHandler`, which wraps callables in `CallableMiddleware`,
keeps `null` and plain middleware objects, and rejects everything else. `getError` returns the
last thrown object that was handed to a recovery middleware.

Files:

- `wrappers.dfy`: `Option` (PHP `null`) and `Result` (a return value or a raised exception).
- `psr.dfy`: the PSR-7/PSR-15 surface the middleware touches. Requests, responses and handlers
  are opaque values. Thrown objects have a kind (`Exception` or `Error`). `WithAttribute` is
  the one request operation the middleware uses.
- `error_handler.dfy`: module `AtomMiddleware`. It holds the dynamic PHP values given to the
  setters, `FilterHandler`, and `Dispatch`, the function that specifies one `process` call.
  It also holds the class `ErrorHandler` with its three fields, and lemmas about single calls.
- `traces.dfy`: module `ErrorHandlerTraces`, about any sequence of setter and `process` calls on
  one instance. It shows what `getError` returns and what each slot holds after such a sequence.

Calls into code the middleware does not contain are inputs to the model:

- `downstream` is what `$handler->handle($request)` returns or throws.
- `Collaborators` gives how a middleware object's `process` behaves and how a callable behaves.
- A `CallableMiddleware` is called by calling its callable with the same two arguments (see
  "## Left out").

Two points about the source shape the model:

- `filterHandler` tests `is_callable` before `instanceof MiddlewareInterface`
  (src/ErrorHandler.php:117, 121). So a callable middleware object is wrapped in
  `CallableMiddleware`; it is not stored as it is.
- In PHP 7 and later every `Throwable` is either an `Exception` or an `Error`, and `process`
  catches both (src/ErrorHandler.php:87, 96). So the model has exactly two kinds.

## Model

| member | source | states |
|---|---|---|
| Psr.WithAttribute | src/ErrorHandler.php:93 | the request-interface contract of `withAttribute`, read off the map update that defines it: the new request binds the named attribute to the value, and every other attribute and everything else in the request are the same as in the original |
| AtomMiddleware.FilterHandler | src/ErrorHandler.php:115-130 | a value is accepted iff it is null, callable or a middleware; null maps to null; a callable is wrapped in `CallableMiddleware` even when it is also a middleware; a non-callable middleware maps to itself; a rejected value yields an invalid-argument error naming it |
| AtomMiddleware.Dispatch | src/ErrorHandler.php:83-108 | a returned response is returned unchanged with no delegation and unchanged fields; a thrown object whose slot is null is rethrown unchanged with unchanged fields; otherwise `error` becomes the thrown object, the slot of its kind alone is called with the request plus `error` and the same handler, and its outcome is returned as is |
| AtomMiddleware.Configure | src/ErrorHandler.php:54-65 | a setter succeeds iff `filterHandler` accepts the value; then its slot holds the filtered value (set iff the value is not null), and the other slot and `error` are unchanged; otherwise it raises an invalid-argument error |
| AtomMiddleware.OtherSlotIsIgnored | src/ErrorHandler.php:87-104 | the two catch branches are exclusive: the outcome, the delegation and the recorded error for a thrown object do not depend on the slot of the other kind |
| AtomMiddleware.RecoveryFailurePropagates | src/ErrorHandler.php:92-95 | a failure thrown by the recovery middleware propagates out of `process` unchanged, and `error` already holds the original thrown object |
| AtomMiddleware.CallableActsAsMiddleware | src/ErrorHandler.php:117-118 | configuring a slot with a callable dispatches exactly as configuring it with a middleware object that behaves like the callable |
| AtomMiddleware.ConfigureIdempotent | src/ErrorHandler.php:54-57 | setting a slot twice to the same value gives the same fields as setting it once |
| AtomMiddleware.ErrorHandler.constructor | src/ErrorHandler.php:45-49 | `new ErrorHandler()` with the default arguments has both slots null and nothing recorded |
| AtomMiddleware.ErrorHandler.Create | src/ErrorHandler.php:45-49 | the constructor succeeds iff both values are accepted; the exception slot is checked first, so its error wins; on success both slots hold the filtered values and nothing is recorded |
| AtomMiddleware.ErrorHandler.SetExceptionHandler | src/ErrorHandler.php:54-57 | on an accepted value the exception slot holds the filtered value; on a rejected one an invalid-argument error is raised and nothing changes; the error slot and `error` never change |
| AtomMiddleware.ErrorHandler.SetErrorHandler | src/ErrorHandler.php:62-65 | on an accepted value the error slot holds the filtered value; on a rejected one an invalid-argument error is raised and nothing changes; the exception slot and `error` never change |
| AtomMiddleware.ErrorHandler.Process | src/ErrorHandler.php:83-108 | the slots never change; the new fields, the returned or thrown outcome and the delegated call are those of `Dispatch` on the old fields |
| AtomMiddleware.ErrorHandler.GetError | src/ErrorHandler.php:70-73 | returns the `error` field as it is; what that field holds after any sequence of calls is stated by `ErrorHandlerTraces.GetErrorIsLastIntercepted` |
| ErrorHandlerTraces.StepError | src/ErrorHandler.php:88-102 | one call writes `error` exactly when it is a `process` call whose handler throws an object with a configured slot, and then writes that object |
| ErrorHandlerTraces.StepSlot | src/ErrorHandler.php:54-65 | one call changes a slot exactly when it is an accepted setter for that slot |
| ErrorHandlerTraces.GetErrorIsLastIntercepted | src/ErrorHandler.php:70-73 | after any sequence of calls, `getError` returns the object thrown in the last intercepted `process` call, or the initial value if none was intercepted |
| ErrorHandlerTraces.ErrorNeverCleared | src/ErrorHandler.php:37 | once an object has been recorded, `error` is never reset to null by any sequence of calls |
| ErrorHandlerTraces.ErrorWasThrownDownstream | src/ErrorHandler.php:93 | a newly recorded error is an object thrown by the downstream handler of one of the `process` calls |
| ErrorHandlerTraces.SlotIsLastAccepted | src/ErrorHandler.php:29-33 | after any sequence of calls each slot holds the filtered value of the last accepted setter call for it, or its initial value if there was none |
| ErrorHandlerTraces.LastAccepted | src/ErrorHandler.php:121-129 | the last accepted setter value is one `filterHandler` accepts and was given to a setter call for that slot |

## Left out

- The text of the `InvalidArgumentException` message (`sprintf`, `get_class`, `gettype`): the model keeps only the rejected value.
- PHP's runtime type tests `is_callable` and `instanceof`: a value carries them as two flags.
- `CallableMiddleware` and the PSR-7/PSR-15 objects: they are external. Requests, responses and handlers are opaque values, and the behaviour of middleware objects and callables is an input.
- The downstream handler's `handle` call is an input outcome, so one handler is called once per `process`, as in the source.
- Concurrency: one instance shared by concurrent requests races on `error`; the model is sequential.
- `CallableMiddleware`'s code is not part of the model. The model assumes it calls its callable with the same request and handler and passes the result or failure back unchanged. `Invoke` and `CallableActsAsMiddleware` rest on that assumption.
- AtomMiddleware.ErrorHandler.Process: the model assumes that neither the downstream handler nor a recovery middleware calls back into the same instance. In PHP both can: the same instance can sit twice in a pipeline, and a recovery closure can call a setter on it. Its per-call frame (the slots never change; `error` is unchanged when nothing is intercepted) and the lemmas in `ErrorHandlerTraces` hold only under that assumption.
- AtomMiddleware.ConfigureIdempotent: wrappers are compared as values. In PHP each accepted callable gets a new `CallableMiddleware` object (src/ErrorHandler.php:118), so the two objects are equal in the model but not identical in PHP.
