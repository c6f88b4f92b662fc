/**
 * Sequences of calls on one `ErrorHandler` instance: what its slots and its recorded error are
 * after any mix of setter and `process` calls.
 */
module ErrorHandlerTraces {
  import opened Wrappers
  import opened Psr
  import opened AtomMiddleware

  /** One public call on the instance. */
  datatype Call =
    | SetExceptionHandlerCall(value: Value)
    | SetErrorHandlerCall(value: Value)
    | ProcessCall(request: Request, handler: Handler, downstream: Outcome)

  /** The fields after one call; a setter that raises leaves them as they were. */
  function Step(st: HandlerState, call: Call, env: Collaborators): HandlerState {
    match call
    case SetExceptionHandlerCall(v) =>
      (match Configure(st, Exception, v) case Success(s) => s case Failure(_) => st)
    case SetErrorHandlerCall(v) =>
      (match Configure(st, Error, v) case Success(s) => s case Failure(_) => st)
    case ProcessCall(request, handler, downstream) =>
      Dispatch(st, request, handler, downstream, env).after
  }

  /** The fields after the calls in order. */
  function Run(st: HandlerState, calls: seq<Call>, env: Collaborators): HandlerState
    decreases |calls|
  {
    if |calls| == 0 then st
    else Step(Run(st, calls[..|calls| - 1], env), calls[|calls| - 1], env)
  }

  /** A `process` call whose handler throws an object of a kind whose slot is set. */
  predicate Intercepts(st: HandlerState, call: Call) {
    call.ProcessCall? && call.downstream.Threw? && SlotFor(st, call.downstream.thrown.category).Some?
  }

  /** The object thrown in the last call that was intercepted, if any was. */
  function LastIntercepted(st: HandlerState, calls: seq<Call>, env: Collaborators): Option<Throwable>
    decreases |calls|
  {
    if |calls| == 0 then None
    else
      var before, last := Run(st, calls[..|calls| - 1], env), calls[|calls| - 1];
      if Intercepts(before, last) then Some(last.downstream.thrown)
      else LastIntercepted(st, calls[..|calls| - 1], env)
  }

  /** A setter call for the slot of kind `c`. */
  predicate Sets(call: Call, c: Category) {
    match c
    case Exception => call.SetExceptionHandlerCall?
    case Error => call.SetErrorHandlerCall?
  }

  /** The value of the last setter call for the slot of kind `c` that did not raise, if any. */
  function LastAccepted(calls: seq<Call>, c: Category): (r: Option<Value>)
    ensures r.Some? ==> FilterHandler(r.value).Success?
    ensures r.Some? ==> exists i :: 0 <= i < |calls| && Sets(calls[i], c) && calls[i].value == r.value
    decreases |calls|
  {
    if |calls| == 0 then None
    else
      var last := calls[|calls| - 1];
      if Sets(last, c) && FilterHandler(last.value).Success? then Some(last.value)
      else LastAccepted(calls[..|calls| - 1], c)
  }

  /** One call writes `error` exactly when it intercepts, and then writes the thrown object. */
  lemma StepError(st: HandlerState, call: Call, env: Collaborators)
    ensures Step(st, call, env).error ==
      if Intercepts(st, call) then Some(call.downstream.thrown) else st.error
  {
  }

  /** One call changes the slot of kind `c` exactly when it is an accepted setter for it. */
  lemma StepSlot(st: HandlerState, call: Call, env: Collaborators, c: Category)
    ensures SlotFor(Step(st, call, env), c) ==
      if Sets(call, c) && FilterHandler(call.value).Success? then FilterHandler(call.value).value
      else SlotFor(st, c)
  {
  }

  /**
   * `getError()` after any sequence of calls is the object thrown in the last intercepted
   * `process` call; successful dispatches, rethrows and setters never clear or overwrite it.
   */
  lemma {:induction false} GetErrorIsLastIntercepted(st: HandlerState, calls: seq<Call>, env: Collaborators)
    ensures Run(st, calls, env).error ==
      if LastIntercepted(st, calls, env).Some? then LastIntercepted(st, calls, env) else st.error
  {
    if |calls| > 0 {
      var prefix := calls[..|calls| - 1];
      GetErrorIsLastIntercepted(st, prefix, env);
      StepError(Run(st, prefix, env), calls[|calls| - 1], env);
    }
  }

  /** Once an object has been recorded, some object stays recorded. */
  lemma ErrorNeverCleared(st: HandlerState, calls: seq<Call>, env: Collaborators)
    requires st.error.Some?
    ensures Run(st, calls, env).error.Some?
  {
    GetErrorIsLastIntercepted(st, calls, env);
  }

  /** A recorded error that was not there before was thrown by the handler of one of the `process` calls. */
  lemma {:induction false} ErrorWasThrownDownstream(st: HandlerState, calls: seq<Call>, env: Collaborators)
    ensures var e := Run(st, calls, env).error;
      e == st.error ||
      (e.Some? && exists i :: 0 <= i < |calls| && calls[i].ProcessCall? && calls[i].downstream == Threw(e.value))
  {
    if |calls| > 0 {
      var prefix, last := calls[..|calls| - 1], calls[|calls| - 1];
      ErrorWasThrownDownstream(st, prefix, env);
      StepError(Run(st, prefix, env), last, env);
      var e := Run(st, calls, env).error;
      if Intercepts(Run(st, prefix, env), last) {
        assert calls[|calls| - 1] == last;
      } else if e != st.error {
        var i :| 0 <= i < |prefix| && prefix[i].ProcessCall? && prefix[i].downstream == Threw(e.value);
        assert calls[i] == prefix[i];
      }
    }
  }

  /**
   * Each slot holds what the last accepted setter call for it put there, and only setters
   * change it: `process` and rejected values leave it alone.
   */
  lemma {:induction false} SlotIsLastAccepted(st: HandlerState, calls: seq<Call>, env: Collaborators, c: Category)
    ensures SlotFor(Run(st, calls, env), c) ==
      if LastAccepted(calls, c).Some? then FilterHandler(LastAccepted(calls, c).value).value else SlotFor(st, c)
  {
    if |calls| > 0 {
      var prefix := calls[..|calls| - 1];
      SlotIsLastAccepted(st, prefix, env, c);
      StepSlot(Run(st, prefix, env), calls[|calls| - 1], env, c);
    }
  }
}
