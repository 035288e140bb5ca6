/** Values that flow through a Muscat store: what the user's transition
    functions return, the hook points a middleware observes, and the
    outcome of one processing cycle. */
module StoreTypes {

  /** A call that either returns a value or throws an error. */
  datatype Result<T, X> = Ok(value: T) | Fail(error: X)

  /** The effect of one call of a user transition function: the events it
      emitted through its `emit` argument, in order, and then what it
      returned or threw. */
  datatype Reaction<T, E, X> = Reaction(emitted: seq<E>, result: Result<T, X>)

  /** The store's overridable functions. `kind` is the state's runtime class:
      equal states always have the same kind, states of different kinds are
      never equal. */
  datatype Handlers<!S, !A, E, !X, K> = Handlers(
    kind: S -> K,
    onEnter: S -> Reaction<S, E, X>,
    onExit: S -> Reaction<(), E, X>,
    onDispatch: (S, A) -> Reaction<S, E, X>,
    onError: (S, X) -> Reaction<S, E, X>)

  /** The defaults the store class provides: enter and dispatch return their
      input, exit does nothing, and error handling rethrows the error. */
  function DefaultHandlers<S, A, E, X, K>(kind: S -> K): Handlers<S, A, E, X, K>
  {
    Handlers(
      kind,
      s => Reaction([], Ok(s)),
      s => Reaction([], Ok(())),
      (s, a) => Reaction([], Ok(s)),
      (s, x) => Reaction([], Fail(x)))
  }

  /** One observable step. The `Before…`/`After…` entries are the middleware
      hook points, one entry for all registered middlewares together (they
      run concurrently within a phase). `EventPublished` is the broadcast of
      an event, `LatestState` the replacement of the current state together
      with the `latestState` callback, `UncaughtError` the store's exception
      handler receiving a failure that escaped a processing cycle. */
  datatype Entry<S, A, E, X> =
    | MiddlewaresInitialized
    | BeforeActionDispatch(state: S, action: A)
    | AfterActionDispatch(state: S, action: A, next: S)
    | BeforeEventEmit(state: S, event: E)
    | EventPublished(event: E)
    | AfterEventEmit(state: S, event: E)
    | BeforeStateEnter(state: S)
    | AfterStateEnter(state: S, next: S)
    | BeforeStateExit(state: S)
    | AfterStateExit(state: S)
    | BeforeStateChange(state: S, next: S)
    | LatestState(next: S)
    | AfterStateChange(state: S, prevState: S)
    | BeforeError(state: S, error: X)
    | AfterError(state: S, next: S, error: X)
    | UncaughtError(error: X)

  /** What one hook-bracketed phase produced: the user function's result and
      the entries the phase recorded. */
  datatype Phase<T, S, A, E, X> = Phase(result: Result<T, X>, trace: seq<Entry<S, A, E, X>>)

  /** How a transition step ended: normally, with an error escaping it, or
      with the enter-recursion depth bound exhausted. */
  datatype Outcome<X> = Completed | Escaped(error: X) | OutOfFuel

  /** A step's outcome, the current state it leaves behind, and the entries
      it recorded. */
  datatype Run<S, A, E, X> = Run(out: Outcome<X>, current: S, trace: seq<Entry<S, A, E, X>>)
}
