/** The reference semantics of one store processing cycle, as functions.
    Each function takes the user's `Handlers`, the current state `cur` when
    the step starts (the state that `emit` reports to the event hooks) and
    the step's own arguments, and gives back what the step did as a `Run`.
    `fuel` bounds the nesting depth of enter steps; the store itself has no
    such bound. */
module Transitions {
  import opened StoreTypes
  import opened Traces

  /** The hook points and broadcast of emitting one event while `state` is current. */
  function EmitEntries<S, A, E, X>(state: S, event: E): seq<Entry<S, A, E, X>>
  {
    [BeforeEventEmit(state, event), EventPublished(event), AfterEventEmit(state, event)]
  }

  /** Emitting `events` one after the other while `state` is current. */
  function EmitTrace<S, A, E, X>(state: S, events: seq<E>): (t: seq<Entry<S, A, E, X>>)
    ensures |t| == 3 * |events|
    decreases |events|
  {
    if events == [] then []
    else EmitTrace<S, A, E, X>(state, events[..|events| - 1]) + EmitEntries(state, events[|events| - 1])
  }

  /** A phase's entries: its before-hooks, the emits of the user function
      while `cur` is current, then its after-hooks (none when the user
      function threw). */
  function Bracket<S, A, E, X>(before: Entry<S, A, E, X>, cur: S, emitted: seq<E>,
                               after: seq<Entry<S, A, E, X>>): seq<Entry<S, A, E, X>>
  {
    [before] + EmitTrace(cur, emitted) + after
  }

  /** The dispatch phase: before-hooks, `onDispatch`, then after-hooks with
      the value it returned. A throw skips the after-hooks. */
  function DispatchPhase<S, A, E, X, K>(h: Handlers<S, A, E, X, K>, cur: S, state: S, action: A): Phase<S, S, A, E, X>
  {
    var re := h.onDispatch(state, action);
    var after := if re.result.Ok? then [AfterActionDispatch(state, action, re.result.value)] else [];
    Phase(re.result, Bracket(BeforeActionDispatch(state, action), cur, re.emitted, after))
  }

  /** The enter phase, bracketing `onEnter`. */
  function EnterPhase<S, A, E, X, K>(h: Handlers<S, A, E, X, K>, cur: S, state: S): Phase<S, S, A, E, X>
  {
    var re := h.onEnter(state);
    var after := if re.result.Ok? then [AfterStateEnter(state, re.result.value)] else [];
    Phase(re.result, Bracket(BeforeStateEnter(state), cur, re.emitted, after))
  }

  /** The exit phase, bracketing `onExit`. */
  function ExitPhase<S, A, E, X, K>(h: Handlers<S, A, E, X, K>, cur: S, state: S): Phase<(), S, A, E, X>
  {
    var re := h.onExit(state);
    var after := if re.result.Ok? then [AfterStateExit(state)] else [];
    Phase(re.result, Bracket(BeforeStateExit(state), cur, re.emitted, after))
  }

  /** The error phase, bracketing `onError`. */
  function ErrorPhase<S, A, E, X, K>(h: Handlers<S, A, E, X, K>, cur: S, state: S, error: X): Phase<S, S, A, E, X>
  {
    var re := h.onError(state, error);
    var after := if re.result.Ok? then [AfterError(state, re.result.value, error)] else [];
    Phase(re.result, Bracket(BeforeError(state, error), cur, re.emitted, after))
  }

  /** The change phase: before-hooks, replace the state and call
      `latestState`, then after-hooks. */
  function ChangeTrace<S, A, E, X>(state: S, next: S): seq<Entry<S, A, E, X>>
  {
    [BeforeStateChange(state, next), LatestState(next), AfterStateChange(next, state)]
  }

  function Prepend<S, A, E, X>(t: seq<Entry<S, A, E, X>>, r: Run<S, A, E, X>): Run<S, A, E, X>
  {
    Run(r.out, r.current, t + r.trace)
  }

  /** The rule shared by dispatch, enter and error steps once the user
      function returned `next`: exit `state` if the kind changes, change if
      the value differs, then enter `next` if the kind changed. */
  function Transition<S(==), A, E, X, K(==)>(h: Handlers<S, A, E, X, K>, cur: S, state: S, next: S,
                                              enterInErrorHandling: bool, fuel: nat): Run<S, A, E, X>
    decreases fuel, 2
  {
    var kindChanged := h.kind(state) != h.kind(next);
    var exit := if kindChanged then ExitPhase(h, cur, state) else Phase(Ok(()), []);
    if exit.result.Fail? then Run(Escaped(exit.result.error), cur, exit.trace)
    else
      var changed := if state != next then Run(Completed, next, ChangeTrace(state, next)) else Run(Completed, cur, []);
      if kindChanged then
        Prepend(exit.trace + changed.trace, EnterStep(h, changed.current, next, enterInErrorHandling, fuel))
      else
        Run(Completed, changed.current, exit.trace + changed.trace)
  }

  /** The `catch` around a dispatch or a non-error-mode enter step: a
      failure that escaped `body` is handed to error handling with the
      state current at that moment. */
  function Catch<S(==), A, E, X, K(==)>(h: Handlers<S, A, E, X, K>, body: Run<S, A, E, X>, fuel: nat): Run<S, A, E, X>
    decreases fuel, 4
  {
    if body.out.Escaped? then
      Prepend(body.trace, ErrorStep(h, body.current, body.current, body.out.error, fuel))
    else body
  }

  /** The `try` block of an enter step: the enter phase, then the shared
      transition rule on what `onEnter` returned. */
  function EnterTry<S(==), A, E, X, K(==)>(h: Handlers<S, A, E, X, K>, cur: S, state: S,
                                            inErrorHandling: bool, fuel: nat): Run<S, A, E, X>
    decreases fuel, 3
  {
    var enter := EnterPhase(h, cur, state);
    match enter.result
    case Fail(x) => Run(Escaped(x), cur, enter.trace)
    case Ok(next) => Prepend(enter.trace, Transition(h, cur, state, next, inErrorHandling, fuel))
  }

  /** Entering `state`. Outside error handling a failure of this step (or
      one escaping a nested step) is caught; in error handling it escapes. */
  function EnterStep<S(==), A, E, X, K(==)>(h: Handlers<S, A, E, X, K>, cur: S, state: S,
                                             inErrorHandling: bool, fuel: nat): Run<S, A, E, X>
    decreases fuel, 1
  {
    if fuel == 0 then Run(OutOfFuel, cur, [])
    else
      var body := EnterTry(h, cur, state, inErrorHandling, fuel - 1);
      if inErrorHandling then body else Catch(h, body, fuel - 1)
  }

  /** Handling `error` that occurred while `state` was current. Nothing here
      catches: failures of `onError`, of the exit or of the error-mode enter
      escape. */
  function ErrorStep<S(==), A, E, X, K(==)>(h: Handlers<S, A, E, X, K>, cur: S, state: S, error: X,
                                             fuel: nat): Run<S, A, E, X>
    decreases fuel, 3
  {
    var handled := ErrorPhase(h, cur, state, error);
    match handled.result
    case Fail(x) => Run(Escaped(x), cur, handled.trace)
    case Ok(next) => Prepend(handled.trace, Transition(h, cur, state, next, true, fuel))
  }

  /** The `try` block of a dispatch: the dispatch phase, then the shared
      transition rule on what `onDispatch` returned. */
  function DispatchTry<S(==), A, E, X, K(==)>(h: Handlers<S, A, E, X, K>, cur: S, state: S, action: A,
                                               fuel: nat): Run<S, A, E, X>
  {
    var dispatched := DispatchPhase(h, cur, state, action);
    match dispatched.result
    case Fail(x) => Run(Escaped(x), cur, dispatched.trace)
    case Ok(next) => Prepend(dispatched.trace, Transition(h, cur, state, next, false, fuel))
  }

  /** Processing `action` against `state`; every failure is caught. */
  function ActionStep<S(==), A, E, X, K(==)>(h: Handlers<S, A, E, X, K>, cur: S, state: S, action: A,
                                              fuel: nat): Run<S, A, E, X>
  {
    Catch(h, DispatchTry(h, cur, state, action, fuel), fuel)
  }

  /** The entry the exception handler records for a failure that escaped a cycle. */
  function Uncaught<S, A, E, X>(out: Outcome<X>): seq<Entry<S, A, E, X>>
  {
    if out.Escaped? then [UncaughtError(out.error)] else []
  }

  /** Lazy initialisation: every middleware's `onInit`, then, if asked for,
      the initial enter pass on the initial state. */
  function InitRun<S(==), A, E, X, K(==)>(h: Handlers<S, A, E, X, K>, initialState: S,
                                           processInitialStateEnter: bool, fuel: nat): Run<S, A, E, X>
  {
    var entered := if processInitialStateEnter then EnterStep(h, initialState, initialState, false, fuel)
                   else Run(Completed, initialState, []);
    Run(entered.out, entered.current, [MiddlewaresInitialized] + entered.trace + Uncaught(entered.out))
  }

  /** One dispatch cycle against the current state `cur`, including the
      exception handler for a failure that escapes it. */
  function DispatchRun<S(==), A, E, X, K(==)>(h: Handlers<S, A, E, X, K>, cur: S, action: A,
                                               fuel: nat): Run<S, A, E, X>
  {
    var r := ActionStep(h, cur, cur, action, fuel);
    Run(r.out, r.current, r.trace + Uncaught(r.out))
  }

  /** How an enter chain ends, ignoring hooks and events. */
  datatype Settling<S, X> = Settled(input: S, last: S) | ChainFailed(at: S, error: X) | Unsettled

  /** An independent account of the enter chain from `s`: enter each state
      in turn and, on a kind change, exit it and go on with the returned
      state, until an enter returns a state of its input's kind. */
  function Chain<S, A, E, X, K(==)>(h: Handlers<S, A, E, X, K>, s: S, fuel: nat): (c: Settling<S, X>)
    ensures c.Settled? ==> h.kind(c.input) == h.kind(c.last)
    decreases fuel
  {
    if fuel == 0 then Unsettled
    else match h.onEnter(s).result
      case Fail(x) => ChainFailed(s, x)
      case Ok(n) =>
        if h.kind(n) == h.kind(s) then Settled(s, n)
        else match h.onExit(s).result
          case Fail(x) => ChainFailed(s, x)
          case Ok(_) => Chain(h, n, fuel - 1)
  }
}
