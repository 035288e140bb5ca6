/** The store itself: one mutable current state, updated in place by
    sequential processing cycles, and the trace of everything the
    middlewares, the event stream and the exception handler saw. Each
    method is proved to do exactly what the matching function of
    `Transitions` describes. */
module Engine {
  import opened StoreTypes
  import opened Traces
  import opened Transitions
  import TransitionProperties

  class DefaultStore<S(==), A, E, X, K(==)> {
    const h: Handlers<S, A, E, X, K>
    const initialState: S
    const processInitialStateEnter: bool

    var current: S
    var trace: seq<Entry<S, A, E, X>>
    /** Whether the lazy `state` property has run `init` yet. */
    var initialized: bool

    /** The current state is the last state published (or the initial
        state), every published change was genuine, and the middlewares
        were initialised before anything else happened. */
    ghost predicate Valid()
      reads this
    {
      && current == Replay(initialState, trace)
      && Coherent(initialState, trace)
      && (!initialized ==> trace == [])
      && (initialized ==> |trace| > 0 && trace[0] == MiddlewaresInitialized)
    }

    constructor (h: Handlers<S, A, E, X, K>, initialState: S, processInitialStateEnter: bool)
      ensures Valid()
      ensures this.h == h && this.initialState == initialState
      ensures this.processInitialStateEnter == processInitialStateEnter
      ensures current == initialState && trace == [] && !initialized
    {
      this.h := h;
      this.initialState := initialState;
      this.processInitialStateEnter := processInitialStateEnter;
      current := initialState;
      trace := [];
      initialized := false;
    }

    /** `emit`: the event goes through the event-emit phase with the state
        current at emission time. */
    method Emit(event: E)
      modifies this`trace
      ensures trace == old(trace) + EmitEntries(current, event)
    {
      ProcessEventEmit(current, event);
    }

    method ProcessEventEmit(state: S, event: E)
      modifies this`trace
      ensures trace == old(trace) + EmitEntries(state, event)
    {
      trace := trace + [BeforeEventEmit(state, event)];
      trace := trace + [EventPublished(event)];
      trace := trace + [AfterEventEmit(state, event)];
    }

    /** The `emit` calls a user function made, in order. */
    method EmitAll(events: seq<E>)
      modifies this`trace
      ensures trace == old(trace) + EmitTrace(current, events)
    {
      for i := 0 to |events|
        invariant trace == old(trace) + EmitTrace(current, events[..i])
      {
        assert events[..i + 1][..i] == events[..i];
        Emit(events[i]);
      }
      assert events[..|events|] == events;
    }

    method ProcessActonDispatch(state: S, action: A) returns (r: Result<S, X>)
      modifies this`trace
      ensures var p := DispatchPhase(h, current, state, action);
        r == p.result && trace == old(trace) + p.trace
    {
      trace := trace + [BeforeActionDispatch(state, action)];
      var re := h.onDispatch(state, action);
      EmitAll(re.emitted);
      r := re.result;
      if r.Ok? {
        trace := trace + [AfterActionDispatch(state, action, r.value)];
      }
    }

    method ProcessStateEnter(state: S) returns (r: Result<S, X>)
      modifies this`trace
      ensures var p := EnterPhase(h, current, state);
        r == p.result && trace == old(trace) + p.trace
    {
      trace := trace + [BeforeStateEnter(state)];
      var re := h.onEnter(state);
      EmitAll(re.emitted);
      r := re.result;
      if r.Ok? {
        trace := trace + [AfterStateEnter(state, r.value)];
      }
    }

    method ProcessStateExit(state: S) returns (r: Result<(), X>)
      modifies this`trace
      ensures var p := ExitPhase(h, current, state);
        r == p.result && trace == old(trace) + p.trace
    {
      trace := trace + [BeforeStateExit(state)];
      var re := h.onExit(state);
      EmitAll(re.emitted);
      r := re.result;
      if r.Ok? {
        trace := trace + [AfterStateExit(state)];
      }
    }

    method ProcessStateChange(state: S, nextState: S)
      modifies this`current, this`trace
      ensures current == nextState
      ensures trace == old(trace) + ChangeTrace(state, nextState)
    {
      trace := trace + [BeforeStateChange(state, nextState)];
      current := nextState;
      trace := trace + [LatestState(nextState)];
      trace := trace + [AfterStateChange(nextState, state)];
    }

    method ProcessError(state: S, error: X) returns (r: Result<S, X>)
      modifies this`trace
      ensures var p := ErrorPhase(h, current, state, error);
        r == p.result && trace == old(trace) + p.trace
    {
      trace := trace + [BeforeError(state, error)];
      var re := h.onError(state, error);
      EmitAll(re.emitted);
      r := re.result;
      if r.Ok? {
        trace := trace + [AfterError(state, r.value, error)];
      }
    }

    /** Exit, change and enter once a user function returned `next`. */
    method ApplyTransition(state: S, next: S, enterInErrorHandling: bool, fuel: nat) returns (out: Outcome<X>)
      modifies this`current, this`trace
      ensures var r := Transition(h, old(current), state, next, enterInErrorHandling, fuel);
        out == r.out && current == r.current && trace == old(trace) + r.trace
      decreases fuel, 2
    {
      var kindChanged := h.kind(state) != h.kind(next);
      if kindChanged {
        var exited := ProcessStateExit(state);
        if exited.Fail? {
          return Escaped(exited.error);
        }
      }
      if state != next {
        ProcessStateChange(state, next);
      }
      if kindChanged {
        out := OnStateEntered(next, enterInErrorHandling, fuel);
      } else {
        out := Completed;
      }
    }

    method OnStateEntered(state: S, inErrorHandling: bool, fuel: nat) returns (out: Outcome<X>)
      modifies this`current, this`trace
      ensures var r := EnterStep(h, old(current), state, inErrorHandling, fuel);
        out == r.out && current == r.current && trace == old(trace) + r.trace
      decreases fuel, 1
    {
      if fuel == 0 {
        return OutOfFuel;
      }
      ghost var body := EnterTry(h, current, state, inErrorHandling, fuel - 1);
      ghost var enter := EnterPhase(h, current, state);
      var entered := ProcessStateEnter(state);
      if entered.Fail? {
        out := Escaped(entered.error);
      } else {
        ghost var step := Transition(h, current, state, entered.value, inErrorHandling, fuel - 1);
        out := ApplyTransition(state, entered.value, inErrorHandling, fuel - 1);
        AppendAssoc(old(trace), enter.trace, step.trace);
      }
      assert out == body.out && current == body.current && trace == old(trace) + body.trace;
      if out.Escaped? && !inErrorHandling {
        ghost var handled := ErrorStep(h, current, current, out.error, fuel - 1);
        out := OnErrorOccurred(current, out.error, fuel - 1);
        AppendAssoc(old(trace), body.trace, handled.trace);
      }
    }

    method OnErrorOccurred(state: S, error: X, fuel: nat) returns (out: Outcome<X>)
      modifies this`current, this`trace
      ensures var r := ErrorStep(h, old(current), state, error, fuel);
        out == r.out && current == r.current && trace == old(trace) + r.trace
      decreases fuel, 3
    {
      var handled := ProcessError(state, error);
      if handled.Fail? {
        out := Escaped(handled.error);
      } else {
        out := ApplyTransition(state, handled.value, true, fuel);
      }
    }

    method OnActionDispatched(state: S, action: A, fuel: nat) returns (out: Outcome<X>)
      modifies this`current, this`trace
      ensures var r := ActionStep(h, old(current), state, action, fuel);
        out == r.out && current == r.current && trace == old(trace) + r.trace
    {
      ghost var body := DispatchTry(h, current, state, action, fuel);
      ghost var dispatch := DispatchPhase(h, current, state, action);
      var dispatched := ProcessActonDispatch(state, action);
      if dispatched.Fail? {
        out := Escaped(dispatched.error);
      } else {
        ghost var step := Transition(h, current, state, dispatched.value, false, fuel);
        out := ApplyTransition(state, dispatched.value, false, fuel);
        AppendAssoc(old(trace), dispatch.trace, step.trace);
      }
      assert out == body.out && current == body.current && trace == old(trace) + body.trace;
      if out.Escaped? {
        ghost var handled := ErrorStep(h, current, current, out.error, fuel);
        out := OnErrorOccurred(current, out.error, fuel);
        AppendAssoc(old(trace), body.trace, handled.trace);
      }
    }

    /** The lazy `state` property: the first access runs `init`, later
        ones do nothing. A failure escaping the initial enter pass goes to
        the exception handler. */
    method Init(fuel: nat) returns (out: Outcome<X>)
      requires Valid()
      modifies this`current, this`trace, this`initialized
      ensures Valid() && initialized
      ensures old(initialized) ==> out == Completed && current == old(current) && trace == old(trace)
      ensures !old(initialized) ==>
        var r := InitRun(h, initialState, processInitialStateEnter, fuel);
        out == r.out && current == r.current && trace == old(trace) + r.trace
    {
      if initialized {
        return Completed;
      }
      ghost var r := InitRun(h, initialState, processInitialStateEnter, fuel);
      ghost var entered := if processInitialStateEnter then EnterStep(h, initialState, initialState, false, fuel)
                           else Run(Completed, initialState, []);
      TransitionProperties.InitRunCoherent(h, initialState, processInitialStateEnter, fuel);
      initialized := true;
      trace := trace + [MiddlewaresInitialized];
      out := Completed;
      if processInitialStateEnter {
        out := OnStateEntered(initialState, false, fuel);
      }
      assert out == entered.out && current == entered.current;
      assert trace == [MiddlewaresInitialized] + entered.trace;
      trace := trace + Uncaught(out);
      assert trace == r.trace;
    }

    /** `dispatch`: initialise if needed, then one processing cycle on the
        state current when it starts. */
    method Dispatch(action: A, fuel: nat) returns (out: Outcome<X>)
      requires Valid()
      modifies this`current, this`trace, this`initialized
      ensures Valid() && initialized
      ensures var before := if old(initialized) then old(trace)
                            else old(trace) + InitRun(h, initialState, processInitialStateEnter, fuel).trace;
              var from := if old(initialized) then old(current)
                          else InitRun(h, initialState, processInitialStateEnter, fuel).current;
              var r := DispatchRun(h, from, action, fuel);
              out == r.out && current == r.current && trace == before + r.trace
    {
      var _ := Init(fuel);
      ghost var before := trace;
      ghost var from := current;
      ghost var r := DispatchRun(h, from, action, fuel);
      out := OnActionDispatched(current, action, fuel);
      trace := trace + Uncaught(out);
      AppendAssoc(before, ActionStep(h, from, from, action, fuel).trace, Uncaught<S, A, E, X>(out));
      assert trace == before + r.trace;
      TransitionProperties.DispatchRunCoherent(h, from, action, fuel);
      ReplayAppend(initialState, before, r.trace);
      assert trace[0] == before[0];
    }
  }
}
