# Muscat `DefaultStore` — a verified model of the state-transition engine

Muscat is a Kotlin state-management library. A store holds one current
state. Dispatched actions are processed one at a time, and a processing
cycle works as follows:

- **Dispatch.** The user's `onDispatch` runs and returns a next state.
- **Exit.** If the next state's runtime class (its *kind*) differs from the
  old state's, `onExit` runs on the old state.
- **Change.** If the next state is not equal to the old one, it is
  published. The current state is replaced and the `latestState` callback
  runs.
- **Enter.** If the kind changed, `onEnter` runs on the new state. It
  follows the same exit/change/enter rule, recursively, until an enter
  returns a state of its input's kind.
- **Errors.** A failure goes to error handling (`onError`). Its result
  passes through the same rule, with every enter step in *error mode*. In
  error mode an enter failure is rethrown instead of being handled again.

Every phase (dispatch, enter, exit, change, error, event emit) is
bracketed by before- and after-hooks of the store's middlewares. User
functions emit events through an `emit` callback. Each emitted event is
itself bracketed by event hooks and reported with the state current at
that moment.

## Files

The model is layered:

- `store_types.dfy` (`StoreTypes`) holds the values that flow through a store:
  - `Result`;
  - `Reaction`: what a user function emitted, then what it returned or threw;
  - `Handlers`: the four overridable functions plus `kind`;
  - `DefaultHandlers`;
  - `Entry`: one hook point, broadcast, publication or exception-handler call;
  - `Outcome` and `Run`.
- `traces.dfy` (`Traces`) reads a trace back:
  - `Replay` gives the state it leaves current;
  - `Coherent` says every published change is genuine and starts from the
    current state;
  - `Quiet` and `NoErrorHandling` classify entries;
  - `Published` gives the broadcast events.
- `transitions.dfy` (`Transitions`) is the reference semantics of a cycle as
  functions:
  - one function per phase;
  - the shared exit/change/enter rule `Transition`;
  - the `try`/`catch` structure of the three transition steps, as
    `EnterTry`, `EnterStep`, `DispatchTry`, `ActionStep`, `Catch` and
    `ErrorStep`;
  - initialisation and a dispatch cycle, as `InitRun` and `DispatchRun`;
  - `Chain`, an independent account of an enter chain.
- `default_store.dfy` (`Engine`) is the store as a class:
  - a mutable `current` state and a `trace` of everything observed;
  - one method per modelled function of the Kotlin class, plus
    `ApplyTransition` for the exit/change/enter block the three steps share
    and `EmitAll` for the emits a user function made;
  - each method proved to do exactly what the matching reference function
    describes;
  - `Valid()` (current state = last published state, all changes genuine,
    middlewares initialised first) kept by `Init` and `Dispatch`.
- `transition_properties.dfy` (`TransitionProperties`) and
  `store_properties.dfy` (`StoreProperties`) hold the properties the store
  promises, proved of the reference semantics.

## Modelling decisions

- **States.** States, actions, events and errors are type parameters. The
  runtime class of a state is the function `kind`, so equal states always
  have the same kind.
- **User functions.** A user function is a total function returning a
  `Reaction`. The events it emits are recorded before its result, matching
  a Kotlin function that calls `emit` and then returns or throws.
- **Hooks.** Middleware hooks only observe, so each hook point of a phase
  is one trace entry for all middlewares together. The hooks never fail.
- **Failures.** A failure that escapes a whole cycle ends in an
  `UncaughtError` entry. That entry stands for the store's
  `CoroutineExceptionHandler` calling the constructor's `onError` callback.
- **Depth bound.** The Kotlin code puts no bound on enter recursion, so a
  chain that never settles would not terminate. A `fuel` argument bounds
  the nesting depth of enter steps. When the bound is exhausted the outcome
  is `OutOfFuel`, which nothing catches.
- **Middleware hook names** follow `DefaultStore.kt` (`beforeActionDispatch`,
  `onInit`, …). `Middleware.kt` declares the same hooks under different
  names (`runBeforeActionDispatch`, `initialize`). Since `Middleware.kt` is
  not part of this model, so are those names.
- **Errors inside error handling.** `onErrorOccurred` has no catch. When
  the default `onError` rethrows, the failure propagates into every
  enclosing non-error-mode `try`:
  - the one in an enter step that called a nested enter;
  - the one in `onActionDispatched`.

  Each of these runs error handling again, so an escaped failure is
  handled once more by every enclosing non-error-mode `try` before it
  reaches the exception handler. `EnterFailureHandledTwice` shows the
  double handling concretely.

## Model

| member | source | states |
|---|---|---|
| Engine.DefaultStore.constructor | muscat-core/src/commonMain/kotlin/io/github/hkusu/muscat/core/DefaultStore.kt:16-27 | A new store holds the initial state, has recorded nothing, and has not yet run the lazy initialisation |
| Engine.DefaultStore.Emit | muscat-core/src/commonMain/kotlin/io/github/hkusu/muscat/core/DefaultStore.kt:238-240 | Emitting runs the event-emit phase with the state current at emission time; emission cannot change the current state, since it may modify only the trace |
| Engine.DefaultStore.ProcessEventEmit | muscat-core/src/commonMain/kotlin/io/github/hkusu/muscat/core/DefaultStore.kt:165-177 | Before-event hooks, then the event broadcast unchanged, then after-event hooks, all with the given state |
| Engine.DefaultStore.EmitAll | muscat-core/src/commonMain/kotlin/io/github/hkusu/muscat/core/DefaultStore.kt:156 | The emits a user function made, in order, each recorded with the current state |
| Engine.DefaultStore.ProcessActonDispatch | muscat-core/src/commonMain/kotlin/io/github/hkusu/muscat/core/DefaultStore.kt:150-163 | The dispatch phase returns exactly what `onDispatch` returned and records exactly `DispatchPhase` |
| Engine.DefaultStore.ProcessStateEnter | muscat-core/src/commonMain/kotlin/io/github/hkusu/muscat/core/DefaultStore.kt:179-192 | The enter phase returns exactly what `onEnter` returned and records exactly `EnterPhase` |
| Engine.DefaultStore.ProcessStateExit | muscat-core/src/commonMain/kotlin/io/github/hkusu/muscat/core/DefaultStore.kt:194-206 | The exit phase passes on `onExit`'s result and records exactly `ExitPhase` |
| Engine.DefaultStore.ProcessStateChange | muscat-core/src/commonMain/kotlin/io/github/hkusu/muscat/core/DefaultStore.kt:208-221 | The current state becomes the next state, between the before-change hook and `latestState`/after-change hooks (after-hook gets next and previous) |
| Engine.DefaultStore.ProcessError | muscat-core/src/commonMain/kotlin/io/github/hkusu/muscat/core/DefaultStore.kt:223-236 | The error phase returns exactly what `onError` returned and records exactly `ErrorPhase` |
| Engine.DefaultStore.ApplyTransition | muscat-core/src/commonMain/kotlin/io/github/hkusu/muscat/core/DefaultStore.kt:94-104 | Exit on a kind change, change on inequality, enter on a kind change: outcome, new current state and trace are those of `Transition` |
| Engine.DefaultStore.OnStateEntered | muscat-core/src/commonMain/kotlin/io/github/hkusu/muscat/core/DefaultStore.kt:110-132 | The enter step, including its catch (error handling outside error mode, rethrow in error mode), does exactly `EnterStep` |
| Engine.DefaultStore.OnErrorOccurred | muscat-core/src/commonMain/kotlin/io/github/hkusu/muscat/core/DefaultStore.kt:134-148 | Error handling does exactly `ErrorStep`: `onError`, then the transition rule with error-mode enters, with no catch of its own |
| Engine.DefaultStore.OnActionDispatched | muscat-core/src/commonMain/kotlin/io/github/hkusu/muscat/core/DefaultStore.kt:90-108 | The dispatch step does exactly `ActionStep`; a failure anywhere in its try goes to error handling with the state current at that moment |
| Engine.DefaultStore.Init | muscat-core/src/commonMain/kotlin/io/github/hkusu/muscat/core/DefaultStore.kt:24-27 | The first access initialises (exactly `InitRun`), later ones change nothing; the store stays `Valid` |
| Engine.DefaultStore.Dispatch | muscat-core/src/commonMain/kotlin/io/github/hkusu/muscat/core/DefaultStore.kt:40-47 | Initialise if needed, then one cycle on the state current when it starts (exactly `DispatchRun`); the store stays `Valid` |
| Transitions.EmitEntries | muscat-core/src/commonMain/kotlin/io/github/hkusu/muscat/core/DefaultStore.kt:165-177 | Definition: one emitted event is its before-event hook, its broadcast and its after-event hook, all with the state current at emission |
| Transitions.DispatchPhase | muscat-core/src/commonMain/kotlin/io/github/hkusu/muscat/core/DefaultStore.kt:150-163 | Definition: the dispatch phase brackets `onDispatch` between its before-hook and, only if it returned, its after-hook with the returned value |
| Transitions.EnterPhase | muscat-core/src/commonMain/kotlin/io/github/hkusu/muscat/core/DefaultStore.kt:179-192 | Definition: the enter phase brackets `onEnter` the same way |
| Transitions.ExitPhase | muscat-core/src/commonMain/kotlin/io/github/hkusu/muscat/core/DefaultStore.kt:194-206 | Definition: the exit phase brackets `onExit` the same way |
| Transitions.ErrorPhase | muscat-core/src/commonMain/kotlin/io/github/hkusu/muscat/core/DefaultStore.kt:223-236 | Definition: the error phase brackets `onError` the same way, its before-hook carrying the error |
| Transitions.ChangeTrace | muscat-core/src/commonMain/kotlin/io/github/hkusu/muscat/core/DefaultStore.kt:208-221 | Definition: a change is its before-change hook, the `latestState` publication of the new value, then its after-change hook with new and previous state |
| Transitions.Transition | muscat-core/src/commonMain/kotlin/io/github/hkusu/muscat/core/DefaultStore.kt:94-104 | Definition: the exit/change/enter block shared by `onActionDispatched` (94-104), `onStateEntered` (114-124) and `onErrorOccurred` (137-147); its properties are `TransitionSameKind` and `TransitionKindChange` |
| Transitions.Catch | muscat-core/src/commonMain/kotlin/io/github/hkusu/muscat/core/DefaultStore.kt:105-107 | Definition: a failure that escaped the try block goes to `onErrorOccurred` with the state current at that moment; otherwise the run stands |
| Transitions.EnterTry | muscat-core/src/commonMain/kotlin/io/github/hkusu/muscat/core/DefaultStore.kt:111-124 | Definition: the try block of `onStateEntered`: the enter phase, then the shared block on its result; a throwing `onEnter` escapes |
| Transitions.EnterStep | muscat-core/src/commonMain/kotlin/io/github/hkusu/muscat/core/DefaultStore.kt:110-132 | Definition: `onStateEntered`, its try block caught outside error mode and rethrown in it; its properties are `EnterFollowsChain` and `EnterStepCoherent` |
| Transitions.ErrorStep | muscat-core/src/commonMain/kotlin/io/github/hkusu/muscat/core/DefaultStore.kt:134-148 | Definition: `onErrorOccurred`: the error phase, then the shared block with error-mode enters, and no catch |
| Transitions.DispatchTry | muscat-core/src/commonMain/kotlin/io/github/hkusu/muscat/core/DefaultStore.kt:91-104 | Definition: the try block of `onActionDispatched`: the dispatch phase, then the shared block on its result |
| Transitions.ActionStep | muscat-core/src/commonMain/kotlin/io/github/hkusu/muscat/core/DefaultStore.kt:90-108 | Definition: `onActionDispatched`, its try block caught; its properties are `ActionStepCoherent` and the routing lemmas |
| Transitions.Uncaught | muscat-core/src/commonMain/kotlin/io/github/hkusu/muscat/core/DefaultStore.kt:38 | Definition: a failure that escapes a launched block reaches the exception handler, which calls the constructor's `onError` |
| Transitions.InitRun | muscat-core/src/commonMain/kotlin/io/github/hkusu/muscat/core/DefaultStore.kt:75-88 | Definition: `init`: every middleware's `onInit`, then the initial enter if asked for; its property is `InitRunCoherent` |
| Transitions.DispatchRun | muscat-core/src/commonMain/kotlin/io/github/hkusu/muscat/core/DefaultStore.kt:40-47 | Definition: one launched dispatch on the state current when it runs, with the exception handler; its property is `DispatchRunCoherent` |
| Traces.Replay | muscat-core/src/commonMain/kotlin/io/github/hkusu/muscat/core/DefaultStore.kt:32 | Definition: the state `currentState` reads after a trace, the last value published through `latestState` (line 214) |
| Traces.Coherent | muscat-core/src/commonMain/kotlin/io/github/hkusu/muscat/core/DefaultStore.kt:208-221 | Definition: every published change starts from the state then current and is to a different value, as the guard at lines 98, 118 and 141 demands |
| Traces.Published | muscat-core/src/commonMain/kotlin/io/github/hkusu/muscat/core/DefaultStore.kt:171 | Definition: the events the trace broadcast on the event flow, in order |
| Engine.DefaultStore.Valid | muscat-core/src/commonMain/kotlin/io/github/hkusu/muscat/core/DefaultStore.kt:23-32 | Definition: the class invariant: the current state is the last published one, every change is genuine, and once initialised the middlewares' `onInit` comes first |
| StoreTypes.DefaultHandlers | muscat-core/src/commonMain/kotlin/io/github/hkusu/muscat/core/DefaultStore.kt:65-73 | The defaults: enter and dispatch return their input, exit does nothing, `onError` rethrows |
| TransitionProperties.InitRunCoherent | muscat-core/src/commonMain/kotlin/io/github/hkusu/muscat/core/DefaultStore.kt:75-88 | Every middleware's `onInit` is recorded before anything else; the initial enter runs on the initial state exactly when `processInitialStateEnter` is set; the changes published are genuine and the last one is current |
| TransitionProperties.EmitTraceAt | muscat-core/src/commonMain/kotlin/io/github/hkusu/muscat/core/DefaultStore.kt:165-177 | The i-th emitted event is recorded as before-hook, broadcast of that event, after-hook, at positions 3i..3i+2 |
| TransitionProperties.EmitTracePublishes | muscat-core/src/commonMain/kotlin/io/github/hkusu/muscat/core/DefaultStore.kt:238-240 | Emitting broadcasts exactly the emitted events in order, publishes no state change and starts no error handling |
| TransitionProperties.BracketShape | muscat-core/src/commonMain/kotlin/io/github/hkusu/muscat/core/DefaultStore.kt:150-163 | A phase records its before-hook first and its after-hooks last, broadcasts exactly the emitted events and changes no state |
| TransitionProperties.BracketEmitsAt | muscat-core/src/commonMain/kotlin/io/github/hkusu/muscat/core/DefaultStore.kt:238-240 | Events emitted inside a phase are reported with the state current at emission, not the phase's argument |
| TransitionProperties.DispatchPhaseShape | muscat-core/src/commonMain/kotlin/io/github/hkusu/muscat/core/DefaultStore.kt:150-163 | The dispatch phase returns `onDispatch`'s result unchanged; before-hook first; after-hook last, with that value, if and only if it returned; only its own events; no change, no error handling |
| TransitionProperties.EnterPhaseShape | muscat-core/src/commonMain/kotlin/io/github/hkusu/muscat/core/DefaultStore.kt:179-192 | The same for the enter phase around `onEnter` |
| TransitionProperties.ExitPhaseShape | muscat-core/src/commonMain/kotlin/io/github/hkusu/muscat/core/DefaultStore.kt:194-206 | The same for the exit phase around `onExit` |
| TransitionProperties.ErrorPhaseShape | muscat-core/src/commonMain/kotlin/io/github/hkusu/muscat/core/DefaultStore.kt:223-236 | The same for the error phase around `onError`, whose before-hook is its only error-handling entry |
| TransitionProperties.TransitionSameKind | muscat-core/src/commonMain/kotlin/io/github/hkusu/muscat/core/DefaultStore.kt:94-104 | Within one kind there is no exit and no enter; the new value is published if and only if it differs, otherwise nothing is recorded and the state stays |
| TransitionProperties.TransitionKindChange | muscat-core/src/commonMain/kotlin/io/github/hkusu/muscat/core/DefaultStore.kt:94-104 | On a kind change the exit runs first; if it throws, nothing is published and the failure escapes; otherwise exit, then change, then enter of the new state, in that order |
| TransitionProperties.ExitIffKindChange | muscat-core/src/commonMain/kotlin/io/github/hkusu/muscat/core/DefaultStore.kt:94-96 | A step starts with the exit hook if and only if the kinds differ |
| TransitionProperties.ChangeTraceCoherent | muscat-core/src/commonMain/kotlin/io/github/hkusu/muscat/core/DefaultStore.kt:208-221 | A change from a state to a different one is genuine and leaves the new state current |
| TransitionProperties.TransitionCoherent | muscat-core/src/commonMain/kotlin/io/github/hkusu/muscat/core/DefaultStore.kt:94-104 | The transition rule publishes only genuine changes and leaves the last published value current |
| TransitionProperties.EnterStepCoherent | muscat-core/src/commonMain/kotlin/io/github/hkusu/muscat/core/DefaultStore.kt:110-132 | The same for an enter step, nested enters and error handling included |
| TransitionProperties.EnterTryCoherent | muscat-core/src/commonMain/kotlin/io/github/hkusu/muscat/core/DefaultStore.kt:111-124 | The same for the try block of an enter step |
| TransitionProperties.CatchCoherent | muscat-core/src/commonMain/kotlin/io/github/hkusu/muscat/core/DefaultStore.kt:105-107 | Catching a failure keeps a coherent run coherent: error handling starts from the state current when the failure escaped |
| TransitionProperties.ErrorStepCoherent | muscat-core/src/commonMain/kotlin/io/github/hkusu/muscat/core/DefaultStore.kt:134-148 | Error handling publishes only genuine changes and leaves the last published value current |
| TransitionProperties.ActionStepCoherent | muscat-core/src/commonMain/kotlin/io/github/hkusu/muscat/core/DefaultStore.kt:90-108 | The same for a whole dispatch step |
| TransitionProperties.UncaughtQuiet | muscat-core/src/commonMain/kotlin/io/github/hkusu/muscat/core/DefaultStore.kt:38 | The exception handler's entry changes no state: a helper for the coherence proofs |
| TransitionProperties.DispatchRunCoherent | muscat-core/src/commonMain/kotlin/io/github/hkusu/muscat/core/DefaultStore.kt:40-47 | A dispatch cycle, exception handler included, publishes only genuine changes and leaves the last one current |
| Traces.ReplayAppend | muscat-core/src/commonMain/kotlin/io/github/hkusu/muscat/core/DefaultStore.kt:214 | The state left by two traces in sequence is that of the second started from the first's; coherence splits the same way, both directions |
| Traces.QuietKeepsState | muscat-core/src/commonMain/kotlin/io/github/hkusu/muscat/core/DefaultStore.kt:32 | A trace that publishes no change leaves the current state as it was |
| Traces.PublishedAppend | muscat-core/src/commonMain/kotlin/io/github/hkusu/muscat/core/DefaultStore.kt:171 | The events broadcast by two traces in sequence are those of the first followed by those of the second |
| Traces.AppendAssoc | muscat-core/src/commonMain/kotlin/io/github/hkusu/muscat/core/DefaultStore.kt:214 | Concatenation of traces is associative: a helper for the coherence proofs and the store's methods |
| TransitionProperties.QuietAppend | muscat-core/src/commonMain/kotlin/io/github/hkusu/muscat/core/DefaultStore.kt:214 | Two traces that publish no change publish none together: a helper for the coherence proofs |
| TransitionProperties.NoErrorHandlingAppend | muscat-core/src/commonMain/kotlin/io/github/hkusu/muscat/core/DefaultStore.kt:126-127 | Two traces that start no error handling start none together: a helper for `EnterFollowsChain` and the error-mode lemmas |
| Transitions.EmitTrace | muscat-core/src/commonMain/kotlin/io/github/hkusu/muscat/core/DefaultStore.kt:238-240 | Three entries per emitted event |
| Transitions.Chain | muscat-core/src/commonMain/kotlin/io/github/hkusu/muscat/core/DefaultStore.kt:110-124 | An independent account of an enter chain; when it settles, the last value has the kind of the last enter's input |
| StoreProperties.CatchExtends | muscat-core/src/commonMain/kotlin/io/github/hkusu/muscat/core/DefaultStore.kt:125-128 | A catch only appends to its body's trace; an escaped failure is handed to error handling with the state current when it escaped |
| StoreProperties.EnterTryCases | muscat-core/src/commonMain/kotlin/io/github/hkusu/muscat/core/DefaultStore.kt:111-124 | The try block of an enter step, by case: enter failure, same kind, exit failure, nested enter |
| StoreProperties.ChainCases | muscat-core/src/commonMain/kotlin/io/github/hkusu/muscat/core/DefaultStore.kt:110-124 | `Chain` unfolded once, by the same cases: a helper for `EnterFollowsChain` |
| StoreProperties.FirstHandling | muscat-core/src/commonMain/kotlin/io/github/hkusu/muscat/core/DefaultStore.kt:125-127 | Definition: an entry occurs in a trace with no error-handling entry before it |
| StoreProperties.Follows | muscat-core/src/commonMain/kotlin/io/github/hkusu/muscat/core/DefaultStore.kt:110-132 | Definition: a run ends as a chain says: settled means completed on the last value, exhausted means out of fuel, a failure escapes with its state current in error mode and is otherwise the first error handling the run starts |
| StoreProperties.FollowsThroughCatch | muscat-core/src/commonMain/kotlin/io/github/hkusu/muscat/core/DefaultStore.kt:125-131 | A catch keeps what the chain says of its body: a failure is rethrown in error mode, and otherwise its first error-handling entry stays first |
| StoreProperties.FailureThroughCatch | muscat-core/src/commonMain/kotlin/io/github/hkusu/muscat/core/DefaultStore.kt:125-128 | A failure that escaped a try block that started no error handling is rethrown in error mode and otherwise handed to error handling as the first such entry, with the state current when it escaped |
| StoreProperties.FollowsFromInner | muscat-core/src/commonMain/kotlin/io/github/hkusu/muscat/core/DefaultStore.kt:122-124 | A nested enter's ending is the enclosing enter's ending, since the entries before it start no error handling |
| StoreProperties.EnterFollowsChain | muscat-core/src/commonMain/kotlin/io/github/hkusu/muscat/core/DefaultStore.kt:110-132 | The enter step follows `Chain`: when it settles, the step completes with the last enter's value current (of its input's kind); when the bound is exhausted, out of fuel; a failure at state `at` escapes with `at` current in error mode and otherwise the run's first error-handling entry is handling of that failure with `at` current |
| StoreProperties.ErrorStepStartsHandling | muscat-core/src/commonMain/kotlin/io/github/hkusu/muscat/core/DefaultStore.kt:134-148 | Error handling records its before-hook first and starts no further error handling itself; if `onError` throws, that failure escapes at once with nothing changed |
| StoreProperties.TransitionInErrorMode | muscat-core/src/commonMain/kotlin/io/github/hkusu/muscat/core/DefaultStore.kt:137-147 | The exit, change and enter after `onError` start no error handling |
| StoreProperties.EnterInErrorMode | muscat-core/src/commonMain/kotlin/io/github/hkusu/muscat/core/DefaultStore.kt:126-130 | An error-mode enter step and all its nested enters start no error handling: their failures escape |
| StoreProperties.DispatchFailureRouted | muscat-core/src/commonMain/kotlin/io/github/hkusu/muscat/core/DefaultStore.kt:91-107 | A failing `onDispatch` goes to error handling with the dispatched-on state, after the dispatch before-hook and emits |
| StoreProperties.ExitFailureRouted | muscat-core/src/commonMain/kotlin/io/github/hkusu/muscat/core/DefaultStore.kt:94-107 | A failing exit goes to error handling before any change is published, with the dispatched-on state |
| StoreProperties.EnterFailureAfterChange | muscat-core/src/commonMain/kotlin/io/github/hkusu/muscat/core/DefaultStore.kt:98-107 | An enter failure after a published change is handled with the new state; if that handling escapes, the dispatch's catch handles again with the state then current |
| StoreProperties.DefaultErrorRethrows | muscat-core/src/commonMain/kotlin/io/github/hkusu/muscat/core/DefaultStore.kt:71-73 | With the default `onError` (any `Handlers` whose `onError` throws the error it gets and emits nothing, whatever the other functions), error handling records its before-hook only, changes nothing, and the error escapes unchanged |
| StoreProperties.EnterFailureHandledTwice | muscat-core/src/commonMain/kotlin/io/github/hkusu/muscat/core/DefaultStore.kt:103-107 | With the default `onError` (whatever the other functions), when a kind-changing dispatch's exit succeeds and `onEnter` then fails on the new state, the whole step is the dispatch, exit, change and enter phases followed by exactly two error-handling entries, both with the new state current, and the failure escapes the cycle with the new state current |
| StoreProperties.DefaultDispatchKeepsState | muscat-core/src/commonMain/kotlin/io/github/hkusu/muscat/core/DefaultStore.kt:69 | With the default `onDispatch` (any `Handlers` whose `onDispatch` returns its input and emits nothing, whatever the other functions), a cycle records its two hooks and leaves the state unchanged, whatever the action |
| StoreProperties.DefaultInitKeepsState | muscat-core/src/commonMain/kotlin/io/github/hkusu/muscat/core/DefaultStore.kt:65 | With the default `onEnter` (whatever the other functions), initialisation records `onInit`, then the two enter hooks if asked for, and leaves the initial state current |
| StoreProperties.DefaultEnterKeepsState | muscat-core/src/commonMain/kotlin/io/github/hkusu/muscat/core/DefaultStore.kt:65 | With the default `onEnter` (whatever the other functions), an enter step records its two hooks only and settles at once on the state it enters |
| StoreProperties.SameValueNoChange | muscat-core/src/commonMain/kotlin/io/github/hkusu/muscat/core/DefaultStore.kt:98-100 | A dispatch returning a value equal to its input publishes nothing and leaves that state current |

## Left out

- **Coroutines and the mutex.** `launch`, `coroutineScope`, `Mutex.withLock`
  and `dispose`/`cancel` are not modelled. Cycles are sequential method
  calls, each starting from the state the previous one left. The
  asynchronous `launch` in `dispatch` and `init` is modelled as running at
  once. Under a multi-threaded dispatcher the `init` coroutine (line 76) and
  the first dispatch's coroutine (line 42) may take the mutex in either
  order, so `Valid`'s "middlewares initialised first" conjunct,
  `InitRunCoherent`'s first entry, and the initial enter starting from the
  initial state hold only under this sequential reading.
- **Ordering among middlewares within a phase.** Hooks of different
  middlewares are launched concurrently, so only phase-level ordering
  exists. Each hook point is one trace entry.
- **Hooks and `latestState` that fail.** The model assumes hooks, the
  `latestState` callback and the event broadcast never throw.
- **Flows and subscribers.** The `StateFlow`/`SharedFlow` broadcasting,
  `collectState` and `collectEvent` are only represented by the
  `LatestState` and `EventPublished` trace entries. The lazy `state`
  property is modelled only through `initialized`.
- **Unbounded enter recursion.** An enter chain that never settles would
  not terminate in Kotlin. In the model it ends in `OutOfFuel` at a depth
  of `fuel`.
- **The constructor's `onError` callback.** What it does with an escaped
  failure is outside the store; the model records `UncaughtError` only.
- `Store.kt`, `Middleware.kt`, the logging and message middlewares, the
  Compose adapters and the Gradle scripts are not part of this model.
  - They hold interfaces, no-op default hooks, string formatting for a
    foreign logger, a global message channel and UI glue.
  - `Store.kt`'s `create` calls a constructor signature that `DefaultStore.kt`
    does not declare.
