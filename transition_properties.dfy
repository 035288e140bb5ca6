/** What the store promises about its processing cycles, proved of the
    reference semantics in `Transitions`. */
module TransitionProperties {
  import opened StoreTypes
  import opened Traces
  import opened Transitions

  // ---------------------------------------------------------------------
  // Event emission and phase brackets

  /** Emitting `events` records, for the i-th event, the before-hook, the
      broadcast of that very event and the after-hook, all with `state`. */
  lemma {:induction false} EmitTraceAt<S, A, E, X>(state: S, events: seq<E>, i: nat)
    requires i < |events|
    ensures var t := EmitTrace<S, A, E, X>(state, events);
      && t[3 * i] == BeforeEventEmit(state, events[i])
      && t[3 * i + 1] == EventPublished(events[i])
      && t[3 * i + 2] == AfterEventEmit(state, events[i])
    decreases |events|
  {
    var init := events[..|events| - 1];
    if i < |events| - 1 {
      EmitTraceAt<S, A, E, X>(state, init, i);
      assert init[i] == events[i];
    }
  }

  /** Emission broadcasts exactly the emitted events, in order, and never
      changes the current state. */
  lemma {:induction false} EmitTracePublishes<S, A, E, X>(state: S, events: seq<E>)
    ensures var t := EmitTrace<S, A, E, X>(state, events);
      Published(t) == events && Quiet(t) && NoErrorHandling(t)
    decreases |events|
  {
    if events != [] {
      var init := events[..|events| - 1];
      var last: seq<Entry<S, A, E, X>> := EmitEntries(state, events[|events| - 1]);
      EmitTracePublishes<S, A, E, X>(state, init);
      PublishedAppend(EmitTrace<S, A, E, X>(state, init), last);
      var e := events[|events| - 1];
      assert last[1..][1..] == [AfterEventEmit(state, e)] && last[1..][1..][1..] == [];
      assert Published(last[1..][1..]) == [];
      assert Published(last) == [e];
      assert init + [events[|events| - 1]] == events;
    }
  }

  lemma QuietAppend<S, A, E, X>(a: seq<Entry<S, A, E, X>>, b: seq<Entry<S, A, E, X>>)
    requires Quiet(a) && Quiet(b)
    ensures Quiet(a + b)
  {
    forall i | 0 <= i < |a + b| ensures !(a + b)[i].BeforeStateChange? && !(a + b)[i].LatestState? {
      if i < |a| { assert (a + b)[i] == a[i]; } else { assert (a + b)[i] == b[i - |a|]; }
    }
  }

  lemma NoErrorHandlingAppend<S, A, E, X>(a: seq<Entry<S, A, E, X>>, b: seq<Entry<S, A, E, X>>)
    requires NoErrorHandling(a) && NoErrorHandling(b)
    ensures NoErrorHandling(a + b)
  {
    forall i | 0 <= i < |a + b| ensures !(a + b)[i].BeforeError? {
      if i < |a| { assert (a + b)[i] == a[i]; } else { assert (a + b)[i] == b[i - |a|]; }
    }
  }

  /** A phase runs its before-hook first, then broadcasts exactly what the
      user function emitted, then its after-hooks (if the user function
      returned), and changes no state. */
  lemma {:induction false} BracketShape<S, A, E, X>(before: Entry<S, A, E, X>, cur: S, emitted: seq<E>,
                                                    after: seq<Entry<S, A, E, X>>)
    requires |after| <= 1 && !before.EventPublished? && !before.BeforeStateChange? && !before.LatestState?
    requires forall i :: 0 <= i < |after| ==> !after[i].EventPublished? && !after[i].BeforeStateChange? && !after[i].LatestState?
    ensures var t := Bracket(before, cur, emitted, after);
      && t[0] == before
      && |t| == 1 + 3 * |emitted| + |after|
      && t[|t| - |after|..] == after
      && Published(t) == emitted
      && Quiet(t)
      && (!before.BeforeError? && (forall i :: 0 <= i < |after| ==> !after[i].BeforeError?) ==> NoErrorHandling(t))
  {
    var e := EmitTrace<S, A, E, X>(cur, emitted);
    EmitTracePublishes<S, A, E, X>(cur, emitted);
    PublishedAppend([before], e);
    PublishedAppend([before] + e, after);
    assert Published(after) == [] by {
      if after != [] { assert after[1..] == []; }
    }
    QuietAppend([before], e);
    QuietAppend([before] + e, after);
    if !before.BeforeError? && (forall i :: 0 <= i < |after| ==> !after[i].BeforeError?) {
      NoErrorHandlingAppend([before], e);
      NoErrorHandlingAppend([before] + e, after);
    }
  }

  /** Inside a phase, the i-th event the user function emitted is
      recorded with the state current at emission time (`cur`), which need
      not be the phase's own argument: before-hook, broadcast, after-hook. */
  lemma BracketEmitsAt<S, A, E, X>(before: Entry<S, A, E, X>, cur: S, emitted: seq<E>,
                                   after: seq<Entry<S, A, E, X>>, i: nat)
    requires i < |emitted|
    ensures var t := Bracket(before, cur, emitted, after);
      && t[1 + 3 * i] == BeforeEventEmit(cur, emitted[i])
      && t[2 + 3 * i] == EventPublished(emitted[i])
      && t[3 + 3 * i] == AfterEventEmit(cur, emitted[i])
  {
    EmitTraceAt<S, A, E, X>(cur, emitted, i);
    var e := EmitTrace<S, A, E, X>(cur, emitted);
    var t := Bracket(before, cur, emitted, after);
    assert t == [before] + e + after;
    assert t[1 + 3 * i] == e[3 * i] && t[2 + 3 * i] == e[3 * i + 1] && t[3 + 3 * i] == e[3 * i + 2];
  }

  /** The dispatch phase hands on exactly what `onDispatch` returned, runs
      its before-hook first and its after-hook (with the returned state)
      last and only if `onDispatch` returned, broadcasts exactly the events
      `onDispatch` emitted, and neither changes the state nor starts error
      handling. */
  lemma DispatchPhaseShape<S, A, E, X, K>(h: Handlers<S, A, E, X, K>, cur: S, state: S, action: A)
    ensures var p := DispatchPhase(h, cur, state, action); var re := h.onDispatch(state, action);
      && p.result == re.result
      && p.trace[0] == BeforeActionDispatch(state, action)
      && |p.trace| == 1 + 3 * |re.emitted| + (if re.result.Ok? then 1 else 0)
      && (re.result.Ok? ==> p.trace[|p.trace| - 1] == AfterActionDispatch(state, action, re.result.value))
      && Published(p.trace) == re.emitted && Quiet(p.trace) && NoErrorHandling(p.trace)
  {
    var re := h.onDispatch(state, action);
    BracketShape<S, A, E, X>(BeforeActionDispatch(state, action), cur, re.emitted,
                             if re.result.Ok? then [AfterActionDispatch(state, action, re.result.value)] else []);
  }

  /** The enter phase, likewise, around `onEnter`. */
  lemma EnterPhaseShape<S, A, E, X, K>(h: Handlers<S, A, E, X, K>, cur: S, state: S)
    ensures var p := EnterPhase(h, cur, state); var re := h.onEnter(state);
      && p.result == re.result
      && p.trace[0] == BeforeStateEnter(state)
      && |p.trace| == 1 + 3 * |re.emitted| + (if re.result.Ok? then 1 else 0)
      && (re.result.Ok? ==> p.trace[|p.trace| - 1] == AfterStateEnter(state, re.result.value))
      && Published(p.trace) == re.emitted && Quiet(p.trace) && NoErrorHandling(p.trace)
  {
    var re := h.onEnter(state);
    BracketShape<S, A, E, X>(BeforeStateEnter(state), cur, re.emitted,
                             if re.result.Ok? then [AfterStateEnter(state, re.result.value)] else []);
  }

  /** The exit phase, likewise, around `onExit`. */
  lemma ExitPhaseShape<S, A, E, X, K>(h: Handlers<S, A, E, X, K>, cur: S, state: S)
    ensures var p := ExitPhase(h, cur, state); var re := h.onExit(state);
      && p.result == re.result
      && p.trace[0] == BeforeStateExit(state)
      && |p.trace| == 1 + 3 * |re.emitted| + (if re.result.Ok? then 1 else 0)
      && (re.result.Ok? ==> p.trace[|p.trace| - 1] == AfterStateExit(state))
      && Published(p.trace) == re.emitted && Quiet(p.trace) && NoErrorHandling(p.trace)
  {
    var re := h.onExit(state);
    BracketShape<S, A, E, X>(BeforeStateExit(state), cur, re.emitted,
                             if re.result.Ok? then [AfterStateExit(state)] else []);
  }

  /** The error phase, likewise, around `onError`; its before-hook is the
      one error-handling entry it records. */
  lemma ErrorPhaseShape<S, A, E, X, K>(h: Handlers<S, A, E, X, K>, cur: S, state: S, error: X)
    ensures var p := ErrorPhase(h, cur, state, error); var re := h.onError(state, error);
      && p.result == re.result
      && p.trace[0] == BeforeError(state, error)
      && |p.trace| == 1 + 3 * |re.emitted| + (if re.result.Ok? then 1 else 0)
      && (re.result.Ok? ==> p.trace[|p.trace| - 1] == AfterError(state, re.result.value, error))
      && Published(p.trace) == re.emitted && Quiet(p.trace) && NoErrorHandling(p.trace[1..])
  {
    var re := h.onError(state, error);
    var after := if re.result.Ok? then [AfterError(state, re.result.value, error)] else [];
    BracketShape<S, A, E, X>(BeforeError(state, error), cur, re.emitted, after);
    var e := EmitTrace<S, A, E, X>(cur, re.emitted);
    EmitTracePublishes<S, A, E, X>(cur, re.emitted);
    NoErrorHandlingAppend(e, after);
    assert ErrorPhase(h, cur, state, error).trace[1..] == e + after;
  }

  // ---------------------------------------------------------------------
  // Exit, change and enter

  /** Within one kind, a step runs neither exit nor enter: it publishes the
      new value if and only if it differs from the old one, and otherwise
      leaves everything as it was. */
  lemma TransitionSameKind<S, A, E, X, K>(h: Handlers<S, A, E, X, K>, cur: S, state: S, next: S,
                                                  inErrorHandling: bool, fuel: nat)
    requires h.kind(state) == h.kind(next)
    ensures var r := Transition(h, cur, state, next, inErrorHandling, fuel);
      && r.out == Completed
      && (state != next ==> r.current == next && r.trace == ChangeTrace(state, next))
      && (state == next ==> r.current == cur && r.trace == [])
  {
  }

  /** On a kind change the step exits the old state first; if the exit
      throws, nothing is published and the failure escapes; otherwise the
      change is published and the new state is entered, in that order. */
  lemma TransitionKindChange<S, A, E, X, K>(h: Handlers<S, A, E, X, K>, cur: S, state: S, next: S,
                                                    inErrorHandling: bool, fuel: nat)
    requires h.kind(state) != h.kind(next)
    ensures var r := Transition(h, cur, state, next, inErrorHandling, fuel);
      var exit := ExitPhase(h, cur, state);
      && r.trace[0] == BeforeStateExit(state)
      && (exit.result.Fail? ==> r == Run(Escaped(exit.result.error), cur, exit.trace) && Quiet(r.trace))
      && (exit.result.Ok? ==>
            var entered := EnterStep(h, next, next, inErrorHandling, fuel);
            r == Run(entered.out, entered.current, exit.trace + ChangeTrace(state, next) + entered.trace))
  {
    var x := h.onExit(state);
    BracketShape<S, A, E, X>(BeforeStateExit(state), cur, x.emitted, if x.result.Ok? then [AfterStateExit(state)] else []);
  }

  /** Exit hooks run first in a step exactly when the kind changes. */
  lemma ExitIffKindChange<S, A, E, X, K>(h: Handlers<S, A, E, X, K>, cur: S, state: S, next: S,
                                                 inErrorHandling: bool, fuel: nat)
    ensures var r := Transition(h, cur, state, next, inErrorHandling, fuel);
      (|r.trace| > 0 && r.trace[0].BeforeStateExit?) <==> h.kind(state) != h.kind(next)
  {
  }

  // ---------------------------------------------------------------------
  // The current state is always the last genuinely changed value

  lemma ChangeTraceCoherent<S, A, E, X>(state: S, next: S)
    requires state != next
    ensures var t := ChangeTrace<S, A, E, X>(state, next);
      Coherent(state, t) && Replay(state, t) == next
  {
    var t := ChangeTrace<S, A, E, X>(state, next);
    assert t[1..] == [LatestState(next), AfterStateChange(next, state)];
    assert t[1..][1..] == [AfterStateChange(next, state)];
    assert t[1..][1..][1..] == [];
    assert Coherent(next, t[1..][1..]) && Replay(next, t[1..][1..]) == next;
    assert Coherent(state, t[1..]) && Replay(state, t[1..]) == next;
  }

  /** A step that starts with `current == state` publishes only values that
      differ from the state they replace, and leaves as current the last
      value it published. */
  lemma {:induction false} TransitionCoherent<S, A, E, X, K>(h: Handlers<S, A, E, X, K>, cur: S, state: S, next: S,
                                                             inErrorHandling: bool, fuel: nat)
    requires cur == state
    ensures var r := Transition(h, cur, state, next, inErrorHandling, fuel);
      Coherent(cur, r.trace) && r.current == Replay(cur, r.trace)
    decreases fuel, 2
  {
    var kindChanged := h.kind(state) != h.kind(next);
    var x := h.onExit(state);
    BracketShape<S, A, E, X>(BeforeStateExit(state), cur, x.emitted, if x.result.Ok? then [AfterStateExit(state)] else []);
    var exit: Phase<(), S, A, E, X> := if kindChanged then ExitPhase(h, cur, state) else Phase(Ok(()), []);
    QuietKeepsState(cur, exit.trace);
    if exit.result.Ok? {
      var changed := if state != next then Run(Completed, next, ChangeTrace<S, A, E, X>(state, next))
                     else Run(Completed, cur, []);
      if state != next {
        ChangeTraceCoherent<S, A, E, X>(state, next);
      }
      ReplayAppend(cur, exit.trace, changed.trace);
      if kindChanged {
        EnterStepCoherent(h, next, next, inErrorHandling, fuel);
        ReplayAppend(cur, exit.trace + changed.trace, EnterStep(h, next, next, inErrorHandling, fuel).trace);
      }
    }
  }

  lemma {:induction false} EnterStepCoherent<S, A, E, X, K>(h: Handlers<S, A, E, X, K>, cur: S, state: S,
                                                            inErrorHandling: bool, fuel: nat)
    requires cur == state
    ensures var r := EnterStep(h, cur, state, inErrorHandling, fuel);
      Coherent(cur, r.trace) && r.current == Replay(cur, r.trace)
    decreases fuel, 1
  {
    if fuel > 0 {
      EnterTryCoherent(h, cur, state, inErrorHandling, fuel - 1);
      if !inErrorHandling {
        CatchCoherent(h, cur, EnterTry(h, cur, state, inErrorHandling, fuel - 1), fuel - 1);
      }
    }
  }

  lemma {:induction false} EnterTryCoherent<S, A, E, X, K>(h: Handlers<S, A, E, X, K>, cur: S, state: S,
                                                           inErrorHandling: bool, fuel: nat)
    requires cur == state
    ensures var r := EnterTry(h, cur, state, inErrorHandling, fuel);
      Coherent(cur, r.trace) && r.current == Replay(cur, r.trace)
    decreases fuel, 3
  {
    var enter := EnterPhase(h, cur, state);
    var n := h.onEnter(state);
    BracketShape<S, A, E, X>(BeforeStateEnter(state), cur, n.emitted,
                             if n.result.Ok? then [AfterStateEnter(state, n.result.value)] else []);
    QuietKeepsState(cur, enter.trace);
    if enter.result.Ok? {
      TransitionCoherent(h, cur, state, enter.result.value, inErrorHandling, fuel);
      ReplayAppend(cur, enter.trace, Transition(h, cur, state, enter.result.value, inErrorHandling, fuel).trace);
    }
  }

  /** Catching keeps a coherent run coherent: error handling starts from
      the state current when the failure escaped. */
  lemma {:induction false} CatchCoherent<S, A, E, X, K>(h: Handlers<S, A, E, X, K>, cur: S, body: Run<S, A, E, X>,
                                                        fuel: nat)
    requires Coherent(cur, body.trace) && body.current == Replay(cur, body.trace)
    ensures var r := Catch(h, body, fuel);
      Coherent(cur, r.trace) && r.current == Replay(cur, r.trace)
    decreases fuel, 4
  {
    if body.out.Escaped? {
      ErrorStepCoherent(h, body.current, body.current, body.out.error, fuel);
      ReplayAppend(cur, body.trace, ErrorStep(h, body.current, body.current, body.out.error, fuel).trace);
    }
  }

  lemma {:induction false} ErrorStepCoherent<S, A, E, X, K>(h: Handlers<S, A, E, X, K>, cur: S, state: S, error: X,
                                                            fuel: nat)
    requires cur == state
    ensures var r := ErrorStep(h, cur, state, error, fuel);
      Coherent(cur, r.trace) && r.current == Replay(cur, r.trace)
    decreases fuel, 3
  {
    var handled := ErrorPhase(h, cur, state, error);
    var re := h.onError(state, error);
    BracketShape<S, A, E, X>(BeforeError(state, error), cur, re.emitted,
                             if re.result.Ok? then [AfterError(state, re.result.value, error)] else []);
    QuietKeepsState(cur, handled.trace);
    if handled.result.Ok? {
      TransitionCoherent(h, cur, state, handled.result.value, true, fuel);
      ReplayAppend(cur, handled.trace, Transition(h, cur, state, handled.result.value, true, fuel).trace);
    }
  }

  lemma ActionStepCoherent<S, A, E, X, K>(h: Handlers<S, A, E, X, K>, cur: S, action: A, fuel: nat)
    ensures var r := ActionStep(h, cur, cur, action, fuel);
      Coherent(cur, r.trace) && r.current == Replay(cur, r.trace)
  {
    var dispatched := DispatchPhase(h, cur, cur, action);
    var d := h.onDispatch(cur, action);
    BracketShape<S, A, E, X>(BeforeActionDispatch(cur, action), cur, d.emitted,
                             if d.result.Ok? then [AfterActionDispatch(cur, action, d.result.value)] else []);
    QuietKeepsState(cur, dispatched.trace);
    if dispatched.result.Ok? {
      TransitionCoherent(h, cur, cur, dispatched.result.value, false, fuel);
      ReplayAppend(cur, dispatched.trace, Transition(h, cur, cur, dispatched.result.value, false, fuel).trace);
    }
    CatchCoherent(h, cur, DispatchTry(h, cur, cur, action, fuel), fuel);
  }

  lemma UncaughtQuiet<S, A, E, X>(cur: S, out: Outcome<X>)
    ensures Coherent(cur, Uncaught<S, A, E, X>(out)) && Replay(cur, Uncaught<S, A, E, X>(out)) == cur
  {
  }

  /** A dispatch cycle, exception handler included, publishes only genuine
      changes and leaves the last published value as the current state. */
  lemma DispatchRunCoherent<S, A, E, X, K>(h: Handlers<S, A, E, X, K>, cur: S, action: A, fuel: nat)
    ensures var r := DispatchRun(h, cur, action, fuel);
      Coherent(cur, r.trace) && r.current == Replay(cur, r.trace)
  {
    var r := ActionStep(h, cur, cur, action, fuel);
    ActionStepCoherent(h, cur, action, fuel);
    UncaughtQuiet<S, A, E, X>(r.current, r.out);
    ReplayAppend(cur, r.trace, Uncaught<S, A, E, X>(r.out));
  }

  /** Initialisation records the middlewares' `onInit` before anything
      else, runs the initial enter pass only when asked to, and like every
      cycle publishes only genuine changes. */
  lemma InitRunCoherent<S, A, E, X, K>(h: Handlers<S, A, E, X, K>, initialState: S,
                                       processInitialStateEnter: bool, fuel: nat)
    ensures var r := InitRun(h, initialState, processInitialStateEnter, fuel);
      && Coherent(initialState, r.trace) && r.current == Replay(initialState, r.trace)
      && r.trace[0] == MiddlewaresInitialized
      && (!processInitialStateEnter ==> r == Run(Completed, initialState, [MiddlewaresInitialized]))
      && (processInitialStateEnter && fuel > 0 ==> |r.trace| > 1 && r.trace[1] == BeforeStateEnter(initialState))
  {
    var entered := if processInitialStateEnter then EnterStep(h, initialState, initialState, false, fuel)
                   else Run(Completed, initialState, []);
    if processInitialStateEnter {
      EnterStepCoherent(h, initialState, initialState, false, fuel);
      if fuel > 0 {
        var n := h.onEnter(initialState);
        BracketShape<S, A, E, X>(BeforeStateEnter(initialState), initialState, n.emitted,
                                 if n.result.Ok? then [AfterStateEnter(initialState, n.result.value)] else []);
      }
    }
    var init: seq<Entry<S, A, E, X>> := [MiddlewaresInitialized];
    QuietKeepsState(initialState, init);
    ReplayAppend(initialState, init, entered.trace);
    UncaughtQuiet<S, A, E, X>(entered.current, entered.out);
    ReplayAppend(initialState, init + entered.trace, Uncaught<S, A, E, X>(entered.out));
  }
}
