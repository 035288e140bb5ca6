/** What the store promises about enter chains, error routing and its
    default transition functions, proved of the reference semantics in
    `Transitions`. */
module StoreProperties {
  import opened StoreTypes
  import opened Traces
  import opened Transitions
  import opened TransitionProperties

  // ---------------------------------------------------------------------
  // Settling of the enter chain

  /** Catching only ever appends to what the caught body recorded; an
      escaped failure is handed to error handling with the state current
      when it escaped. */
  lemma CatchExtends<S, A, E, X, K>(h: Handlers<S, A, E, X, K>, body: Run<S, A, E, X>, fuel: nat)
    ensures var r := Catch(h, body, fuel);
      && |body.trace| <= |r.trace| && r.trace[..|body.trace|] == body.trace
      && (!body.out.Escaped? ==> r == body)
      && (body.out.Escaped? ==> |body.trace| < |r.trace| && r.trace[|body.trace|] == BeforeError(body.current, body.out.error))
      && (forall e :: e in body.trace ==> e in r.trace)
      && (body.out.Escaped? ==> BeforeError(body.current, body.out.error) in r.trace)
  {
  }

  /** The `try` block of an enter step on the current state `s`, case by
      case. Before a failure, and before a nested enter, it records no
      error handling. */
  lemma EnterTryCases<S, A, E, X, K>(h: Handlers<S, A, E, X, K>, s: S, inErrorHandling: bool, fuel: nat)
    ensures var body := EnterTry(h, s, s, inErrorHandling, fuel); var re := h.onEnter(s).result;
      && (re.Fail? ==> body.out == Escaped(re.error) && body.current == s && NoErrorHandling(body.trace))
      && (re.Ok? && h.kind(re.value) == h.kind(s) ==> body.out == Completed && body.current == re.value)
      && (re.Ok? && h.kind(re.value) != h.kind(s) && h.onExit(s).result.Fail? ==>
            body.out == Escaped(h.onExit(s).result.error) && body.current == s && NoErrorHandling(body.trace))
      && (re.Ok? && h.kind(re.value) != h.kind(s) && h.onExit(s).result.Ok? ==>
            var inner := EnterStep(h, re.value, re.value, inErrorHandling, fuel);
            var p := EnterPhase(h, s, s).trace + (ExitPhase(h, s, s).trace + ChangeTrace(s, re.value));
            body.out == inner.out && body.current == inner.current
            && body.trace == p + inner.trace && NoErrorHandling(p))
  {
    EnterPhaseShape<S, A, E, X, K>(h, s, s);
    var re := h.onEnter(s).result;
    if re.Ok? {
      var n := re.value;
      if h.kind(n) == h.kind(s) {
        TransitionSameKind(h, s, s, n, inErrorHandling, fuel);
      } else {
        TransitionKindChange(h, s, s, n, inErrorHandling, fuel);
        ExitPhaseShape<S, A, E, X, K>(h, s, s);
        NoErrorHandlingAppend(EnterPhase(h, s, s).trace, ExitPhase(h, s, s).trace);
        if h.onExit(s).result.Ok? {
          var inner := EnterStep(h, n, n, inErrorHandling, fuel);
          var change := ChangeTrace<S, A, E, X>(s, n);
          assert NoErrorHandling(change) by {
            assert forall i :: 0 <= i < |change| ==> change[i] in {change[0], change[1], change[2]};
          }
          NoErrorHandlingAppend(ExitPhase(h, s, s).trace, change);
          NoErrorHandlingAppend(EnterPhase(h, s, s).trace, ExitPhase(h, s, s).trace + change);
          var p := EnterPhase(h, s, s).trace + (ExitPhase(h, s, s).trace + change);
          AppendAssoc(EnterPhase(h, s, s).trace, ExitPhase(h, s, s).trace + change, inner.trace);
          assert EnterTry(h, s, s, inErrorHandling, fuel).trace == p + inner.trace;
        }
      }
    }
  }

  /** How the chain from `s` goes on after its first enter, case by case:
      `Chain` unfolded once, a helper for `EnterFollowsChain`. */
  lemma ChainCases<S, A, E, X, K>(h: Handlers<S, A, E, X, K>, s: S, fuel: nat)
    requires fuel > 0
    ensures var c := Chain(h, s, fuel); var re := h.onEnter(s).result;
      && (re.Fail? ==> c == ChainFailed(s, re.error))
      && (re.Ok? && h.kind(re.value) == h.kind(s) ==> c == Settled(s, re.value))
      && (re.Ok? && h.kind(re.value) != h.kind(s) && h.onExit(s).result.Fail? ==>
            c == ChainFailed(s, h.onExit(s).result.error))
      && (re.Ok? && h.kind(re.value) != h.kind(s) && h.onExit(s).result.Ok? ==> c == Chain(h, re.value, fuel - 1))
  {
  }

  /** `e` is the first error-handling entry of `t`. */
  ghost predicate FirstHandling<S, A, E, X>(t: seq<Entry<S, A, E, X>>, e: Entry<S, A, E, X>)
  {
    exists k :: 0 <= k < |t| && t[k] == e && NoErrorHandling(t[..k])
  }

  /** `r` ends the way the chain `c` says: completed on the last value
      entered when it settles, out of fuel when it does not, and on a
      failure at state `at` either escaped with `at` current (in error mode)
      or handed to error handling with `at`, as the first error handling
      the run starts. */
  ghost predicate Follows<S, A, E, X>(r: Run<S, A, E, X>, c: Settling<S, X>, inErrorHandling: bool)
  {
    && (c.Settled? ==> r.out == Completed && r.current == c.last)
    && (c.Unsettled? ==> r.out == OutOfFuel)
    && (c.ChainFailed? && inErrorHandling ==> r.out == Escaped(c.error) && r.current == c.at)
    && (c.ChainFailed? && !inErrorHandling ==> FirstHandling(r.trace, BeforeError(c.at, c.error)))
  }

  /** A catch keeps what the chain says about its body. */
  lemma FollowsThroughCatch<S, A, E, X, K>(h: Handlers<S, A, E, X, K>, body: Run<S, A, E, X>, c: Settling<S, X>,
                                           inErrorHandling: bool, fuel: nat)
    requires Follows(body, c, inErrorHandling)
    ensures Follows(if inErrorHandling then body else Catch(h, body, fuel), c, inErrorHandling)
  {
    if !inErrorHandling && c.ChainFailed? {
      var r := Catch(h, body, fuel);
      CatchExtends(h, body, fuel);
      var k :| 0 <= k < |body.trace| && body.trace[k] == BeforeError(c.at, c.error) && NoErrorHandling(body.trace[..k]);
      assert r.trace[..k] == body.trace[..k];
      assert r.trace[k] == body.trace[k];
    }
  }

  /** A failure of the chain's own step is rethrown in error mode and
      otherwise handed to error handling with the failing state, as the
      first error handling of the step. */
  lemma FailureThroughCatch<S, A, E, X, K>(h: Handlers<S, A, E, X, K>, body: Run<S, A, E, X>, c: Settling<S, X>,
                                           inErrorHandling: bool, fuel: nat)
    requires c.ChainFailed? && body.out == Escaped(c.error) && body.current == c.at && NoErrorHandling(body.trace)
    ensures Follows(if inErrorHandling then body else Catch(h, body, fuel), c, inErrorHandling)
  {
    if !inErrorHandling {
      var r := Catch(h, body, fuel);
      CatchExtends(h, body, fuel);
      var k := |body.trace|;
      assert r.trace[..k] == body.trace;
      assert r.trace[k] == BeforeError(c.at, c.error);
    }
  }

  /** An enclosing enter ends the way its nested enter does, when what it
      records before the nested enter starts no error handling. */
  lemma FollowsFromInner<S, A, E, X>(inner: Run<S, A, E, X>, body: Run<S, A, E, X>, p: seq<Entry<S, A, E, X>>,
                                     c: Settling<S, X>, inErrorHandling: bool)
    requires Follows(inner, c, inErrorHandling)
    requires body.out == inner.out && body.current == inner.current
    requires body.trace == p + inner.trace && NoErrorHandling(p)
    ensures Follows(body, c, inErrorHandling)
  {
    if c.ChainFailed? && !inErrorHandling {
      var k :| 0 <= k < |inner.trace| && inner.trace[k] == BeforeError(c.at, c.error) && NoErrorHandling(inner.trace[..k]);
      assert body.trace[|p| + k] == inner.trace[k];
      assert body.trace[..|p| + k] == p + inner.trace[..k];
      NoErrorHandlingAppend(p, inner.trace[..k]);
    }
  }

  /** Entering `s` follows the chain `Chain(h, s, fuel)` of enter steps:
      when the chain settles, the step completes and the current state is
      the value the last enter returned (of the same kind as that enter's
      input); when the depth bound is exhausted nothing catches that; when
      an enter or exit of the chain fails in error mode, the failure escapes
      with the state that step was entering still current; outside error
      mode that failure is handed to error handling with that state. */
  lemma {:induction false} EnterFollowsChain<S, A, E, X, K>(h: Handlers<S, A, E, X, K>, s: S,
                                                            inErrorHandling: bool, fuel: nat)
    ensures var c := Chain(h, s, fuel);
      && Follows(EnterStep(h, s, s, inErrorHandling, fuel), c, inErrorHandling)
      && (c.Settled? ==> h.kind(c.input) == h.kind(c.last))
    decreases fuel
  {
    if fuel > 0 {
      var body := EnterTry(h, s, s, inErrorHandling, fuel - 1);
      var c := Chain(h, s, fuel);
      EnterTryCases(h, s, inErrorHandling, fuel - 1);
      ChainCases(h, s, fuel);
      var re := h.onEnter(s).result;
      if re.Fail? || (h.kind(re.value) != h.kind(s) && h.onExit(s).result.Fail?) {
        FailureThroughCatch(h, body, c, inErrorHandling, fuel - 1);
      } else {
        if h.kind(re.value) != h.kind(s) {
          var n := re.value;
          var inner := EnterStep(h, n, n, inErrorHandling, fuel - 1);
          var cn := Chain(h, n, fuel - 1);
          EnterFollowsChain(h, n, inErrorHandling, fuel - 1);
          var p := EnterPhase(h, s, s).trace + (ExitPhase(h, s, s).trace + ChangeTrace(s, n));
          FollowsFromInner(inner, body, p, cn, inErrorHandling);
        }
        FollowsThroughCatch(h, body, c, inErrorHandling, fuel - 1);
      }
    }
  }

  // ---------------------------------------------------------------------
  // Error routing

  /** Error handling records its before-hook first and never starts error
      handling again on its own: a failure of `onError`, of an exit or of
      an error-mode enter escapes it. If `onError` throws, that failure
      escapes at once and nothing changes. */
  lemma ErrorStepStartsHandling<S, A, E, X, K>(h: Handlers<S, A, E, X, K>, cur: S, state: S, error: X, fuel: nat)
    ensures var r := ErrorStep(h, cur, state, error, fuel);
      && |r.trace| > 0 && r.trace[0] == BeforeError(state, error)
      && NoErrorHandling(r.trace[1..])
      && (h.onError(state, error).result.Fail? ==>
            r.out == Escaped(h.onError(state, error).result.error) && r.current == cur && Quiet(r.trace))
  {
    var p := ErrorPhase(h, cur, state, error);
    ErrorPhaseShape<S, A, E, X, K>(h, cur, state, error);
    if p.result.Ok? {
      var t := Transition(h, cur, state, p.result.value, true, fuel);
      TransitionInErrorMode(h, cur, state, p.result.value, fuel);
      NoErrorHandlingAppend(p.trace[1..], t.trace);
      assert (p.trace + t.trace)[1..] == p.trace[1..] + t.trace;
    }
  }

  /** The exit, change and enter that follow `onError` start no error
      handling. */
  lemma {:induction false} TransitionInErrorMode<S, A, E, X, K>(h: Handlers<S, A, E, X, K>, cur: S, state: S,
                                                                next: S, fuel: nat)
    ensures NoErrorHandling(Transition(h, cur, state, next, true, fuel).trace)
    decreases fuel, 2
  {
    var kindChanged := h.kind(state) != h.kind(next);
    ExitPhaseShape<S, A, E, X, K>(h, cur, state);
    var exit: Phase<(), S, A, E, X> := if kindChanged then ExitPhase(h, cur, state) else Phase(Ok(()), []);
    if exit.result.Ok? {
      var change: seq<Entry<S, A, E, X>> := if state != next then ChangeTrace(state, next) else [];
      assert NoErrorHandling(change) by {
        if state != next {
          assert forall i :: 0 <= i < |change| ==> change[i] == ChangeTrace<S, A, E, X>(state, next)[i];
        }
      }
      NoErrorHandlingAppend(exit.trace, change);
      if kindChanged {
        var changedCurrent := if state != next then next else cur;
        EnterInErrorMode(h, changedCurrent, next, fuel);
        NoErrorHandlingAppend(exit.trace + change, EnterStep(h, changedCurrent, next, true, fuel).trace);
      }
    }
  }

  /** An enter step started from error handling never hands its failure
      back to error handling: it and its nested enters record no
      error-handling entry, and what fails escapes. */
  lemma {:induction false} EnterInErrorMode<S, A, E, X, K>(h: Handlers<S, A, E, X, K>, cur: S, state: S, fuel: nat)
    ensures NoErrorHandling(EnterStep(h, cur, state, true, fuel).trace)
    decreases fuel, 1
  {
    if fuel > 0 {
      var enter := EnterPhase(h, cur, state);
      EnterPhaseShape<S, A, E, X, K>(h, cur, state);
      if enter.result.Ok? {
        var t := Transition(h, cur, state, enter.result.value, true, fuel - 1);
        TransitionInErrorMode(h, cur, state, enter.result.value, fuel - 1);
        NoErrorHandlingAppend(enter.trace, t.trace);
      }
    }
  }

  /** A failing `onDispatch` goes to error handling with the state that was
      current, which is still the dispatched-on state. */
  lemma DispatchFailureRouted<S, A, E, X, K>(h: Handlers<S, A, E, X, K>, s: S, action: A, fuel: nat)
    requires h.onDispatch(s, action).result.Fail?
    ensures var x := h.onDispatch(s, action).result.error;
      var handled := ErrorStep(h, s, s, x, fuel);
      ActionStep(h, s, s, action, fuel)
        == Run(handled.out, handled.current, DispatchPhase(h, s, s, action).trace + handled.trace)
  {
  }

  /** When the exit after a kind-changing dispatch fails, no change has
      been published: error handling sees the dispatched-on state. */
  lemma ExitFailureRouted<S, A, E, X, K>(h: Handlers<S, A, E, X, K>, s: S, action: A, fuel: nat)
    requires h.onDispatch(s, action).result.Ok?
    requires h.kind(h.onDispatch(s, action).result.value) != h.kind(s)
    requires h.onExit(s).result.Fail?
    ensures var x := h.onExit(s).result.error;
      var before := DispatchPhase(h, s, s, action).trace + ExitPhase(h, s, s).trace;
      var handled := ErrorStep(h, s, s, x, fuel);
      && Quiet(before)
      && ActionStep(h, s, s, action, fuel) == Run(handled.out, handled.current, before + handled.trace)
  {
    DispatchPhaseShape<S, A, E, X, K>(h, s, s, action);
    ExitPhaseShape<S, A, E, X, K>(h, s, s);
    QuietAppend(DispatchPhase(h, s, s, action).trace, ExitPhase(h, s, s).trace);
    var n := h.onDispatch(s, action).result.value;
    AppendAssoc(DispatchPhase(h, s, s, action).trace, ExitPhase(h, s, s).trace,
                ErrorStep(h, s, s, h.onExit(s).result.error, fuel).trace);
  }

  /** When `onEnter` fails on the new state of a kind-changing dispatch,
      the change to `n` stays published and error handling runs first
      inside the enter step, with `n` current. A failure escaping that
      error handling is caught once more by the dispatch step, which runs
      error handling again with the state then current. */
  lemma EnterFailureAfterChange<S, A, E, X, K>(h: Handlers<S, A, E, X, K>, s: S, action: A, fuel: nat)
    requires h.onDispatch(s, action).result.Ok?
    requires h.kind(h.onDispatch(s, action).result.value) != h.kind(s)
    requires h.onExit(s).result.Ok?
    requires h.onEnter(h.onDispatch(s, action).result.value).result.Fail?
    requires fuel > 0
    ensures var n := h.onDispatch(s, action).result.value;
      var x := h.onEnter(n).result.error;
      var prefix := DispatchPhase(h, s, s, action).trace + ExitPhase(h, s, s).trace
                    + ChangeTrace(s, n) + EnterPhase(h, n, n).trace;
      var inner := ErrorStep(h, n, n, x, fuel - 1);
      var r := ActionStep(h, s, s, action, fuel);
      && (!inner.out.Escaped? ==> r == Run(inner.out, inner.current, prefix + inner.trace))
      && (inner.out.Escaped? ==>
            var outer := ErrorStep(h, inner.current, inner.current, inner.out.error, fuel);
            r == Run(outer.out, outer.current, prefix + inner.trace + outer.trace))
  {
    var n := h.onDispatch(s, action).result.value;
    var d := DispatchPhase(h, s, s, action).trace;
    var e := ExitPhase(h, s, s).trace;
    var c := ChangeTrace<S, A, E, X>(s, n);
    var en := EnterPhase(h, n, n).trace;
    var x := h.onEnter(n).result.error;
    var inner := ErrorStep(h, n, n, x, fuel - 1);
    var step := EnterStep(h, n, n, false, fuel);
    EnterPhaseShape<S, A, E, X, K>(h, n, n);
    TransitionKindChange(h, s, s, n, false, fuel);
    assert EnterTry(h, n, n, false, fuel - 1) == Run(Escaped(x), n, en);
    assert step == Run(inner.out, inner.current, en + inner.trace);
    var body := DispatchTry(h, s, s, action, fuel);
    assert body == Run(inner.out, inner.current, d + ((e + c) + (en + inner.trace)));
    assert d + ((e + c) + (en + inner.trace)) == d + e + c + en + inner.trace;
  }

  // ---------------------------------------------------------------------
  // The defaults

  /** The default `onError` rethrows: error handling records its
      before-hook only, changes nothing, and the error escapes unchanged,
      whatever the other user functions are. */
  lemma DefaultErrorRethrows<S, A, E, X, K>(h: Handlers<S, A, E, X, K>, cur: S, state: S, error: X, fuel: nat)
    requires forall t, x :: h.onError(t, x) == Reaction([], Fail(x))
    ensures ErrorStep(h, cur, state, error, fuel) == Run(Escaped(error), cur, [BeforeError(state, error)])
  {
    assert h.onError(state, error) == Reaction([], Fail(error));
  }

  /** With the default `onError`, an enter failure after a kind-changing
      dispatch whose exit succeeds is handled exactly twice, each time with
      the new state current, and then escapes the cycle. */
  lemma EnterFailureHandledTwice<S, A, E, X, K>(h: Handlers<S, A, E, X, K>, s: S, action: A, fuel: nat)
    requires forall t, x :: h.onError(t, x) == Reaction([], Fail(x))
    requires h.onDispatch(s, action).result.Ok?
    requires h.kind(h.onDispatch(s, action).result.value) != h.kind(s)
    requires h.onExit(s).result.Ok?
    requires h.onEnter(h.onDispatch(s, action).result.value).result.Fail?
    requires fuel > 0
    ensures var n := h.onDispatch(s, action).result.value;
      var x := h.onEnter(n).result.error;
      var prefix := DispatchPhase(h, s, s, action).trace + ExitPhase(h, s, s).trace
                    + ChangeTrace(s, n) + EnterPhase(h, n, n).trace;
      ActionStep(h, s, s, action, fuel) == Run(Escaped(x), n, prefix + [BeforeError(n, x), BeforeError(n, x)])
  {
    var n := h.onDispatch(s, action).result.value;
    var x := h.onEnter(n).result.error;
    var prefix := DispatchPhase(h, s, s, action).trace + ExitPhase(h, s, s).trace
                  + ChangeTrace(s, n) + EnterPhase(h, n, n).trace;
    EnterFailureAfterChange(h, s, action, fuel);
    DefaultErrorRethrows(h, n, n, x, fuel - 1);
    DefaultErrorRethrows(h, n, n, x, fuel);
    assert prefix + [BeforeError(n, x)] + [BeforeError(n, x)] == prefix + [BeforeError(n, x), BeforeError(n, x)];
  }

  /** With the default `onDispatch` (whatever the other functions are), a
      dispatch cycle runs its hooks and leaves the state as it was,
      whatever the action. */
  lemma DefaultDispatchKeepsState<S, A, E, X, K>(h: Handlers<S, A, E, X, K>, s: S, action: A, fuel: nat)
    requires forall t, a :: h.onDispatch(t, a) == Reaction([], Ok(t))
    ensures DispatchRun(h, s, action, fuel)
      == Run(Completed, s, [BeforeActionDispatch(s, action), AfterActionDispatch(s, action, s)])
  {
    assert h.onDispatch(s, action) == Reaction([], Ok(s));
  }

  /** With the default `onEnter` (whatever the other functions are),
      initialisation leaves the initial state current, whether or not the
      initial enter pass runs. */
  lemma DefaultInitKeepsState<S, A, E, X, K>(h: Handlers<S, A, E, X, K>, initialState: S,
                                             processInitialStateEnter: bool, fuel: nat)
    requires forall t :: h.onEnter(t) == Reaction([], Ok(t))
    requires fuel > 0
    ensures InitRun(h, initialState, processInitialStateEnter, fuel)
      == Run(Completed, initialState,
             [MiddlewaresInitialized]
             + (if processInitialStateEnter then [BeforeStateEnter(initialState), AfterStateEnter(initialState, initialState)]
                else []))
  {
    DefaultEnterKeepsState(h, initialState, false, fuel);
  }

  /** With the default `onEnter` (whatever the other functions are), an
      enter step settles at once on the state it enters. */
  lemma DefaultEnterKeepsState<S, A, E, X, K>(h: Handlers<S, A, E, X, K>, s: S, inErrorHandling: bool, fuel: nat)
    requires forall t :: h.onEnter(t) == Reaction([], Ok(t))
    requires fuel > 0
    ensures EnterStep(h, s, s, inErrorHandling, fuel) == Run(Completed, s, [BeforeStateEnter(s), AfterStateEnter(s, s)])
  {
    assert h.onEnter(s) == Reaction([], Ok(s));
    EnterPhaseShape<S, A, E, X, K>(h, s, s);
    TransitionSameKind(h, s, s, s, inErrorHandling, fuel - 1);
    var t := EnterPhase(h, s, s).trace;
    assert t == [BeforeStateEnter(s), AfterStateEnter(s, s)];
  }

  /** A dispatch whose `onDispatch` returns a value equal to the state it
      was given publishes nothing and leaves that state current. */
  lemma SameValueNoChange<S, A, E, X, K>(h: Handlers<S, A, E, X, K>, s: S, action: A, fuel: nat)
    requires h.onDispatch(s, action).result == Ok(s)
    ensures var r := ActionStep(h, s, s, action, fuel);
      r == Run(Completed, s, DispatchPhase(h, s, s, action).trace) && Quiet(r.trace)
  {
    DispatchPhaseShape<S, A, E, X, K>(h, s, s, action);
  }
}
