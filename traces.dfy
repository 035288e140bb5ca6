/** Reading a trace back: the current state it leaves, whether its state
    changes are genuine, and which events it broadcast. */
module Traces {
  import opened StoreTypes

  /** The current state after the entries of `t`, starting from `cur`: the
      last state published, or `cur` when nothing was published. */
  function Replay<S, A, E, X>(cur: S, t: seq<Entry<S, A, E, X>>): S
    decreases |t|
  {
    if t == [] then cur
    else Replay(if t[0].LatestState? then t[0].next else cur, t[1..])
  }

  /** Every state change announced in `t` starts from the state current at
      that point and goes to a different value, and every published state
      differs from the one it replaces. */
  ghost predicate Coherent<S, A, E, X>(cur: S, t: seq<Entry<S, A, E, X>>)
    decreases |t|
  {
    if t == [] then true
    else match t[0]
      case BeforeStateChange(p, n) => p == cur && p != n && Coherent(cur, t[1..])
      case LatestState(n) => n != cur && Coherent(n, t[1..])
      case _ => Coherent(cur, t[1..])
  }

  /** `t` announces and publishes no state change. */
  ghost predicate Quiet<S, A, E, X>(t: seq<Entry<S, A, E, X>>)
  {
    forall i :: 0 <= i < |t| ==> !t[i].BeforeStateChange? && !t[i].LatestState?
  }

  /** `t` starts no error handling. */
  ghost predicate NoErrorHandling<S, A, E, X>(t: seq<Entry<S, A, E, X>>)
  {
    forall i :: 0 <= i < |t| ==> !t[i].BeforeError?
  }

  /** The events broadcast in `t`, in order. */
  function Published<S, A, E, X>(t: seq<Entry<S, A, E, X>>): seq<E>
    decreases |t|
  {
    if t == [] then []
    else (if t[0].EventPublished? then [t[0].event] else []) + Published(t[1..])
  }

  lemma AppendAssoc<T>(a: seq<T>, b: seq<T>, c: seq<T>)
    ensures (a + b) + c == a + (b + c)
  {
  }

  lemma {:induction false} ReplayAppend<S, A, E, X>(cur: S, a: seq<Entry<S, A, E, X>>, b: seq<Entry<S, A, E, X>>)
    ensures Replay(cur, a + b) == Replay(Replay(cur, a), b)
    ensures Coherent(cur, a + b) <==> Coherent(cur, a) && Coherent(Replay(cur, a), b)
    decreases |a|
  {
    if a == [] {
      assert a + b == b;
    } else {
      assert (a + b)[0] == a[0];
      assert (a + b)[1..] == a[1..] + b;
      ReplayAppend(if a[0].LatestState? then a[0].next else cur, a[1..], b);
    }
  }

  lemma {:induction false} QuietKeepsState<S, A, E, X>(cur: S, t: seq<Entry<S, A, E, X>>)
    requires Quiet(t)
    ensures Replay(cur, t) == cur && Coherent(cur, t)
    decreases |t|
  {
    if t != [] {
      assert Quiet(t[1..]) by {
        forall i | 0 <= i < |t[1..]| ensures !t[1..][i].BeforeStateChange? && !t[1..][i].LatestState? {
          assert t[1..][i] == t[i + 1];
        }
      }
      QuietKeepsState(cur, t[1..]);
    }
  }

  lemma {:induction false} PublishedAppend<S, A, E, X>(a: seq<Entry<S, A, E, X>>, b: seq<Entry<S, A, E, X>>)
    ensures Published(a + b) == Published(a) + Published(b)
    decreases |a|
  {
    if a == [] {
      assert a + b == b;
    } else {
      assert (a + b)[0] == a[0];
      assert (a + b)[1..] == a[1..] + b;
      PublishedAppend(a[1..], b);
    }
  }
}
