/**
  callOnce (server/proxy/synchronize.go:72-105) as a state machine over any number of nodes.

  Every node deletes the shared key, sleeps, takes the cluster mutex, reads the key, runs f if the
  key is unset, sets the key, and releases the mutex. Each of these is one event, every KV call may
  fail, and the events of different nodes interleave freely.
 */
module CallOnce {
  import opened Wrappers

  /** Where a node is. Leaving still holds the mutex; Done carries whether callOnce returned nil. */
  datatype PC = Start | Sleeping | Locked | Running | Ran | Leaving(ok: bool) | Done(ok: bool)

  /**
    `key` is the value under KVCallOnceKey, 0 when absent. The last four fields only observe the run:
    how often f completed, whether any node has locked, how many deletes took effect after that,
    and how many completed runs were not recorded in the key.
   */
  datatype State = State(
    key: nat, mutex: Option<nat>, pc: seq<PC>,
    successes: nat, started: bool, deleted: bool, late: nat, lost: nat)

  /** `effect`: whether a write reached the store; a call that returned nil did. */
  datatype Event =
    | Delete(n: nat, ok: bool, effect: bool)
    | Lock(n: nat)
    | Get(n: nat, ok: bool)
    | Run(n: nat, ok: bool)
    | Set(n: nat, ok: bool, effect: bool)
    | Unlock(n: nat)

  function Init(nodes: nat, key: nat): State {
    State(key, None, seq(nodes, i => Start), 0, false, false, 0, 0)
  }

  predicate Enabled(s: State, e: Event) {
    && e.n < |s.pc|
    && match e
       case Delete(n, ok, effect) => s.pc[n] == Start && (ok ==> effect)
       case Lock(n) => s.pc[n] == Sleeping && s.mutex == None
       case Get(n, ok) => s.pc[n] == Locked
       case Run(n, ok) => s.pc[n] == Running
       case Set(n, ok, effect) => s.pc[n] == Ran && (ok ==> effect)
       case Unlock(n) => s.pc[n].Leaving?
  }

  function Next(s: State, e: Event): State
    requires Enabled(s, e)
  {
    match e
    case Delete(n, ok, effect) =>
      s.(key := if effect then 0 else s.key,
         pc := s.pc[n := if ok then Sleeping else Done(false)],
         deleted := s.deleted || effect,
         late := if effect && s.started then s.late + 1 else s.late)
    case Lock(n) =>
      s.(mutex := Some(n), pc := s.pc[n := Locked], started := true)
    case Get(n, ok) =>
      s.(pc := s.pc[n := if !ok then Leaving(false) else if s.key != 0 then Leaving(true) else Running])
    case Run(n, ok) =>
      if ok then s.(pc := s.pc[n := Ran], successes := s.successes + 1)
      else s.(pc := s.pc[n := Leaving(false)])
    case Set(n, ok, effect) =>
      s.(key := if effect then 1 else s.key,
         pc := s.pc[n := Leaving(ok)],
         lost := if effect then s.lost else s.lost + 1)
    case Unlock(n) =>
      s.(mutex := None, pc := s.pc[n := Done(s.pc[n].ok)])
  }

  /** Runs: every event is enabled when it happens. */
  predicate IsRun(s: State, events: seq<Event>)
    decreases |events|
  {
    if events == [] then true
    else Enabled(s, events[0]) && IsRun(Next(s, events[0]), events[1..])
  }

  function After(s: State, events: seq<Event>): State
    requires IsRun(s, events)
    decreases |events|
  {
    if events == [] then s else After(Next(s, events[0]), events[1..])
  }

  // ---------------------------------------------------------------- the invariant

  predicate InSection(p: PC) {
    p == Locked || p == Running || p == Ran || p.Leaving?
  }

  /** The nodes between a completed f and its Set: none, or the one that holds the mutex. */
  function Pending(s: State): nat {
    if s.mutex.Some? && s.mutex.value < |s.pc| && s.pc[s.mutex.value] == Ran then 1 else 0
  }

  function Flag(s: State): nat {
    if s.key != 0 then 1 else 0
  }

  /** The mutex is held exactly by the node in the critical section. */
  predicate MutualExclusion(s: State) {
    && (s.mutex.Some? ==> s.mutex.value < |s.pc|)
    && forall i :: 0 <= i < |s.pc| ==> (InSection(s.pc[i]) <==> s.mutex == Some(i))
  }

  predicate Inv(s: State) {
    && MutualExclusion(s)
    // between the check and the Set of the mutex holder the key stays unset
    && (forall i :: 0 <= i < |s.pc| && (s.pc[i] == Running || s.pc[i] == Ran) ==> s.key == 0)
    // every completed run is recorded in the key, about to be, or accounted for
    && s.successes <= Flag(s) + Pending(s) + s.late + s.lost
    && (!s.started ==> s.successes == 0 && s.mutex == None)
    // once the key was deleted, only a completed run can set it
    && (s.deleted && s.key != 0 ==> s.successes >= 1)
    && (forall i :: 0 <= i < |s.pc| && (s.pc[i] == Sleeping || InSection(s.pc[i])) ==> s.deleted)
    && (forall i :: 0 <= i < |s.pc| && s.pc[i] == Ran ==> s.successes >= 1)
    && (forall i :: 0 <= i < |s.pc| && (s.pc[i] == Leaving(true) || s.pc[i] == Done(true)) ==> s.successes >= 1)
  }

  lemma InvInit(nodes: nat, key: nat)
    ensures Inv(Init(nodes, key))
  {
  }

  lemma InvNext(s: State, e: Event)
    requires Inv(s) && Enabled(s, e)
    ensures Inv(Next(s, e))
  {
    var t := Next(s, e);
    match e {
      case Delete(n, ok, effect) =>
      case Lock(n) =>
      case Get(n, ok) =>
      case Run(n, ok) =>
      case Set(n, ok, effect) =>
      case Unlock(n) =>
    }
  }

  lemma {:induction false} InvRun(s: State, events: seq<Event>)
    requires Inv(s) && IsRun(s, events)
    ensures Inv(After(s, events))
    ensures |After(s, events).pc| == |s.pc|
    decreases |events|
  {
    if events != [] {
      InvNext(s, events[0]);
      InvRun(Next(s, events[0]), events[1..]);
    }
  }

  // ---------------------------------------------------------------- the theorems

  /**
    For any number of nodes and any interleaving, f completes at most once, plus once for every
    delete that comes after the first lock and once for every completed run that was not recorded.
   */
  lemma AtMostOnce(nodes: nat, key: nat, events: seq<Event>)
    requires IsRun(Init(nodes, key), events)
    ensures var s := After(Init(nodes, key), events);
            s.successes <= 1 + s.late + s.lost
  {
    InvInit(nodes, key);
    InvRun(Init(nodes, key), events);
  }

  /** A node whose callOnce returned nil knows that f completed, on some node, in this round. */
  lemma NilMeansCompleted(nodes: nat, key: nat, events: seq<Event>, n: nat)
    requires IsRun(Init(nodes, key), events)
    requires var s := After(Init(nodes, key), events); n < |s.pc| && s.pc[n] == Done(true)
    ensures After(Init(nodes, key), events).successes >= 1
  {
    InvInit(nodes, key);
    InvRun(Init(nodes, key), events);
  }

  /**
    When no delete is late and every completed run is recorded, f completes exactly once as soon as
    one node returns nil.
   */
  lemma ExactlyOnce(nodes: nat, key: nat, events: seq<Event>)
    requires IsRun(Init(nodes, key), events)
    requires var s := After(Init(nodes, key), events);
             s.late == 0 && s.lost == 0 && exists n :: 0 <= n < |s.pc| && s.pc[n] == Done(true)
    ensures After(Init(nodes, key), events).successes == 1
  {
    var s := After(Init(nodes, key), events);
    var n :| 0 <= n < |s.pc| && s.pc[n] == Done(true);
    NilMeansCompleted(nodes, key, events, n);
    AtMostOnce(nodes, key, events);
  }

  /** A call of node n that returned an error. */
  predicate FailedOn(e: Event, n: nat) {
    match e
    case Delete(m, ok, _) => m == n && !ok
    case Get(m, ok) => m == n && !ok
    case Run(m, ok) => m == n && !ok
    case Set(m, ok, _) => m == n && !ok
    case _ => false
  }

  predicate AnyFailedOn(events: seq<Event>, n: nat) {
    exists i :: 0 <= i < |events| && FailedOn(events[i], n)
  }

  predicate Unsuccessful(p: PC) {
    p == Leaving(false) || p == Done(false)
  }

  lemma {:induction false} FailuresShow(s: State, events: seq<Event>, n: nat)
    requires IsRun(s, events) && n < |s.pc|
    ensures |After(s, events).pc| == |s.pc|
    ensures Unsuccessful(After(s, events).pc[n]) <==> Unsuccessful(s.pc[n]) || AnyFailedOn(events, n)
    decreases |events|
  {
    if events != [] {
      FailuresShow(Next(s, events[0]), events[1..], n);
      assert AnyFailedOn(events, n) <==> FailedOn(events[0], n) || AnyFailedOn(events[1..], n) by {
        if i :| 0 <= i < |events[1..]| && FailedOn(events[1..][i], n) {
          assert FailedOn(events[i + 1], n);
        }
        if i :| 0 < i < |events| && FailedOn(events[i], n) {
          assert FailedOn(events[1..][i - 1], n);
        }
      }
    }
  }

  /** A node that has finished returned an error if and only if one of its own calls, or f on it, failed. */
  lemma ErrorIffOwnFailure(nodes: nat, key: nat, events: seq<Event>, n: nat)
    requires IsRun(Init(nodes, key), events) && n < nodes
    requires n < |After(Init(nodes, key), events).pc| && After(Init(nodes, key), events).pc[n].Done?
    ensures After(Init(nodes, key), events).pc[n] == Done(false) <==> AnyFailedOn(events, n)
  {
    FailuresShow(Init(nodes, key), events, n);
  }

  /** No call failed: not the KV store's, and not f. */
  predicate Faultless(events: seq<Event>) {
    forall i :: 0 <= i < |events| ==>
      match events[i]
      case Delete(_, ok, _) => ok
      case Lock(_) => true
      case Get(_, ok) => ok
      case Run(_, ok) => ok
      case Set(_, ok, _) => ok
      case Unlock(_) => true
  }

  predicate NoErrors(s: State) {
    s.lost == 0 && forall i :: 0 <= i < |s.pc| ==> s.pc[i] != Leaving(false) && s.pc[i] != Done(false)
  }

  lemma {:induction false} FaultlessRun(s: State, events: seq<Event>)
    requires IsRun(s, events) && Faultless(events) && NoErrors(s)
    ensures NoErrors(After(s, events))
    decreases |events|
  {
    if events != [] {
      assert Faultless(events[1..]);
      FaultlessRun(Next(s, events[0]), events[1..]);
    }
  }

  /** When all nodes have finished, no call has failed and no delete was late, f has completed exactly once. */
  lemma AllFinishedExactlyOnce(nodes: nat, key: nat, events: seq<Event>)
    requires nodes > 0 && IsRun(Init(nodes, key), events) && Faultless(events)
    requires var s := After(Init(nodes, key), events);
             s.late == 0 && forall n :: 0 <= n < |s.pc| ==> s.pc[n].Done?
    ensures var s := After(Init(nodes, key), events);
            s.successes == 1 && forall n :: 0 <= n < |s.pc| ==> s.pc[n] == Done(true)
  {
    InvInit(nodes, key);
    InvRun(Init(nodes, key), events);
    FaultlessRun(Init(nodes, key), events);
    assert After(Init(nodes, key), events).pc[0] == Done(true);
    ExactlyOnce(nodes, key, events);
  }

  /** Until f has completed somewhere, every node that checks the key goes on to run f. */
  lemma RoundStaysOpen(nodes: nat, key: nat, events: seq<Event>, m: nat)
    requires IsRun(Init(nodes, key), events)
    requires var s := After(Init(nodes, key), events);
             s.successes == 0 && m < |s.pc| && s.pc[m] == Locked
    ensures var s := After(Init(nodes, key), events);
            Next(s, Get(m, true)).pc[m] == Running
  {
    InvInit(nodes, key);
    InvRun(Init(nodes, key), events);
  }

  /** In particular, a failed f gives the next node in line its turn. */
  lemma FailedRunLeavesRoundOpen(nodes: nat, key: nat, events: seq<Event>, n: nat, m: nat)
    requires IsRun(Init(nodes, key), events)
    requires var s := After(Init(nodes, key), events);
             && s.successes == 0 && n < |s.pc| && m < |s.pc|
             && s.pc[n] == Running && s.pc[m] == Sleeping
    ensures var s := After(Init(nodes, key), events);
            var next := [Run(n, false), Unlock(n), Lock(m), Get(m, true), Run(m, true), Set(m, true, true)];
            && IsRun(s, next)
            && After(s, next).successes == 1
            && After(s, next).key == 1
  {
    InvInit(nodes, key);
    InvRun(Init(nodes, key), events);
    var s := After(Init(nodes, key), events);
    var s1 := Next(s, Run(n, false));
    var s2 := Next(s1, Unlock(n));
    var s3 := Next(s2, Lock(m));
    var s4 := Next(s3, Get(m, true));
    var s5 := Next(s4, Run(m, true));
    Unfold6(s, Run(n, false), Unlock(n), Lock(m), Get(m, true), Run(m, true), Set(m, true, true));
  }

  lemma UnfoldCons(s: State, e: Event, rest: seq<Event>)
    requires Enabled(s, e) && IsRun(Next(s, e), rest)
    ensures IsRun(s, [e] + rest) && After(s, [e] + rest) == After(Next(s, e), rest)
  {
    assert ([e] + rest)[1..] == rest;
  }

  lemma {:induction false} RunConcat(s: State, x: seq<Event>, y: seq<Event>)
    requires IsRun(s, x) && IsRun(After(s, x), y)
    ensures IsRun(s, x + y) && After(s, x + y) == After(After(s, x), y)
    decreases |x|
  {
    if x == [] {
      assert x + y == y;
    } else {
      assert (x + y)[1..] == x[1..] + y;
      RunConcat(Next(s, x[0]), x[1..], y);
    }
  }

  lemma Unfold3(s: State, a: Event, b: Event, c: Event)
    requires Enabled(s, a) && Enabled(Next(s, a), b) && Enabled(Next(Next(s, a), b), c)
    ensures IsRun(s, [a, b, c]) && After(s, [a, b, c]) == Next(Next(Next(s, a), b), c)
  {
    UnfoldCons(Next(Next(s, a), b), c, []);
    UnfoldCons(Next(s, a), b, [c]);
    UnfoldCons(s, a, [b, c]);
    assert [c] + [] == [c] && [b] + [c] == [b, c] && [a] + [b, c] == [a, b, c];
  }

  lemma Unfold6(s: State, a: Event, b: Event, c: Event, d: Event, e: Event, f: Event)
    requires Enabled(s, a) && Enabled(Next(s, a), b) && Enabled(Next(Next(s, a), b), c)
    requires Enabled(Next(Next(Next(s, a), b), c), d)
    requires Enabled(Next(Next(Next(Next(s, a), b), c), d), e)
    requires Enabled(Next(Next(Next(Next(Next(s, a), b), c), d), e), f)
    ensures IsRun(s, [a, b, c, d, e, f])
    ensures After(s, [a, b, c, d, e, f]) == Next(Next(Next(Next(Next(Next(s, a), b), c), d), e), f)
  {
    Unfold3(s, a, b, c);
    Unfold3(Next(Next(Next(s, a), b), c), d, e, f);
    RunConcat(s, [a, b, c], [d, e, f]);
    assert [a, b, c] + [d, e, f] == [a, b, c, d, e, f];
  }

  /** One node going through callOnce undisturbed. */
  function Turn(n: nat): seq<Event> {
    [Delete(n, true, true), Lock(n), Get(n, true), Run(n, true), Set(n, true, true), Unlock(n)]
  }

  lemma TurnCompletes(s: State, n: nat)
    requires n < |s.pc| && s.pc[n] == Start && s.mutex == None
    ensures IsRun(s, Turn(n))
    ensures After(s, Turn(n)) ==
            s.(key := 1, pc := s.pc[n := Done(true)], successes := s.successes + 1, started := true,
               deleted := true, late := if s.started then s.late + 1 else s.late)
  {
    var s3 := Next(Next(Next(s, Delete(n, true, true)), Lock(n)), Get(n, true));
    assert s3.pc == s.pc[n := Running] && s3.key == 0;
    var s6 := Next(Next(Next(s3, Run(n, true)), Set(n, true, true)), Unlock(n));
    assert s6.pc == s.pc[n := Done(true)];
    Unfold6(s, Delete(n, true, true), Lock(n), Get(n, true), Run(n, true), Set(n, true, true), Unlock(n));
  }

  /** The bound is reached: one delete after the first lock makes f complete twice. */
  lemma LateDeleteRunsTwice()
    ensures exists events ::
      IsRun(Init(2, 0), events) &&
      var s := After(Init(2, 0), events); s.successes == 2 && s.late == 1 && s.lost == 0
  {
    TurnCompletes(Init(2, 0), 0);
    TurnCompletes(After(Init(2, 0), Turn(0)), 1);
    RunConcat(Init(2, 0), Turn(0), Turn(1));
    assert IsRun(Init(2, 0), Turn(0) + Turn(1));
  }
}
