/** Handlers can come to a deadlock exactly when they may call each other in a circle. */
module LifecycleDeadlock {
  import opened Wrappers
  import opened Identity
  import opened Lifecycle
  import opened LifecycleHistory
  import opened LifecycleAdmission
  import opened LifecycleProgress
  import opened LifecycleScenarios
  import Manifests

  type Calls = (ObjectID, ObjectID) -> bool

  /** Handlers of `a` can be at work, and may call `b`. */
  predicate MayCall(m: Manifests.Manifest, calls: Calls, a: ObjectID, b: ObjectID) {
    a != b && IsServed(m, a) && calls(a, b)
  }

  /** Every stub call in the run is one that handlers of its identity may make. */
  ghost predicate Conforms(calls: Calls, s: State, run: seq<Action>)
    requires Feasible(s, run)
    decreases |run|
  {
    run != [] ==> MayTake(calls, s, run[0]) && Conforms(calls, Apply(s, run[0]), run[1..])
  }

  predicate MayTake(calls: Calls, s: State, a: Action)
    requires Enabled(s, a)
  {
    a.Handle? && a.handle.CallStub? ==> calls(s.dispatches[a.t].id, a.handle.target)
  }

  // ---------- circles ----------

  function Succ(c: seq<ObjectID>, i: nat): nat
    requires i < |c|
  {
    if i + 1 < |c| then i + 1 else 0
  }

  /** Two or more identities, each of which may call the next, and the last the first. */
  predicate IsCircle(m: Manifests.Manifest, calls: Calls, c: seq<ObjectID>) {
    && |c| >= 2
    && (forall i, j | 0 <= i < j < |c| :: c[i] != c[j])
    && (forall i | 0 <= i < |c| :: MayCall(m, calls, c[i], c[Succ(c, i)]))
  }

  predicate IsWalk(m: Manifests.Manifest, calls: Calls, w: seq<ObjectID>) {
    |w| >= 2 && forall i | 0 <= i < |w| - 1 :: MayCall(m, calls, w[i], w[i + 1])
  }

  /** A walk that comes back to where it began has a circle in it. */
  lemma {:induction false} ClosedWalkHasCircle(m: Manifests.Manifest, calls: Calls, w: seq<ObjectID>)
    requires IsWalk(m, calls, w) && w[0] == w[|w| - 1]
    ensures exists c :: IsCircle(m, calls, c)
    decreases |w|
  {
    var c := w[..|w| - 1];
    if forall i, j | 0 <= i < j < |c| :: c[i] != c[j] {
      forall i | 0 <= i < |c| ensures MayCall(m, calls, c[i], c[Succ(c, i)]) {
        assert MayCall(m, calls, w[i], w[i + 1]);
      }
      assert MayCall(m, calls, w[0], w[1]);
      assert IsCircle(m, calls, c);
    } else {
      var i, j :| 0 <= i < j < |c| && c[i] == c[j];
      var inner := w[i..j + 1];
      forall k | 0 <= k < |inner| - 1 ensures MayCall(m, calls, inner[k], inner[k + 1]) {
        assert MayCall(m, calls, w[i + k], w[i + k + 1]);
      }
      ClosedWalkHasCircle(m, calls, inner);
    }
  }

  ghost predicate Leads(m: Manifests.Manifest, calls: Calls, a: ObjectID, b: ObjectID) {
    exists w :: IsWalk(m, calls, w) && w[0] == a && w[|w| - 1] == b
  }

  lemma LeadsOn(m: Manifests.Manifest, calls: Calls, a: ObjectID, b: ObjectID, c: ObjectID)
    requires Leads(m, calls, a, b) && Leads(m, calls, b, c)
    ensures Leads(m, calls, a, c)
  {
    var v :| IsWalk(m, calls, v) && v[0] == a && v[|v| - 1] == b;
    var w :| IsWalk(m, calls, w) && w[0] == b && w[|w| - 1] == c;
    var both := v + w[1..];
    forall i | 0 <= i < |both| - 1 ensures MayCall(m, calls, both[i], both[i + 1]) {
      if i < |v| - 1 {
        assert MayCall(m, calls, v[i], v[i + 1]);
      } else {
        assert MayCall(m, calls, w[i + 1 - |v|], w[i + 2 - |v|]);
      }
    }
    assert IsWalk(m, calls, both);
  }

  // ---------- without a circle there is no deadlock ----------

  /** Only identities that are served have code at work. */
  lemma CallersAreServed(s: State, a: Action)
    requires Enabled(s, a) && AdmissionOk(s) && a.Handle? && a.handle.CallStub?
    ensures IsServed(s.manifest, s.dispatches[a.t].id)
  {
    assert RefusedOk(s, a.t);
  }

  lemma {:induction false} ConformingCallsGoUp(below: (ObjectID, ObjectID) -> bool, calls: Calls, s: State, run: seq<Action>)
    requires Inv(s) && AdmissionOk(s) && Feasible(s, run) && Conforms(calls, s, run)
    requires forall a, b | MayCall(s.manifest, calls, a, b) :: below(a, b)
    ensures CallsGoUp(below, s, run)
    decreases |run|
  {
    if run != [] {
      var a := run[0];
      if a.Handle? && a.handle.CallStub? {
        CallersAreServed(s, a);
        assert MayCall(s.manifest, calls, s.dispatches[a.t].id, a.handle.target);
      }
      StepKeepsInv(s, a);
      StepKeepsAdmission(s, a);
      ConformingCallsGoUp(below, calls, Apply(s, a), run[1..]);
    }
  }

  lemma NoCircleNoDeadlock(m: Manifests.Manifest, calls: Calls, run: seq<Action>, t: ThreadId)
    requires !exists c :: IsCircle(m, calls, c)
    requires Feasible(Init(m), run) && Conforms(calls, Init(m), run) && Unfinished(Run(Init(m), run), t)
    ensures CanAdvance(Run(Init(m), run))
  {
    var below := (a: ObjectID, b: ObjectID) => Leads(m, calls, a, b);
    forall a ensures !below(a, a) {
      if below(a, a) {
        var w :| IsWalk(m, calls, w) && w[0] == a && w[|w| - 1] == a;
        ClosedWalkHasCircle(m, calls, w);
      }
    }
    forall a, b, c | below(a, b) && below(b, c) ensures below(a, c) { LeadsOn(m, calls, a, b, c); }
    forall a, b | MayCall(m, calls, a, b) ensures below(a, b) { assert IsWalk(m, calls, [a, b]); }
    ConformingCallsGoUp(below, calls, Init(m), run);
    UnfinishedMeansProgress(below, m, run, t);
  }

  // ---------- with a circle there is one ----------

  /** There is a conforming run from `s` to `s'`. */
  ghost predicate ReachesBy(calls: Calls, s: State, s': State) {
    exists run :: Feasible(s, run) && Run(s, run) == s' && Conforms(calls, s, run)
  }

  lemma {:induction false} ConformingRunsAppend(calls: Calls, s: State, first: seq<Action>, second: seq<Action>)
    requires Feasible(s, first) && Feasible(Run(s, first), second) && Feasible(s, first + second)
    requires Conforms(calls, s, first) && Conforms(calls, Run(s, first), second)
    ensures Conforms(calls, s, first + second)
    decreases |first|
  {
    var all := first + second;
    if first == [] {
      assert all == second;
    } else {
      assert all[0] == first[0] && all[1..] == first[1..] + second;
      ConformingRunsAppend(calls, Apply(s, first[0]), first[1..], second);
    }
  }

  lemma {:induction false} SilentRunsConform(calls: Calls, s: State, run: seq<Action>)
    requires Feasible(s, run) && forall a | a in run :: IsSilent(a)
    ensures Conforms(calls, s, run)
    decreases |run|
  {
    if run != [] {
      assert run[0] in run;
      SilentRunsConform(calls, Apply(s, run[0]), run[1..]);
    }
  }

  lemma ThenSilently(calls: Calls, s0: State, s: State, s': State)
    requires ReachesBy(calls, s0, s) && Reaches(s, s')
    ensures ReachesBy(calls, s0, s')
  {
    var first :| Feasible(s0, first) && Run(s0, first) == s && Conforms(calls, s0, first);
    var second :| Feasible(s, second) && Run(s, second) == s' && forall a | a in second :: IsSilent(a);
    SilentRunsConform(calls, s, second);
    RunsAppend(s0, first, second);
    ConformingRunsAppend(calls, s0, first, second);
  }

  lemma ThenStep(calls: Calls, s0: State, s: State, a: Action)
    requires ReachesBy(calls, s0, s) && Enabled(s, a) && MayTake(calls, s, a)
    ensures ReachesBy(calls, s0, Apply(s, a))
  {
    var first :| Feasible(s0, first) && Run(s0, first) == s && Conforms(calls, s0, first);
    RunOfOne(s, a);
    assert [a][0] == a && [a][1..] == [] && Conforms(calls, Apply(s, a), []);
    RunsAppend(s0, first, [a]);
    ConformingRunsAppend(calls, s0, first, [a]);
  }

  /** The state in which the handler of `t` has just called `id`. */
  function WithCalled(s: State, t: ThreadId, u: ThreadId, id: ObjectID): State
    requires At(s, t)
  {
    s.(dispatches := s.dispatches[t := s.dispatches[t].(child := Some(u))]
                                 [u := Newcomer(id, Lookup, 0)])
  }

  /** The state in which the handler of `t` has called `id`, and the call waits at the gate of `r`. */
  function WithWaiting(s: State, t: ThreadId, u: ThreadId, id: ObjectID, r: ActorRef): State
    requires At(s, t) && r in s.heap
  {
    s.(heap := s.heap[r := s.heap[r].(active := s.heap[r].active + 1)],
       dispatches := s.dispatches[t := s.dispatches[t].(child := Some(u))]
                                 [u := Newcomer(id, AtGate(r), 0)])
  }

  lemma CallFinds(s: State, t: ThreadId, u: ThreadId, id: ObjectID, r: ActorRef, c: CallRef)
    requires At(s, t) && t != u && s.mu.None? && c !in s.calls && id in s.actors && s.actors[id] == r
    ensures var s1 := WithCalled(s, t, u, id);
            Reaches(s1, Goto(s1, u, Entering(r)))
  {
    var s1 := WithCalled(s, t, u, id);
    ReachesItself(s1);
    ReachesNext(s1, s1, Obtain(u, LookUp(c)));
  }

  lemma CallEnters(s: State, t: ThreadId, u: ThreadId, id: ObjectID, r: ActorRef)
    requires At(s, t) && t != u && r in s.heap
    ensures Reaches(Goto(WithCalled(s, t, u, id), u, Entering(r)), WithWaiting(s, t, u, id, r))
  {
    var s2 := Goto(WithCalled(s, t, u, id), u, Entering(r));
    ReachesItself(s2);
    ReachesNext(s2, s2, Pass(u, Enter));
    assert Apply(s2, Pass(u, Enter)).dispatches == WithWaiting(s, t, u, id, r).dispatches;
  }

  lemma CallsAndWaits(calls: Calls, s0: State, s: State, t: ThreadId, u: ThreadId, id: ObjectID, r: ActorRef, c: CallRef)
    requires ReachesBy(calls, s0, s)
    requires At(s, t) && s.dispatches[t].pc.Inside? && s.dispatches[t].pc.phase.Invoking? && s.dispatches[t].child.None?
    requires Fresh(s, u) && s.mu.None? && IsServed(s.manifest, id) && MayCall(s.manifest, calls, s.dispatches[t].id, id)
    requires id in s.actors && s.actors[id] == r && r in s.heap && c !in s.calls
    ensures ReachesBy(calls, s0, WithWaiting(s, t, u, id, r))
  {
    ThenStep(calls, s0, s, Handle(t, CallStub(u, id)));
    var s1 := WithCalled(s, t, u, id);
    CallFinds(s, t, u, id, r, c);
    ThenSilently(calls, s0, s1, Goto(s1, u, Entering(r)));
    CallEnters(s, t, u, id, r);
    ThenSilently(calls, s0, Goto(s1, u, Entering(r)), WithWaiting(s, t, u, id, r));
  }

  /** The handler of `id` is at work in actor `i`, and perhaps waits for a call. */
  function Worker(id: ObjectID, i: nat, child: Option<ThreadId>): Dispatch {
    Newcomer(id, Inside(i, Invoking), 1).(child := child)
  }

  /** Actor `i` belongs to identity `i` of the circle, and dispatch `i` holds its gate. */
  predicate IsHome(s: State, c: seq<ObjectID>, i: nat)
    requires i < |c|
  {
    c[i] in s.actors && s.actors[c[i]] == i && i in s.heap && s.heap[i].gate == Some(i)
  }

  predicate Works(s: State, c: seq<ObjectID>, i: nat, child: Option<ThreadId>)
    requires i < |c|
  {
    At(s, i) && s.dispatches[i] == Worker(c[i], i, child)
  }

  /** Handler `i` is at work, and if it is one of the first `k` it has called. */
  predicate WorksOrCalls(s: State, c: seq<ObjectID>, i: nat, k: nat)
    requires i < |c|
  {
    Works(s, c, i, if i < k then Some(|c| + i) else None)
  }

  /** The call that handler `i` has made waits at the gate of the next identity. */
  predicate Waits(s: State, c: seq<ObjectID>, i: nat)
    requires i < |c|
  {
    At(s, |c| + i) && s.dispatches[|c| + i] == Newcomer(c[Succ(c, i)], AtGate(Succ(c, i)), 0)
  }

  /** Nobody holds the lock, starts or sweeps, and the first `k` identities of the circle have actors. */
  ghost predicate Quiet(s: State, m: Manifests.Manifest, c: seq<ObjectID>, k: nat)
    requires k <= |c|
  {
    && s.manifest == m && s.mu.None? && s.starts == map[] && s.sweeps == map[]
    && (forall i: nat | k <= i < |c| :: c[i] !in s.actors)
    && (forall i: nat | i < k :: IsHome(s, c, i))
    && (forall r | r in s.heap :: r < k)
    && (forall call | call in s.calls :: call < k)
  }

  /** The first `k` identities of the circle have a handler at work. */
  ghost predicate Busy(s: State, m: Manifests.Manifest, c: seq<ObjectID>, k: nat)
    requires k <= |c|
  {
    && Quiet(s, m, c, k)
    && (forall t | t in s.dispatches :: t < k)
    && (forall i: nat | i < k :: Works(s, c, i, None))
  }

  /** All have, and the first `k` of the handlers have called the next identity, whose gate the call waits at. */
  ghost predicate Waiting(s: State, m: Manifests.Manifest, c: seq<ObjectID>, k: nat)
    requires k <= |c|
  {
    && Quiet(s, m, c, |c|)
    && (forall t | t in s.dispatches :: t < |c| + k)
    && (forall i: nat | i < |c| :: WorksOrCalls(s, c, i, k))
    && (forall i: nat | i < k :: Waits(s, c, i))
  }

  lemma OneMoreBusy(s: State, m: Manifests.Manifest, c: seq<ObjectID>, k: nat)
    requires k < |c| && Busy(s, m, c, k) && forall i, j | 0 <= i < j < |c| :: c[i] != c[j]
    ensures Busy(WithBusy(s, k, c[k], k, k), m, c, k + 1)
  {
    var s' := WithBusy(s, k, c[k], k, k);
    forall i: nat | i < k + 1 ensures IsHome(s', c, i) && Works(s', c, i, None) {
      if i < k {
        assert IsHome(s, c, i) && Works(s, c, i, None);
      }
    }
  }

  lemma OneMoreWaiting(s: State, m: Manifests.Manifest, c: seq<ObjectID>, k: nat)
    requires k < |c| && Waiting(s, m, c, k) && At(s, k) && Succ(c, k) in s.heap
    ensures Waiting(WithWaiting(s, k, |c| + k, c[Succ(c, k)], Succ(c, k)), m, c, k + 1)
  {
    var s' := WithWaiting(s, k, |c| + k, c[Succ(c, k)], Succ(c, k));
    forall i: nat | i < |c| ensures IsHome(s', c, i) { assert IsHome(s, c, i); }
    var next := k + 1;
    forall i: nat | i < |c| ensures WorksOrCalls(s', c, i, next) { assert WorksOrCalls(s, c, i, k); }
    forall i: nat | i < k + 1 ensures Waits(s', c, i) {
      if i < k {
        assert Waits(s, c, i);
      }
    }
    forall t | t in s'.dispatches ensures t < |c| + (k + 1) {
      assert t in s.dispatches || t == |c| + k;
    }
  }

  lemma NextGetsBusy(m: Manifests.Manifest, calls: Calls, c: seq<ObjectID>, k: nat, s: State)
    requires k < |c| && IsCircle(m, calls, c) && Busy(s, m, c, k) && ReachesBy(calls, Init(m), s)
    ensures Busy(WithBusy(s, k, c[k], k, k), m, c, k + 1)
    ensures ReachesBy(calls, Init(m), WithBusy(s, k, c[k], k, k))
  {
    assert MayCall(m, calls, c[k], c[Succ(c, k)]);
    ReachesItself(s);
    StartsAndInvokes(s, s, k, c[k], k, k);
    OneMoreBusy(s, m, c, k);
    ThenSilently(calls, Init(m), s, WithBusy(s, k, c[k], k, k));
  }

  lemma {:induction false} AllGetBusy(m: Manifests.Manifest, calls: Calls, c: seq<ObjectID>, k: nat) returns (s: State)
    requires k <= |c| && IsCircle(m, calls, c)
    ensures Busy(s, m, c, k) && ReachesBy(calls, Init(m), s)
  {
    if k == 0 {
      s := Init(m);
      assert Feasible(s, []) && Run(s, []) == s && Conforms(calls, s, []);
    } else {
      var s1 := AllGetBusy(m, calls, c, k - 1);
      NextGetsBusy(m, calls, c, k - 1, s1);
      s := WithBusy(s1, k - 1, c[k - 1], k - 1, k - 1);
    }
  }

  /** The next handler can call, and the identity it calls has its actor. */
  lemma NextCanCall(s: State, m: Manifests.Manifest, c: seq<ObjectID>, k: nat)
    requires k < |c| && Waiting(s, m, c, k)
    ensures Works(s, c, k, None) && IsHome(s, c, Succ(c, k)) && Fresh(s, |c| + k)
    ensures s.mu.None? && s.manifest == m && |c| !in s.calls
  {
    assert WorksOrCalls(s, c, k, k) && IsHome(s, c, Succ(c, k));
  }

  lemma NextCalls(m: Manifests.Manifest, calls: Calls, c: seq<ObjectID>, k: nat, s: State)
    requires k < |c| && ReachesBy(calls, Init(m), s)
    requires Works(s, c, k, None) && IsHome(s, c, Succ(c, k)) && Fresh(s, |c| + k)
    requires s.mu.None? && s.manifest == m && |c| !in s.calls
    requires MayCall(m, calls, c[k], c[Succ(c, k)]) && IsServed(m, c[Succ(c, k)])
    ensures ReachesBy(calls, Init(m), WithWaiting(s, k, |c| + k, c[Succ(c, k)], Succ(c, k)))
  {
    CallsAndWaits(calls, Init(m), s, k, |c| + k, c[Succ(c, k)], Succ(c, k), |c|);
  }

  lemma CircleIsServed(m: Manifests.Manifest, calls: Calls, c: seq<ObjectID>, k: nat)
    requires k < |c| && IsCircle(m, calls, c)
    ensures MayCall(m, calls, c[k], c[Succ(c, k)]) && IsServed(m, c[Succ(c, k)])
  {
    var next := Succ(c, k);
    assert MayCall(m, calls, c[next], c[Succ(c, next)]);
  }

  lemma NextWaits(m: Manifests.Manifest, calls: Calls, c: seq<ObjectID>, k: nat, s: State) returns (s': State)
    requires k < |c| && IsCircle(m, calls, c) && Waiting(s, m, c, k) && ReachesBy(calls, Init(m), s)
    ensures Waiting(s', m, c, k + 1) && ReachesBy(calls, Init(m), s')
  {
    NextCanCall(s, m, c, k);
    CircleIsServed(m, calls, c, k);
    NextCalls(m, calls, c, k, s);
    OneMoreWaiting(s, m, c, k);
    s' := WithWaiting(s, k, |c| + k, c[Succ(c, k)], Succ(c, k));
  }

  lemma {:induction false} AllGetToWait(m: Manifests.Manifest, calls: Calls, c: seq<ObjectID>, k: nat) returns (s: State)
    requires k <= |c| && IsCircle(m, calls, c)
    ensures Waiting(s, m, c, k) && ReachesBy(calls, Init(m), s)
  {
    if k == 0 {
      s := AllGetBusy(m, calls, c, |c|);
      forall i: nat | i < |c| ensures WorksOrCalls(s, c, i, 0) { assert Works(s, c, i, None); }
    } else {
      var s1 := AllGetToWait(m, calls, c, k - 1);
      s := NextWaits(m, calls, c, k - 1, s1);
    }
  }

  /** When the circle is closed, everybody waits for somebody. */
  lemma AllAreStuck(s: State, m: Manifests.Manifest, c: seq<ObjectID>, a: Action)
    requires Waiting(s, m, c, |c|)
    ensures !Advances(s, a)
  {
    if !a.Evict? && At(s, a.t) {
      if a.t < |c| {
        assert WorksOrCalls(s, c, a.t, |c|) && Waits(s, c, a.t);
      } else {
        var i := a.t - |c|;
        assert Waits(s, c, i) && IsHome(s, c, Succ(c, i));
      }
    }
  }

  lemma CircleDeadlocks(m: Manifests.Manifest, calls: Calls, c: seq<ObjectID>)
    requires IsCircle(m, calls, c)
    ensures exists run, t ::
              && Feasible(Init(m), run) && Conforms(calls, Init(m), run)
              && Unfinished(Run(Init(m), run), t) && !CanAdvance(Run(Init(m), run))
  {
    var s := AllGetToWait(m, calls, c, |c|);
    var run :| Feasible(Init(m), run) && Run(Init(m), run) == s && Conforms(calls, Init(m), run);
    forall a ensures !Advances(s, a) { AllAreStuck(s, m, c, a); }
    assert WorksOrCalls(s, c, 0, |c|);
    assert Unfinished(s, 0);
  }

  /** In particular two objects that may call each other can wait for each other for ever. */
  lemma MutualCallsDeadlock(m: Manifests.Manifest, calls: Calls, a: ObjectID, b: ObjectID)
    requires MayCall(m, calls, a, b) && MayCall(m, calls, b, a)
    ensures exists run, t ::
              && Feasible(Init(m), run) && Conforms(calls, Init(m), run)
              && Unfinished(Run(Init(m), run), t) && !CanAdvance(Run(Init(m), run))
  {
    CircleDeadlocks(m, calls, [a, b]);
  }

  /**
   * If handlers make only the stub calls that `calls` allows, then in every run an unfinished dispatch can go on without a
   * cancellation and without a new call, or the scan can that holds the lock; if and only if there are no two or more
   * served identities whose handlers may call each other in a circle. The circle of one is what the code itself rejects.
   */
  lemma DeadlockFreeIffNoCircle(m: Manifests.Manifest, calls: Calls)
    ensures (forall run, t | Feasible(Init(m), run) && Conforms(calls, Init(m), run) && Unfinished(Run(Init(m), run), t) ::
               CanAdvance(Run(Init(m), run)))
            <==> !exists c :: IsCircle(m, calls, c)
  {
    if c :| IsCircle(m, calls, c) {
      CircleDeadlocks(m, calls, c);
    } else {
      forall run, t | Feasible(Init(m), run) && Conforms(calls, Init(m), run) && Unfinished(Run(Init(m), run), t)
        ensures CanAdvance(Run(Init(m), run))
      {
        NoCircleNoDeadlock(m, calls, run, t);
      }
    }
  }
}
