/**
 * Building blocks for concrete runs: putting runs together, and what becomes of a new dispatch that is the only one to
 * move. It finds no actor of its identity, starts and publishes one, enters it, takes its gate, and has its handler
 * invoked.
 */
module LifecycleScenarios {
  import opened Wrappers
  import opened Text
  import opened Identity
  import opened Lifecycle
  import Manifests

  /** Getting an actor, or going in and out of one: the step runs no code, evicts nobody and walks away from nothing. */
  predicate IsSilent(a: Action) { a.Obtain? || a.Pass? }

  /** There is a run of silent steps from `s` to `s'`. */
  ghost predicate Reaches(s: State, s': State) {
    exists run :: Feasible(s, run) && Run(s, run) == s' && forall a | a in run :: IsSilent(a)
  }

  lemma {:induction false} RunsAppend(s: State, first: seq<Action>, second: seq<Action>)
    requires Feasible(s, first) && Feasible(Run(s, first), second)
    ensures Feasible(s, first + second) && Run(s, first + second) == Run(Run(s, first), second)
    decreases |first|
  {
    var all := first + second;
    if first == [] {
      assert all == second;
    } else {
      assert all[0] == first[0] && all[1..] == first[1..] + second;
      RunsAppend(Apply(s, first[0]), first[1..], second);
    }
  }

  lemma RunOfOne(s: State, a: Action)
    requires Enabled(s, a)
    ensures Feasible(s, [a]) && Run(s, [a]) == Apply(s, a)
  {
    var run := [a];
    assert run[0] == a && run[1..] == [];
    assert Feasible(Apply(s, a), []) && Run(Apply(s, a), []) == Apply(s, a);
  }

  lemma ReachesNext(s0: State, s: State, a: Action)
    requires Reaches(s0, s) && Enabled(s, a) && IsSilent(a)
    ensures Reaches(s0, Apply(s, a))
  {
    var run :| Feasible(s0, run) && Run(s0, run) == s && forall b | b in run :: IsSilent(b);
    RunOfOne(s, a);
    RunsAppend(s0, run, [a]);
  }

  lemma ReachesItself(s: State)
    ensures Reaches(s, s)
  {
    assert Feasible(s, []) && Run(s, []) == s;
  }

  predicate IsServed(m: Manifests.Manifest, id: ObjectID) {
    !id.IsZero() && m.ClassForNamespace(id.namespace).Some?
  }

  /** A dispatch on its first attempt. */
  function Newcomer(id: ObjectID, pc: Pc, invocations: nat): Dispatch {
    Dispatch(id, 0, pc, NoPromise, None, [], invocations, {})
  }

  /** The state in which a new dispatch has started and published actor `r` of `id` and has got as far as `pc`. */
  function WithVisit(s: State, t: ThreadId, id: ObjectID, c: CallRef, r: ActorRef,
                     pc: Pc, gate: Option<ThreadId>, active: int, invocations: nat): State
  {
    s.(actors := s.actors[id := r],
       calls := s.calls[c := Resolved(id, Got(r))],
       heap := s.heap[r := Actor(id, gate, false, active, Live)],
       dispatches := s.dispatches[t := Newcomer(id, pc, invocations)],
       log := s.log + [ActorStart(id)])
  }

  function WithEntering(s: State, t: ThreadId, id: ObjectID, c: CallRef, r: ActorRef): State {
    WithVisit(s, t, id, c, r, Entering(r), None, 0, 0)
  }

  function WithBusy(s: State, t: ThreadId, id: ObjectID, c: CallRef, r: ActorRef): State {
    WithVisit(s, t, id, c, r, Inside(r, Invoking), Some(t), 1, 1)
  }

  /** The state in which a new dispatch is starting an actor of `id`. */
  function WithStarting(s: State, t: ThreadId, id: ObjectID, c: CallRef): State {
    s.(starts := s.starts[id := c],
       calls := s.calls[c := Running(id, t)],
       dispatches := s.dispatches[t := Newcomer(id, Starting(c), 0)])
  }

  lemma BeginsStart(s0: State, s: State, t: ThreadId, id: ObjectID, c: CallRef)
    requires Reaches(s0, s)
    requires Fresh(s, t) && s.mu.None? && IsServed(s.manifest, id)
    requires id !in s.actors && id !in s.starts && c !in s.calls
    ensures Reaches(s0, WithStarting(s, t, id, c))
  {
    ReachesNext(s0, s, Obtain(t, Arrive(id)));
    var s1 := With(s, t, Newcomer(id, Lookup, 0));
    assert Apply(s, Obtain(t, Arrive(id))) == s1;
    LooksUp(s, t, id, c);
    ReachesNext(s0, s1, Obtain(t, LookUp(c)));
  }

  lemma LooksUp(s: State, t: ThreadId, id: ObjectID, c: CallRef)
    requires s.mu.None? && id !in s.actors && id !in s.starts && c !in s.calls
    ensures var s1 := With(s, t, Newcomer(id, Lookup, 0));
            Enabled(s1, Obtain(t, LookUp(c))) && Apply(s1, Obtain(t, LookUp(c))) == WithStarting(s, t, id, c)
  {
    var s1 := With(s, t, Newcomer(id, Lookup, 0));
    assert Apply(s1, Obtain(t, LookUp(c))).dispatches == WithStarting(s, t, id, c).dispatches;
  }

  lemma EndsStart(s0: State, s: State, t: ThreadId, id: ObjectID, c: CallRef, r: ActorRef)
    requires Reaches(s0, WithStarting(s, t, id, c))
    requires s.mu.None? && id !in s.actors && id !in s.starts && r !in s.heap
    ensures Reaches(s0, WithEntering(s, t, id, c, r))
  {
    var s1 := WithStarting(s, t, id, c);
    var s2 := s1.(heap := s.heap[r := Actor(id, None, false, 0, Unpublished)], log := s.log + [ActorStart(id)],
                  dispatches := s.dispatches[t := Newcomer(id, StartReturned(c, Got(r)), 0)]);
    ReachesNext(s0, s1, Obtain(t, FinishStart(r)));
    assert Apply(s1, Obtain(t, FinishStart(r))).dispatches == s2.dispatches;
    ReachesNext(s0, s2, Obtain(t, Publish));
    PublishesInto(s, s2, t, id, c, r);
  }

  lemma PublishesInto(s: State, s2: State, t: ThreadId, id: ObjectID, c: CallRef, r: ActorRef)
    requires s.mu.None? && id !in s.actors && id !in s.starts && r !in s.heap
    requires s2 == WithStarting(s, t, id, c).(
                     heap := s.heap[r := Actor(id, None, false, 0, Unpublished)], log := s.log + [ActorStart(id)],
                     dispatches := s.dispatches[t := Newcomer(id, StartReturned(c, Got(r)), 0)])
    ensures Enabled(s2, Obtain(t, Publish)) && Apply(s2, Obtain(t, Publish)) == WithEntering(s, t, id, c, r)
  {
    ResolvesCall(s2, t, c, r);
    assert s.starts[id := c] - {id} == s.starts;
    SetTwice(s.calls, c, Running(id, t), Resolved(id, Got(r)));
    SetTwice(s.heap, r, Actor(id, None, false, 0, Unpublished), Actor(id, None, false, 0, Live));
    SetTwice(s.dispatches, t, Newcomer(id, StartReturned(c, Got(r)), 0), Newcomer(id, Entering(r), 0));
  }

  lemma SetTwice<K, V>(m: map<K, V>, k: K, v: V, v': V)
    ensures m[k := v][k := v'] == m[k := v']
  {
  }

  lemma ResolvesCall(s: State, t: ThreadId, c: CallRef, r: ActorRef)
    requires s.mu.None? && At(s, t) && s.dispatches[t].pc == StartReturned(c, Got(r))
    requires s.dispatches[t].id !in s.actors && r in s.heap
    ensures var d := s.dispatches[t];
            && Enabled(s, Obtain(t, Publish))
            && Apply(s, Obtain(t, Publish)) ==
               s.(actors := s.actors[d.id := r], starts := s.starts - {d.id}, calls := s.calls[c := Resolved(d.id, Got(r))],
                  heap := s.heap[r := s.heap[r].(stage := Live)], dispatches := s.dispatches[t := d.(pc := Entering(r))])
  {
  }

  lemma GoesToGate(s0: State, s: State, t: ThreadId, id: ObjectID, c: CallRef, r: ActorRef)
    requires Reaches(s0, WithEntering(s, t, id, c, r))
    ensures Reaches(s0, WithVisit(s, t, id, c, r, AtGate(r), None, 1, 0))
  {
    var s1, s2 := WithEntering(s, t, id, c, r), WithVisit(s, t, id, c, r, AtGate(r), None, 1, 0);
    SetTwice(s.heap, r, Actor(id, None, false, 0, Live), Actor(id, None, false, 1, Live));
    SetTwice(s.dispatches, t, Newcomer(id, Entering(r), 0), Newcomer(id, AtGate(r), 0));
    EntersActor(s1, s2, t, r);
    ReachesNext(s0, s1, Pass(t, Enter));
  }

  lemma EntersActor(s: State, s': State, t: ThreadId, r: ActorRef)
    requires At(s, t) && s.dispatches[t].pc == Entering(r) && r in s.heap
    requires s'.dispatches == s.dispatches[t := s.dispatches[t].(pc := AtGate(r))]
    requires s'.heap == s.heap[r := s.heap[r].(active := s.heap[r].active + 1)]
    requires s' == s.(dispatches := s'.dispatches, heap := s'.heap)
    ensures Enabled(s, Pass(t, Enter)) && Apply(s, Pass(t, Enter)) == s'
  {
  }

  lemma TakesGate(s0: State, s: State, t: ThreadId, id: ObjectID, c: CallRef, r: ActorRef)
    requires Reaches(s0, WithVisit(s, t, id, c, r, AtGate(r), None, 1, 0))
    ensures Reaches(s0, WithVisit(s, t, id, c, r, Inside(r, Holding), Some(t), 1, 0))
  {
    var s1 := WithVisit(s, t, id, c, r, AtGate(r), None, 1, 0);
    var s2 := WithVisit(s, t, id, c, r, Inside(r, Holding), Some(t), 1, 0);
    GateIsTaken(s, t, id, c, r);
    ReachesNext(s0, s1, Pass(t, Acquire));
  }

  lemma GateIsTaken(s: State, t: ThreadId, id: ObjectID, c: CallRef, r: ActorRef)
    ensures var s1 := WithVisit(s, t, id, c, r, AtGate(r), None, 1, 0);
            var s2 := WithVisit(s, t, id, c, r, Inside(r, Holding), Some(t), 1, 0);
            Enabled(s1, Pass(t, Acquire)) && Apply(s1, Pass(t, Acquire)) == s2
  {
    SetTwice(s.heap, r, Actor(id, None, false, 1, Live), Actor(id, Some(t), false, 1, Live));
    SetTwice(s.dispatches, t, Newcomer(id, AtGate(r), 0), Newcomer(id, Inside(r, Holding), 0));
  }

  lemma Invokes(s0: State, s: State, t: ThreadId, id: ObjectID, c: CallRef, r: ActorRef)
    requires Reaches(s0, WithVisit(s, t, id, c, r, Inside(r, Holding), Some(t), 1, 0))
    ensures Reaches(s0, WithBusy(s, t, id, c, r))
  {
    var s1, s2 := WithVisit(s, t, id, c, r, Inside(r, Holding), Some(t), 1, 0), WithBusy(s, t, id, c, r);
    ReachesNext(s0, s1, Pass(t, CheckPoison));
    assert Apply(s1, Pass(t, CheckPoison)).dispatches == s2.dispatches;
  }

  lemma StartsAndInvokes(s0: State, s: State, t: ThreadId, id: ObjectID, c: CallRef, r: ActorRef)
    requires Reaches(s0, s)
    requires Fresh(s, t) && s.mu.None? && IsServed(s.manifest, id)
    requires id !in s.actors && id !in s.starts && c !in s.calls && r !in s.heap
    ensures Reaches(s0, WithBusy(s, t, id, c, r))
  {
    BeginsStart(s0, s, t, id, c);
    EndsStart(s0, s, t, id, c, r);
    GoesToGate(s0, s, t, id, c, r);
    TakesGate(s0, s, t, id, c, r);
    Invokes(s0, s, t, id, c, r);
  }

  const A := ObjectID("A", "a", "a")
  const B := ObjectID("B", "b", "b")
  const BOTH := Manifests.Manifest(map["A" := "A", "B" := "B"])

  lemma BothAreServed()
    ensures IsServed(BOTH, A) && IsServed(BOTH, B)
  {
    TrimmedIsFixed("A");
    TrimmedIsFixed("B");
  }
}
