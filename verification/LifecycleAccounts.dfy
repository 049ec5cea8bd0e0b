/** Bookkeeping over every run: what became of each actor that was started, and who is counted as active. */
module LifecycleAccounts {
  import opened Wrappers
  import opened Identity
  import opened Lifecycle
  import opened LifecycleInvariant
  import opened LifecycleCoherence
  import opened LifecycleHistory
  import Manifests

  function Count(log: seq<Event>, e: Event): nat {
    if log == [] then 0 else Count(log[..|log| - 1], e) + (if log[|log| - 1] == e then 1 else 0)
  }

  lemma CountAppend(log: seq<Event>, last: Event, e: Event)
    ensures Count(log + [last], e) == Count(log, e) + (if last == e then 1 else 0)
  {
    assert (log + [last])[..|log|] == log;
  }

  // ---------- actors of one identity, by stage ----------

  function StartedOf(s: State, id: ObjectID): set<ActorRef> { set r | r in s.heap && s.heap[r].id == id }

  function UnpublishedOf(s: State, id: ObjectID): set<ActorRef> { set r | r in StartedOf(s, id) && s.heap[r].stage.Unpublished? }

  function LiveOf(s: State, id: ObjectID): set<ActorRef> { set r | r in StartedOf(s, id) && s.heap[r].stage.Live? }

  function RemovedOf(s: State, id: ObjectID): set<ActorRef> { set r | r in StartedOf(s, id) && s.heap[r].stage.Removed? }

  function EvictedOf(s: State, id: ObjectID): set<ActorRef> { set r | r in StartedOf(s, id) && s.heap[r].stage.Evicted? }

  function ClosedOutOf(s: State, id: ObjectID): set<ActorRef> { set r | r in StartedOf(s, id) && s.heap[r].stage.ClosedOut? }

  /** The events of one identity, and the actors they speak of, come in equal numbers. */
  ghost predicate EventsCounted(s: State, id: ObjectID) {
    && Count(s.log, ActorStart(id)) == |StartedOf(s, id)|
    && Count(s.log, ActorEvict(id)) == |EvictedOf(s, id)|
  }

  /** A step that neither starts an actor nor reports an eviction. */
  ghost predicate Uneventful(s: State, s': State) {
    && s'.log == s.log && s'.heap.Keys == s.heap.Keys
    && forall r | r in s.heap :: s'.heap[r].id == s.heap[r].id && (s'.heap[r].stage.Evicted? <==> s.heap[r].stage.Evicted?)
  }

  lemma UneventfulKeepsEvents(s: State, s': State, id: ObjectID)
    requires EventsCounted(s, id) && Uneventful(s, s')
    ensures EventsCounted(s', id)
  {
    assert StartedOf(s', id) == StartedOf(s, id);
    assert EvictedOf(s', id) == EvictedOf(s, id);
  }

  /** Actor `r` is started. */
  lemma StartKeepsEvents(s: State, s': State, r: ActorRef, a: Actor, id: ObjectID)
    requires EventsCounted(s, id) && r !in s.heap && !a.stage.Evicted?
    requires s'.log == s.log + [ActorStart(a.id)] && s'.heap == s.heap[r := a]
    ensures EventsCounted(s', id)
  {
    CountAppend(s.log, ActorStart(a.id), ActorStart(id));
    CountAppend(s.log, ActorStart(a.id), ActorEvict(id));
    assert StartedOf(s', id) == StartedOf(s, id) + (if a.id == id then {r} else {});
    assert EvictedOf(s', id) == EvictedOf(s, id);
  }

  /** The eviction of actor `r` is reported. */
  lemma ReportKeepsEvents(s: State, s': State, r: ActorRef, a: Actor, id: ObjectID)
    requires EventsCounted(s, id) && r in s.heap && !s.heap[r].stage.Evicted?
    requires a.id == s.heap[r].id && a.stage.Evicted?
    requires s'.log == s.log + [ActorEvict(a.id)] && s'.heap == s.heap[r := a]
    ensures EventsCounted(s', id)
  {
    CountAppend(s.log, ActorEvict(a.id), ActorStart(id));
    CountAppend(s.log, ActorEvict(a.id), ActorEvict(id));
    ReportAddsEvicted(s, s', r, a, id);
  }

  lemma ReportAddsEvicted(s: State, s': State, r: ActorRef, a: Actor, id: ObjectID)
    requires r in s.heap && !s.heap[r].stage.Evicted? && a.id == s.heap[r].id && a.stage.Evicted?
    requires s'.heap == s.heap[r := a]
    ensures StartedOf(s', id) == StartedOf(s, id)
    ensures |EvictedOf(s', id)| == |EvictedOf(s, id)| + if a.id == id then 1 else 0
  {
    if a.id == id {
      assert EvictedOf(s', id) == EvictedOf(s, id) + {r};
    } else {
      assert EvictedOf(s', id) == EvictedOf(s, id);
    }
  }

  lemma ObtainKeepsEvents(s: State, t: ThreadId, step: ObtainStep, id: ObjectID)
    requires CanObtain(s, t, step) && Coherent(s) && EventsCounted(s, id)
    ensures EventsCounted(AfterObtain(s, t, step), id)
  {
    var s' := AfterObtain(s, t, step);
    if step.FinishStart? {
      StartKeepsEvents(s, s', step.actor, s'.heap[step.actor], id);
    } else {
      assert Uneventful(s, s') by { assert StarterOk(s, t); }
      UneventfulKeepsEvents(s, s', id);
    }
  }

  lemma PassKeepsEvents(s: State, t: ThreadId, step: GateStep, id: ObjectID)
    requires CanPass(s, t, step) && EventsCounted(s, id)
    ensures EventsCounted(AfterPass(s, t, step), id)
  {
    UneventfulKeepsEvents(s, AfterPass(s, t, step), id);
  }

  lemma HandleKeepsEvents(s: State, t: ThreadId, step: HandleStep, id: ObjectID)
    requires CanHandle(s, t, step) && EventsCounted(s, id)
    ensures EventsCounted(AfterHandle(s, t, step), id)
  {
    UneventfulKeepsEvents(s, AfterHandle(s, t, step), id);
  }

  lemma AbandonKeepsEvents(s: State, t: ThreadId, step: AbandonStep, id: ObjectID)
    requires CanAbandon(s, t, step) && Coherent(s) && EventsCounted(s, id)
    ensures EventsCounted(AfterAbandon(s, t, step), id)
  {
    var s' := AfterAbandon(s, t, step);
    var d := s.dispatches[t];
    assert VisitorOk(s, t) && IdOk(s, d.id);
    if step.ReportOwn? && d.pc.phase.removed {
      ReportKeepsEvents(s, s', d.pc.actor, s'.heap[d.pc.actor], id);
    } else {
      UneventfulKeepsEvents(s, s', id);
    }
  }

  lemma SweepKeepsEvents(s: State, t: ThreadId, step: SweepStep, id: ObjectID)
    requires CanSweep(s, t, step) && Coherent(s) && SweepsOk(s) && EventsCounted(s, id)
    ensures EventsCounted(AfterSweep(s, t, step), id)
  {
    var s' := AfterSweep(s, t, step);
    if step.SweepReport? && !s.sweeps[t].closing {
      assert SweepOk(s, t);
      var r := s.sweeps[t].todo[0];
      ReportKeepsEvents(s, s', r, s'.heap[r], id);
    } else {
      SweepIsUneventful(s, t, step);
      UneventfulKeepsEvents(s, s', id);
    }
  }

  lemma SweepIsUneventful(s: State, t: ThreadId, step: SweepStep)
    requires CanSweep(s, t, step) && Coherent(s) && SweepsOk(s)
    requires step.SweepReport? ==> s.sweeps[t].closing
    ensures Uneventful(s, AfterSweep(s, t, step))
  {
    assert SweepOk(s, t);
    RemovedWereLive(s, s.actors.Keys);
  }

  lemma StepKeepsEvents(s: State, a: Action, id: ObjectID)
    requires Enabled(s, a) && Coherent(s) && SweepsOk(s) && EventsCounted(s, id)
    ensures EventsCounted(Apply(s, a), id)
  {
    match a
    case Obtain(t, step) => ObtainKeepsEvents(s, t, step, id);
    case Pass(t, step) => PassKeepsEvents(s, t, step, id);
    case Handle(t, step) => HandleKeepsEvents(s, t, step, id);
    case Abandon(t, step) => AbandonKeepsEvents(s, t, step, id);
    case Evict(t, step) => SweepKeepsEvents(s, t, step, id);
  }

  lemma {:induction false} RunKeepsEvents(s: State, run: seq<Action>, id: ObjectID)
    requires Inv(s) && Feasible(s, run) && EventsCounted(s, id)
    ensures EventsCounted(Run(s, run), id)
    decreases |run|
  {
    if run != [] {
      StepKeepsInv(s, run[0]);
      StepKeepsEvents(s, run[0], id);
      RunKeepsEvents(Apply(s, run[0]), run[1..], id);
    }
  }

  /** A starter of `id` holds an actor it has not published yet. */
  ghost predicate IsPublishing(s: State, id: ObjectID) {
    && StartUnderWay(s, id)
    && var pc := s.dispatches[Starter(s, id)].pc;
       pc.StartReturned? && pc.started.Got?
  }

  lemma LiveIsCurrent(s: State, id: ObjectID)
    requires Coherent(s)
    ensures LiveOf(s, id) == if id in s.actors then {s.actors[id]} else {}
  {
    assert IdOk(s, id);
    forall r | r in LiveOf(s, id) ensures IsCurrent(s.actors, id, r) { assert ActorOk(s, r); }
  }

  lemma UnpublishedIsPublishing(s: State, id: ObjectID)
    requires Coherent(s)
    ensures |UnpublishedOf(s, id)| == if IsPublishing(s, id) then 1 else 0
  {
    assert IdOk(s, id);
    forall r | r in UnpublishedOf(s, id)
      ensures IsPublishing(s, id) && s.dispatches[Starter(s, id)].pc.started == Got(r)
    {
      assert ActorOk(s, r);
    }
    if IsPublishing(s, id) {
      assert StarterOk(s, Starter(s, id));
      assert UnpublishedOf(s, id) == {s.dispatches[Starter(s, id)].pc.started.actor};
    } else {
      assert UnpublishedOf(s, id) == {};
    }
  }

  /**
   * Conservation, in every reachable state and for every identity: the actors started are the ones whose eviction was
   * reported, the ones `Close` took, the ones taken out and still to be reported, the one in the manager if any, and
   * the one that its starter has not published yet if any.
   */
  lemma ActorsAreConserved(manifest: Manifests.Manifest, run: seq<Action>, id: ObjectID)
    requires Feasible(Init(manifest), run)
    ensures var s := Run(Init(manifest), run);
            Count(s.log, ActorStart(id)) ==
              Count(s.log, ActorEvict(id)) + |ClosedOutOf(s, id)| + |RemovedOf(s, id)|
              + (if id in s.actors then 1 else 0) + (if IsPublishing(s, id) then 1 else 0)
  {
    var s0 := Init(manifest);
    var s := Run(s0, run);
    assert StartedOf(s0, id) == {} && EvictedOf(s0, id) == {};
    RunKeepsInv(s0, run);
    RunKeepsEvents(s0, run, id);
    LiveIsCurrent(s, id);
    UnpublishedIsPublishing(s, id);
    StagesPartition(s, id);
  }

  lemma StagesPartition(s: State, id: ObjectID)
    ensures |StartedOf(s, id)| ==
            |UnpublishedOf(s, id)| + |LiveOf(s, id)| + |RemovedOf(s, id)| + |EvictedOf(s, id)| + |ClosedOutOf(s, id)|
  {
    var a, b, c, d := UnpublishedOf(s, id), LiveOf(s, id), RemovedOf(s, id), EvictedOf(s, id);
    var e := ClosedOutOf(s, id);
    assert StartedOf(s, id) == a + b + c + d + e;
  }

  /** An actor that has left the manager never comes back, so it is taken out at most once. */
  lemma {:induction false} GoneIsForGood(s: State, run: seq<Action>, r: ActorRef)
    requires Inv(s) && Feasible(s, run) && r in s.heap && IsGone(s.heap[r].stage)
    ensures r !in Run(s, run).actors.Values
    decreases |run|
  {
    if run == [] {
      forall id | id in s.actors ensures s.actors[id] != r { assert IdOk(s, id); }
    } else {
      StepKeepsInv(s, run[0]);
      assert ActorForward(s, Apply(s, run[0]), r);
      GoneIsForGood(Apply(s, run[0]), run[1..], r);
    }
  }

  // ---------- who is active ----------

  /** The actor whose counter dispatch `t` has incremented and not yet decremented. */
  function VisitOf(s: State, t: ThreadId): Option<ActorRef> {
    if At(s, t) && IsCounted(s.dispatches[t].pc) then Some(s.dispatches[t].pc.actor) else None
  }

  function Visitors(s: State, r: ActorRef): set<ThreadId> {
    set t | t in s.dispatches && VisitOf(s, t) == Some(r)
  }

  ghost predicate ActiveCounted(s: State, r: ActorRef) {
    r in s.heap ==> s.heap[r].active == |Visitors(s, r)|
  }

  /** Nobody comes in or goes out, and no counter changes; a new actor has no visitors. */
  ghost predicate SameVisits(s: State, s': State) {
    && (forall r | r in s'.heap :: s'.heap[r].active == if r in s.heap then s.heap[r].active else 0)
    && (forall t :: VisitOf(s', t) == VisitOf(s, t))
  }

  lemma SameVisitsKeepsActive(s: State, s': State, r: ActorRef)
    requires Coherent(s) && ActiveCounted(s, r) && SameVisits(s, s')
    ensures ActiveCounted(s', r)
  {
    assert Visitors(s', r) == Visitors(s, r) by {
      forall t ensures VisitOf(s', t) == Some(r) <==> VisitOf(s, t) == Some(r) {}
    }
    if r !in s.heap {
      forall t ensures VisitOf(s, t) != Some(r) { assert VisitorOk(s, t); }
      assert Visitors(s, r) == {};
    }
  }

  lemma AbandonKeepsVisits(s: State, t: ThreadId, step: AbandonStep)
    requires CanAbandon(s, t, step)
    ensures SameVisits(s, AfterAbandon(s, t, step))
  {
    forall u ensures VisitOf(AfterAbandon(s, t, step), u) == VisitOf(s, u) { }
  }

  lemma SweepKeepsVisits(s: State, t: ThreadId, step: SweepStep)
    requires CanSweep(s, t, step)
    ensures SameVisits(s, AfterSweep(s, t, step))
  {
  }

  lemma VisitBegins(s: State, s': State, t: ThreadId, here: ActorRef, r: ActorRef)
    requires ActiveCounted(s, r) && here in s.heap && VisitOf(s, t).None?
    requires s'.heap == s.heap[here := s.heap[here].(active := s.heap[here].active + 1)]
    requires forall u :: VisitOf(s', u) == if u == t then Some(here) else VisitOf(s, u)
    ensures ActiveCounted(s', r)
  {
    assert Visitors(s', r) == if r == here then Visitors(s, r) + {t} else Visitors(s, r);
  }

  lemma VisitEnds(s: State, s': State, t: ThreadId, here: ActorRef, r: ActorRef)
    requires ActiveCounted(s, r) && here in s.heap && VisitOf(s, t) == Some(here)
    requires s'.heap == s.heap[here := s.heap[here].(active := s.heap[here].active - 1)]
    requires forall u :: VisitOf(s', u) == if u == t then None else VisitOf(s, u)
    ensures ActiveCounted(s', r)
  {
    assert r == here ==> t in Visitors(s, r);
    assert Visitors(s', r) == Visitors(s, r) - {t};
  }

  lemma PassKeepsActive(s: State, t: ThreadId, step: GateStep, r: ActorRef)
    requires CanPass(s, t, step) && Coherent(s) && ActiveCounted(s, r)
    ensures ActiveCounted(AfterPass(s, t, step), r)
  {
    var s' := AfterPass(s, t, step);
    var here := s.dispatches[t].pc.actor;
    if step.Enter? {
      VisitBegins(s, s', t, here, r);
    } else if step.Leave? {
      VisitEnds(s, s', t, here, r);
    } else {
      SameVisitsKeepsActive(s, s', r);
    }
  }

  lemma StepKeepsActive(s: State, a: Action, r: ActorRef)
    requires Enabled(s, a) && Coherent(s) && ActiveCounted(s, r)
    ensures ActiveCounted(Apply(s, a), r)
  {
    match a
    case Obtain(t, step) => SameVisitsKeepsActive(s, Apply(s, a), r);
    case Pass(t, step) => PassKeepsActive(s, t, step, r);
    case Handle(t, step) => SameVisitsKeepsActive(s, Apply(s, a), r);
    case Abandon(t, step) => AbandonKeepsVisits(s, t, step); SameVisitsKeepsActive(s, Apply(s, a), r);
    case Evict(t, step) => SweepKeepsVisits(s, t, step); SameVisitsKeepsActive(s, Apply(s, a), r);
  }

  lemma {:induction false} RunKeepsActive(s: State, run: seq<Action>, r: ActorRef)
    requires Inv(s) && Feasible(s, run) && ActiveCounted(s, r)
    ensures ActiveCounted(Run(s, run), r)
    decreases |run|
  {
    if run != [] {
      StepKeepsInv(s, run[0]);
      StepKeepsActive(s, run[0], r);
      RunKeepsActive(Apply(s, run[0]), run[1..], r);
    }
  }

  /**
   * When `EvictIdle` finds an actor idle, no dispatch is inside it. That is all the check gives: a dispatch that was
   * handed the actor before can still come in between the check and the removal.
   */
  lemma IdleMeansNobodyInside(manifest: Manifests.Manifest, run: seq<Action>, sweep: ThreadId, id: ObjectID, t: ThreadId)
    requires Feasible(Init(manifest), run)
    requires CanSweep(Run(Init(manifest), run), sweep, CheckIdle(id))
    ensures var s := Run(Init(manifest), run);
            VisitOf(s, t) != Some(s.actors[id])
  {
    var s := Run(Init(manifest), run);
    var r := s.actors[id];
    RunKeepsActive(Init(manifest), run, r);
    assert Visitors(s, r) == {};
    assert VisitOf(s, t) == Some(r) ==> t in Visitors(s, r);
  }
}
