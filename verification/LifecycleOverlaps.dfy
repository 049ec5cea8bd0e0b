/** The conditions of serialised handlers are exact: any step that breaks one lets two overlap. */
module LifecycleOverlaps {
  import opened Wrappers
  import opened Identity
  import opened Lifecycle
  import opened LifecycleInvariant
  import opened LifecycleHistory
  import opened LifecycleAdmission
  import opened LifecycleProgress
  import opened LifecycleTermination
  import opened LifecycleSerial
  import Manifests

  /** Somebody evicts an actor of `id` under a dispatch, or walks away from a handler of `id`. */
  ghost predicate Disturbs(s: State, a: Action, id: ObjectID)
    requires Enabled(s, a)
  {
    Evicts(s, a, id) || WalksAway(s, a, id)
  }

  ghost predicate IsCalm(s: State, a: Action, id: ObjectID) { Enabled(s, a) && !Disturbs(s, a, id) }

  /** After some continuation of such steps only, a write of `id` falls between the read and the write of another handler. */
  ghost predicate CanOverlap<V(!new)>(p: Program<V>, w: World<V>, id: ObjectID) {
    exists more ::
      && Feasible(w.s, more) && NobodyEvicts(w.s, more, id) && NobodyWalksAway(w.s, more, id)
      && !NoOverlap(WorldRun(p, w, more).order, id)
  }

  lemma OverlapsAfter<V(!new)>(p: Program<V>, w: World<V>, a: Action, id: ObjectID)
    requires IsCalm(w.s, a, id) && CanOverlap(p, WorldAfter(p, w, a), id)
    ensures CanOverlap(p, w, id)
  {
    var w' := WorldAfter(p, w, a);
    OrderGrows(p, w, a);
    var more :| Feasible(w'.s, more) && NobodyEvicts(w'.s, more, id) && NobodyWalksAway(w'.s, more, id)
                && !NoOverlap(WorldRun(p, w', more).order, id);
    var run := [a] + more;
    assert run[0] == a && run[1..] == more;
    assert WorldRun(p, w, run) == WorldRun(p, w', more);
  }

  // ---------- what is known along the way ----------

  predicate Differ(a: ObjectID, b: ObjectID) { a != b }

  ghost predicate Sane(s: State, id: ObjectID) {
    Inv(s) && (forall t :: NestingOk(Differ, s, t)) && Refusal(s.manifest, id).None?
  }

  lemma StepKeepsSane(s: State, a: Action, id: ObjectID)
    requires Enabled(s, a) && Sane(s, id)
    ensures Sane(Apply(s, a), id)
  {
    StepKeepsInv(s, a);
    StepKeepsNesting(Differ, s, a);
    ManifestStays(s, a);
  }

  /** A handler of `id` has read and can be fulfilled at any time. */
  predicate Waits<V>(w: World<V>, id: ObjectID, t: ThreadId) {
    && At(w.s, t) && w.s.dispatches[t].id == id && w.s.dispatches[t].promise.Pending? && w.s.dispatches[t].child.None?
    && t in w.read && w.read[t].at <= |w.order|
  }

  /** The identity has neither an actor in the manager nor a start, and the manager's lock is free. */
  predicate IsVacant(s: State, id: ObjectID) { s.mu.None? && id !in s.actors && id !in s.starts }

  /** Dispatch `u` can be brought to invoke a handler on `r` by steps of its own. */
  predicate CanServe(s: State, id: ObjectID, u: ThreadId, r: ActorRef) {
    && At(s, u) && s.dispatches[u].id == id && s.dispatches[u].child.None?
    && IsSound(s, r)
    && match s.dispatches[u].pc
       case WaitingForStart(c) => c in s.calls && s.calls[c].Resolved? && s.calls[c].result == Got(r) && IsOpen(s, r)
       case Entering(mine) => mine == r && IsOpen(s, r)
       case AtGate(mine) => mine == r && IsOpen(s, r)
       case Inside(mine, phase) => mine == r && (phase.Holding? || phase.Invoking?)
       case _ => false
  }

  /** Nobody is inside the actor, and it is not poisoned. */
  predicate IsOpen(s: State, r: ActorRef) { r in s.heap && s.heap[r].gate.None? && !s.heap[r].poisoned }

  predicate IsSound(s: State, r: ActorRef) { r in s.heap && !s.heap[r].poisoned }

  predicate IsInvoking(s: State, u: ThreadId) { At(s, u) && InPhase(s.dispatches[u], Invoking) }

  function ServeStep(s: State, u: ThreadId): Action
    requires At(s, u)
  {
    match s.dispatches[u].pc
    case WaitingForStart(_) => Obtain(u, Wake)
    case Entering(_) => Pass(u, Enter)
    case AtGate(_) => Pass(u, Acquire)
    case _ => Pass(u, CheckPoison)
  }

  /** A step of dispatch `u` that leaves the manager and the other dispatches alone. */
  predicate MovesOnly(s: State, s': State, u: ThreadId) {
    && s'.actors == s.actors && s'.starts == s.starts && s'.mu == s.mu && s'.dispatches.Keys == s.dispatches.Keys
    && forall v | v in s.dispatches && v != u :: s'.dispatches[v] == s.dispatches[v]
  }

  lemma ServeStepIsCalm(s: State, id: ObjectID, u: ThreadId, r: ActorRef)
    requires CanServe(s, id, u, r) && !IsInvoking(s, u)
    ensures var a := ServeStep(s, u); Enabled(s, a) && IsCalm(s, a, id) && MovesOnly(s, Apply(s, a), u)
  {
    if s.dispatches[u].pc.WaitingForStart? {
      WakeIsCalm(s, id, u);
    } else {
      PassIsCalm(s, id, u, ServeStep(s, u).pass);
    }
  }

  lemma WakeIsCalm(s: State, id: ObjectID, u: ThreadId)
    requires CanObtain(s, u, Wake)
    ensures IsCalm(s, Obtain(u, Wake), id) && MovesOnly(s, Apply(s, Obtain(u, Wake)), u)
  {
  }

  lemma PassIsCalm(s: State, id: ObjectID, u: ThreadId, step: GateStep)
    requires CanPass(s, u, step)
    ensures IsCalm(s, Pass(u, step), id) && MovesOnly(s, Apply(s, Pass(u, step)), u)
  {
  }

  lemma ServeStepServes(s: State, id: ObjectID, u: ThreadId, r: ActorRef)
    requires CanServe(s, id, u, r) && !IsInvoking(s, u)
    ensures var a := ServeStep(s, u);
            && Enabled(s, a) && CanServe(Apply(s, a), id, u, r)
            && PcRank(Apply(s, a).dispatches[u].pc) < PcRank(s.dispatches[u].pc)
  {
    if s.dispatches[u].pc.WaitingForStart? {
      assert Apply(s, ServeStep(s, u)).heap == s.heap;
    }
  }

  // ---------- a second handler overtakes the one that waits ----------

  lemma Overtakes<V(!new)>(p: Program<V>, w: World<V>, id: ObjectID, t: ThreadId, u: ThreadId)
    requires Waits(w, id, t) && u != t && IsInvoking(w.s, u) && w.s.dispatches[u].id == id && w.s.dispatches[u].child.None?
    ensures CanOverlap(p, w, id)
  {
    var first, second := Handle(u, FinishHandler(NoPromise)), Handle(t, Settle(Fulfilled));
    var w1 := WorldAfter(p, w, first);
    assert IsCalm(w.s, first, id) && Waits(w1, id, t) && w1.order == w.order + [Write(u, id, |w.order|)];
    WritesOver(p, w1, id, t);
    OverlapsAfter(p, w, first, id);
  }

  lemma WritesOver<V(!new)>(p: Program<V>, w: World<V>, id: ObjectID, t: ThreadId)
    requires Waits(w, id, t) && w.order != [] && w.order[|w.order| - 1].id == id && w.read[t].at < |w.order|
    ensures CanOverlap(p, w, id)
  {
    var a := Handle(t, Settle(Fulfilled));
    var w' := WorldAfter(p, w, a);
    assert IsCalm(w.s, a, id) && w'.order == w.order + [Write(t, id, w.read[t].at)];
    assert !NoOverlap(w'.order, id) by {
      var k, j := |w.order|, |w.order| - 1;
      assert w'.order[k].id == id && w'.order[k].since <= j < k && w'.order[j].id == id;
    }
    assert Feasible(w'.s, []) && WorldRun(p, w', []) == w';
    OverlapsAfter(p, w, a, id);
  }

  lemma {:induction false} ServesAndOvertakes<V(!new)>(p: Program<V>, w: World<V>, id: ObjectID, t: ThreadId, u: ThreadId,
                                                       r: ActorRef)
    requires Waits(w, id, t) && u != t && CanServe(w.s, id, u, r)
    ensures CanOverlap(p, w, id)
    decreases PcRank(w.s.dispatches[u].pc)
  {
    if IsInvoking(w.s, u) {
      Overtakes(p, w, id, t, u);
    } else {
      var a := ServeStep(w.s, u);
      ServeStepIsCalm(w.s, id, u, r);
      ServeStepServes(w.s, id, u, r);
      ServesAndOvertakes(p, WorldAfter(p, w, a), id, t, u, r);
      OverlapsAfter(p, w, a, id);
    }
  }

  /** A new dispatch has looked in vain for an actor of `id`, and starts one. */
  lemma StartsAndOvertakes<V(!new)>(p: Program<V>, w: World<V>, id: ObjectID, t: ThreadId, u: ThreadId)
    requires Waits(w, id, t) && u != t && w.s.mu.None? && id !in w.s.actors
    requires At(w.s, u) && w.s.dispatches[u].id == id && w.s.dispatches[u].pc.Starting? && w.s.dispatches[u].child.None?
    ensures CanOverlap(p, w, id)
  {
    var r := FreshNat(w.s.heap.Keys);
    var w1 := WorldAfter(p, w, Obtain(u, FinishStart(r)));
    var w2 := WorldAfter(p, w1, Obtain(u, Publish));
    assert IsCalm(w.s, Obtain(u, FinishStart(r)), id);
    assert IsCalm(w1.s, Obtain(u, Publish), id);
    ServesAndOvertakes(p, w2, id, t, u, r);
    OverlapsAfter(p, w1, Obtain(u, Publish), id);
    OverlapsAfter(p, w, Obtain(u, FinishStart(r)), id);
  }

  /** With the manager's lock free, a new dispatch comes to an actor, the one that is there or a new one. */
  lemma NewcomerOvertakes<V(!new)>(p: Program<V>, w: World<V>, id: ObjectID, t: ThreadId)
    requires Sane(w.s, id) && Waits(w, id, t) && w.s.mu.None?
    requires if id in w.s.actors then IsOpen(w.s, w.s.actors[id]) else id !in w.s.starts
    ensures CanOverlap(p, w, id)
  {
    var u := FreshNat(w.s.dispatches.Keys + w.s.sweeps.Keys);
    var a := Obtain(u, Arrive(id));
    var w1 := WorldAfter(p, w, a);
    assert IsCalm(w.s, a, id);
    assert w1.s.dispatches[u] == NewDispatch(w.s.manifest, id);
    LookUpOvertakes(p, w1, id, t, u);
    OverlapsAfter(p, w, a, id);
  }

  lemma LookUpOvertakes<V(!new)>(p: Program<V>, w: World<V>, id: ObjectID, t: ThreadId, u: ThreadId)
    requires Waits(w, id, t) && w.s.mu.None? && u != t
    requires At(w.s, u) && w.s.dispatches[u].id == id && w.s.dispatches[u].pc.Lookup? && w.s.dispatches[u].child.None?
    requires if id in w.s.actors then IsOpen(w.s, w.s.actors[id]) else id !in w.s.starts
    ensures CanOverlap(p, w, id)
  {
    var c := FreshNat(w.s.calls.Keys);
    var a := Obtain(u, LookUp(c));
    assert IsCalm(w.s, a, id);
    if id in w.s.actors {
      ServesAndOvertakes(p, WorldAfter(p, w, a), id, t, u, w.s.actors[id]);
    } else {
      StartsAndOvertakes(p, WorldAfter(p, w, a), id, t, u);
    }
    OverlapsAfter(p, w, a, id);
  }

  // ---------- after a dispatch has walked away ----------

  ghost predicate NobodyServes(s: State, r: ActorRef) { forall t :: HandlerActor(s, t) != Some(r) }

  /** The scan for idle actors ends, and takes out nobody under whom a handler may run. */
  lemma ScanEndsCalmly(s: State, id: ObjectID)
    requires Inv(s) && s.mu.Some? && id in s.actors && NobodyServes(s, s.actors[id])
    ensures Enabled(s, Evict(s.mu.value, RemoveIdle)) && IsCalm(s, Evict(s.mu.value, RemoveIdle), id)
    ensures var s' := Apply(s, Evict(s.mu.value, RemoveIdle));
            && s'.mu.None? && s'.dispatches == s.dispatches && s'.starts == s.starts
            && (id in s'.actors ==> s'.actors[id] == s.actors[id])
            && forall r | r in s.heap :: r in s'.heap && s'.heap[r].gate == s.heap[r].gate && s'.heap[r].poisoned == s.heap[r].poisoned
  {
    assert SweepOk(s, s.mu.value);
  }

  /** The gate has been given up without poisoning: whoever has the actor, or comes for it, runs before the handler ends. */
  lemma ReleasedOverlaps<V(!new)>(p: Program<V>, w: World<V>, id: ObjectID, t: ThreadId)
    requires Sane(w.s, id) && Waits(w, id, t) && HandlerActor(w.s, t).None?
    requires id in w.s.actors && IsOpen(w.s, w.s.actors[id])
    ensures CanOverlap(p, w, id)
  {
    var r := w.s.actors[id];
    assert IdOk(w.s, id);
    if u :| HandlerActor(w.s, u) == Some(r) {
      assert VisitorOk(w.s, u) && NestingOk(Differ, w.s, u);
      HandlerActorsAreOwn(w.s, u);
      ServesAndOvertakes(p, w, id, t, u, r);
    } else if w.s.mu.Some? {
      var a := Evict(w.s.mu.value, RemoveIdle);
      ScanEndsCalmly(w.s, id);
      StepKeepsSane(w.s, a, id);
      NewcomerOvertakes(p, WorldAfter(p, w, a), id, t);
      OverlapsAfter(p, w, a, id);
    } else {
      NewcomerOvertakes(p, w, id, t);
    }
  }

  lemma Releases(s: State, id: ObjectID, v: ThreadId)
    requires HasActorHere(s, v) && s.dispatches[v].pc.Inside? && s.dispatches[v].pc.phase.Releasing?
    ensures var a := Pass(v, Release);
            && Enabled(s, a) && IsCalm(s, a, id) && MovesOnly(s, Apply(s, a), v) && Apply(s, a).calls == s.calls
            && var r := s.dispatches[v].pc.actor; Apply(s, a).heap == s.heap[r := s.heap[r].(gate := None)]
  {
  }

  lemma LeavingOverlaps<V(!new)>(p: Program<V>, w: World<V>, id: ObjectID, t: ThreadId)
    requires Sane(w.s, id) && Waits(w, id, t) && id in w.s.actors && IsSound(w.s, w.s.actors[id])
    requires w.s.dispatches[t].pc.Inside? && w.s.dispatches[t].pc.actor == w.s.actors[id]
    requires w.s.dispatches[t].pc.phase.Releasing?
    ensures CanOverlap(p, w, id)
  {
    var a := Pass(t, Release);
    assert IdOk(w.s, id);
    Releases(w.s, id, t);
    StepKeepsSane(w.s, a, id);
    ReleasedOverlaps(p, WorldAfter(p, w, a), id, t);
    OverlapsAfter(p, w, a, id);
  }

  lemma PoisonedServeNobody(s: State, t: ThreadId, r: ActorRef)
    requires Inv(s) && r in s.heap && s.heap[r].poisoned && At(s, t) && s.dispatches[t].pc == Inside(r, PoisonedPresent)
    ensures NobodyServes(s, r)
  {
    forall u ensures HandlerActor(s, u) != Some(r) {
      assert VisitorOk(s, u) && VisitorOk(s, t);
    }
  }

  /** The actor is poisoned and taken out, and the next dispatch starts another one before the handler ends. */
  lemma PoisonedOverlaps<V(!new)>(p: Program<V>, w: World<V>, id: ObjectID, t: ThreadId, r: ActorRef)
    requires Sane(w.s, id) && Waits(w, id, t) && id !in w.s.starts && (id in w.s.actors ==> w.s.actors[id] == r)
    requires w.s.dispatches[t].pc == Inside(r, PoisonedPresent) && w.s.mu.None?
    ensures CanOverlap(p, w, id)
  {
    var a := Abandon(t, RemoveOwn);
    assert VisitorOk(w.s, t);
    PoisonedServeNobody(w.s, t, r);
    assert IsCalm(w.s, a, id);
    StepKeepsSane(w.s, a, id);
    NewcomerOvertakes(p, WorldAfter(p, w, a), id, t);
    OverlapsAfter(p, w, a, id);
  }

  lemma PoisoningOverlaps<V(!new)>(p: Program<V>, w: World<V>, id: ObjectID, t: ThreadId)
    requires Sane(w.s, id) && Waits(w, id, t) && id in w.s.actors && IsSound(w.s, w.s.actors[id])
    requires w.s.dispatches[t].pc == Inside(w.s.actors[id], Poisoning)
    ensures CanOverlap(p, w, id)
  {
    var r, a := w.s.actors[id], Abandon(t, SetPoison);
    assert IdOk(w.s, id);
    assert IsCalm(w.s, a, id);
    var w1 := WorldAfter(p, w, a);
    StepKeepsSane(w.s, a, id);
    if w1.s.mu.Some? {
      var b := Evict(w1.s.mu.value, RemoveIdle);
      PoisonedServeNobody(w1.s, t, r);
      ScanEndsCalmly(w1.s, id);
      StepKeepsSane(w1.s, b, id);
      PoisonedOverlaps(p, WorldAfter(p, w1, b), id, t, r);
      OverlapsAfter(p, w1, b, id);
    } else {
      PoisonedOverlaps(p, w1, id, t, r);
    }
    OverlapsAfter(p, w, a, id);
  }

  lemma WalkingAwayOverlaps<V(!new)>(p: Program<V>, w: World<V>, a: Action, id: ObjectID)
    requires SerialOk(w, id) && StoreOk(p, w) && Sane(w.s, id)
    requires Enabled(w.s, a) && WalksAway(w.s, a, id)
    ensures CanOverlap(p, WorldAfter(p, w, a), id)
  {
    var t, w1 := a.t, WorldAfter(p, w, a);
    assert CoveredAt(w.s, id, t) && PendingOk(w, id, t) && ReadOk(p, w, t);
    HandlerActorsAreOwn(w.s, t);
    var r := HandlerActor(w.s, t).value;
    assert ActorOk(w.s, r) && VisitorOk(w.s, t);
    StepKeepsSane(w.s, a, id);
    if a.Abandon? {
      PoisoningOverlaps(p, w1, id, t);
    } else {
      LeavingOverlaps(p, w1, id, t);
    }
  }

  // ---------- after an actor has been taken out under a dispatch ----------

  /** The handler runs, or has read and is waited for. */
  predicate IsRunning<V>(w: World<V>, id: ObjectID, t: ThreadId) {
    && At(w.s, t) && w.s.dispatches[t].id == id
    && (|| IsInvoking(w.s, t)
        || (&& Awaits(w.s.dispatches[t]) && w.s.dispatches[t].promise.Pending?
            && t in w.read && w.read[t].at <= |w.order|))
  }

  /** A step with which dispatch `c` goes on, or gives up where it would have to wait for others. */
  lemma GivesUp(s: State, c: ThreadId) returns (a: Action)
    requires Inv(s) && s.mu.None? && Unfinished(s, c)
    ensures Enabled(s, a) && IsWork(a) && a.t == c && Apply(s, a) != s
    ensures !(a.Handle? && (a.handle.FinishHandler? || a.handle.Settle?))
  {
    assert VisitorOk(s, c);
    if s.dispatches[c].pc.Inside? {
      a := GiveUpInside(c, s.dispatches[c].pc.phase);
      CanGiveUpInside(s, c);
      GivesUpInside(s, c);
    } else {
      a := GivesUpOutside(s, c);
    }
  }

  lemma GivesUpOutside(s: State, c: ThreadId) returns (a: Action)
    requires s.mu.None? && Unfinished(s, c) && !s.dispatches[c].pc.Inside?
    requires HasActor(s.dispatches[c].pc) ==> s.dispatches[c].pc.actor in s.heap
    ensures Enabled(s, a) && IsWork(a) && a.t == c && !a.Handle? && Apply(s, a) != s
  {
    var d := s.dispatches[c];
    match d.pc
    case Lookup => var call := FreshNat(s.calls.Keys); a := Obtain(c, LookUp(call));
    case WaitingForStart(_) => a := Obtain(c, CancelWait);
    case Starting(_) => a := Obtain(c, FailStart(Context));
    case StartReturned(_, _) => a := Obtain(c, Publish);
    case Entering(_) => a := Pass(c, Enter);
    case AtGate(_) => a := Pass(c, CancelAcquire);
    case Leaving(_, _) => a := Pass(c, Leave);
    assert Apply(s, a).dispatches[c].pc != d.pc;
  }

  function GiveUpInside(c: ThreadId, phase: Phase): Action {
    match phase
    case Holding => Pass(c, CheckPoison)
    case Invoking => Handle(c, CancelHandler)
    case Detecting => Handle(c, FailDetect(Context))
    case Polling => Handle(c, FailRead(Other(0)))
    case Poisoning => Abandon(c, SetPoison)
    case PoisonedPresent => Abandon(c, RemoveOwn)
    case EvictingOwn(_) => Abandon(c, ReportOwn)
    case Converting => Handle(c, Convert(Success))
    case Releasing(_) => Pass(c, Release)
  }

  lemma CanGiveUpInside(s: State, c: ThreadId)
    requires s.mu.None? && HasActorHere(s, c) && s.dispatches[c].pc.Inside?
    ensures var a := GiveUpInside(c, s.dispatches[c].pc.phase); Enabled(s, a) && IsWork(a) && a.t == c
  {
  }

  lemma GivesUpInside(s: State, c: ThreadId)
    requires s.mu.None? && HasActorHere(s, c) && s.dispatches[c].pc.Inside?
    requires Enabled(s, GiveUpInside(c, s.dispatches[c].pc.phase))
    ensures var s' := Apply(s, GiveUpInside(c, s.dispatches[c].pc.phase));
            At(s', c) && s'.dispatches[c].pc != s.dispatches[c].pc
  {
    match GiveUpInside(c, s.dispatches[c].pc.phase)
    case Handle(_, step) => assert AfterHandle(s, c, step).dispatches[c] == HandledDispatch(s.dispatches[c], step);
    case Abandon(_, step) =>
    case Pass(_, step) =>
  }

  /** What a dispatch of another identity does leaves this one vacant. */
  lemma StaysVacant(s: State, a: Action, id: ObjectID)
    requires Enabled(s, a) && IsWork(a) && At(s, a.t) && s.dispatches[a.t].id != id && IsVacant(s, id)
    ensures IsVacant(Apply(s, a), id) && IsCalm(s, a, id)
  {
  }

  function ChildRank(s: State, t: ThreadId): nat
    requires At(s, t)
  {
    var child := s.dispatches[t].child;
    if child.None? then 0 else if At(s, child.value) then 1 + Rank(s.dispatches[child.value]) else 1
  }

  /** The nested call, if there is one, gives up; the handler reads, another actor is started, and overtakes it. */
  lemma {:induction false} RunningOverlaps<V(!new)>(p: Program<V>, w: World<V>, id: ObjectID, t: ThreadId)
    requires Sane(w.s, id) && IsVacant(w.s, id) && IsRunning(w, id, t)
    ensures CanOverlap(p, w, id)
    decreases ChildRank(w.s, t)
  {
    var d := w.s.dispatches[t];
    if d.child.Some? {
      var a := ChildGoesOn(p, w, id, t);
      StepKeepsSane(w.s, a, id);
      RunningOverlaps(p, WorldAfter(p, w, a), id, t);
      OverlapsAfter(p, w, a, id);
    } else if IsInvoking(w.s, t) {
      var a := Handle(t, FinishHandler(Pending));
      assert IsCalm(w.s, a, id);
      StepKeepsSane(w.s, a, id);
      NewcomerOvertakes(p, WorldAfter(p, w, a), id, t);
      OverlapsAfter(p, w, a, id);
    } else {
      NewcomerOvertakes(p, w, id, t);
    }
  }

  lemma ChildGoesOn<V(!new)>(p: Program<V>, w: World<V>, id: ObjectID, t: ThreadId) returns (a: Action)
    requires Sane(w.s, id) && IsVacant(w.s, id) && IsRunning(w, id, t) && w.s.dispatches[t].child.Some?
    ensures IsCalm(w.s, a, id)
    ensures var w' := WorldAfter(p, w, a);
            w'.s == Apply(w.s, a) && IsVacant(w'.s, id) && IsRunning(w', id, t) && ChildRank(w'.s, t) < ChildRank(w.s, t)
  {
    var c := w.s.dispatches[t].child.value;
    assert NestingOk(Differ, w.s, t);
    if Unfinished(w.s, c) {
      a := GivesUp(w.s, c);
      StaysVacant(w.s, a, id);
      WorkLowersRank(w.s, a);
      WorkTouchesOne(w.s, a);
    } else {
      a := Handle(t, ReturnStub);
    }
    OrderGrows(p, w, a);
  }

  lemma {:induction false} ServerOverlaps<V(!new)>(p: Program<V>, w: World<V>, id: ObjectID, t: ThreadId, r: ActorRef)
    requires Sane(w.s, id) && IsVacant(w.s, id) && CanServe(w.s, id, t, r)
    ensures CanOverlap(p, w, id)
    decreases PcRank(w.s.dispatches[t].pc)
  {
    if IsInvoking(w.s, t) {
      RunningOverlaps(p, w, id, t);
    } else {
      var a := ServeStep(w.s, t);
      ServeStepIsCalm(w.s, id, t, r);
      ServeStepServes(w.s, id, t, r);
      StepKeepsSane(w.s, a, id);
      ServerOverlaps(p, WorldAfter(p, w, a), id, t, r);
      OverlapsAfter(p, w, a, id);
    }
  }

  /** Whoever is inside is done with its handler, and is not about to poison the actor. */
  predicate IsWindingDown(d: Dispatch) {
    && d.pc.Inside?
    && (|| d.pc.phase.Converting? || d.pc.phase.Releasing?
        || (Awaits(d) && !d.promise.Pending?))
  }

  /** The dispatch has been handed `r`, and somebody else is inside. */
  predicate IsHanded(s: State, id: ObjectID, t: ThreadId, r: ActorRef) {
    && At(s, t) && s.dispatches[t].id == id && s.dispatches[t].child.None?
    && match s.dispatches[t].pc
       case WaitingForStart(c) => c in s.calls && s.calls[c].Resolved? && s.calls[c].result == Got(r)
       case Entering(mine) => mine == r
       case AtGate(mine) => mine == r
       case _ => false
  }

  lemma Unwinds(s: State, id: ObjectID, v: ThreadId)
    requires HasActorHere(s, v) && IsWindingDown(s.dispatches[v]) && !s.dispatches[v].pc.phase.Releasing?
    ensures var a := GiveUpInside(v, s.dispatches[v].pc.phase);
            && a.Handle? && Enabled(s, a) && IsCalm(s, a, id) && MovesOnly(s, Apply(s, a), v)
            && Apply(s, a).calls == s.calls && Apply(s, a).heap == s.heap
            && var pc' := Apply(s, a).dispatches[v].pc;
               pc'.Inside? && pc'.actor == s.dispatches[v].pc.actor && pc'.phase.Releasing?
  {
  }

  lemma ReleasedServes<V(!new)>(p: Program<V>, w: World<V>, id: ObjectID, t: ThreadId, r: ActorRef, v: ThreadId)
    requires Sane(w.s, id) && IsVacant(w.s, id) && IsHanded(w.s, id, t, r) && IsSound(w.s, r)
    requires At(w.s, v) && w.s.dispatches[v].pc.Inside? && w.s.dispatches[v].pc.actor == r
    requires w.s.dispatches[v].pc.phase.Releasing?
    ensures CanOverlap(p, w, id)
  {
    var a := Pass(v, Release);
    Releases(w.s, id, v);
    StepKeepsSane(w.s, a, id);
    ServerOverlaps(p, WorldAfter(p, w, a), id, t, r);
    OverlapsAfter(p, w, a, id);
  }

  lemma GateOpens<V(!new)>(p: Program<V>, w: World<V>, id: ObjectID, t: ThreadId, r: ActorRef, v: ThreadId)
    requires Sane(w.s, id) && IsVacant(w.s, id) && IsHanded(w.s, id, t, r) && IsSound(w.s, r)
    requires At(w.s, v) && IsWindingDown(w.s.dispatches[v]) && w.s.dispatches[v].pc.actor == r
    ensures CanOverlap(p, w, id)
  {
    if w.s.dispatches[v].pc.phase.Releasing? {
      ReleasedServes(p, w, id, t, r, v);
    } else {
      var a := GiveUpInside(v, w.s.dispatches[v].pc.phase);
      Unwinds(w.s, id, v);
      StepKeepsSane(w.s, a, id);
      OrderGrows(p, w, a);
      ReleasedServes(p, WorldAfter(p, w, a), id, t, r, v);
      OverlapsAfter(p, w, a, id);
    }
  }

  /** Where the dispatch is that holds the gate of an actor which is not doomed. */
  lemma HandedOverlaps<V(!new)>(p: Program<V>, w: World<V>, id: ObjectID, t: ThreadId, r: ActorRef)
    requires Sane(w.s, id) && IsVacant(w.s, id) && IsHanded(w.s, id, t, r) && r in w.s.heap && w.s.heap[r].id == id
    requires !IsDoomed(w.s, r)
    requires forall v | IsPending(w.s, id, v) :: v in w.read && w.read[v].at <= |w.order|
    ensures CanOverlap(p, w, id)
  {
    assert ActorOk(w.s, r);
    if w.s.heap[r].gate.None? {
      ServerOverlaps(p, w, id, t, r);
    } else {
      var v := w.s.heap[r].gate.value;
      assert VisitorOk(w.s, v) && NestingOk(Differ, w.s, v);
      if IsWindingDown(w.s.dispatches[v]) {
        GateOpens(p, w, id, t, r, v);
      } else if w.s.dispatches[v].pc.phase.Holding? {
        ServerOverlaps(p, w, id, v, r);
      } else {
        RunningOverlaps(p, w, id, v);
      }
    }
  }

  /** An actor that somebody has who may run a handler on it is taken out by a sweep, not by a dispatch that poisoned it. */
  lemma EvictorsAreSweeps(s: State, a: Action, id: ObjectID, t: ThreadId)
    requires Enabled(s, a) && Inv(s) && id in s.actors && id !in Apply(s, a).actors && HandlerActor(s, t) == Some(s.actors[id])
    ensures a.Evict? && Apply(s, a).mu.None? && Apply(s, a).dispatches == s.dispatches && Apply(s, a).starts == s.starts
    ensures Apply(s, a).calls == s.calls
    ensures var r, heap' := s.actors[id], Apply(s, a).heap;
            r in s.heap && r in heap' && heap'[r] == s.heap[r].(stage := heap'[r].stage)
  {
    assert VisitorOk(s, a.t) && VisitorOk(s, t) && IdOk(s, id) && SweepOk(s, a.t);
  }

  lemma EvictionOverlaps<V(!new)>(p: Program<V>, w: World<V>, a: Action, id: ObjectID)
    requires SerialOk(w, id) && StoreOk(p, w) && Sane(w.s, id)
    requires Enabled(w.s, a) && Evicts(w.s, a, id)
    ensures CanOverlap(p, WorldAfter(p, w, a), id)
  {
    var r, w1 := w.s.actors[id], WorldAfter(p, w, a);
    var t :| HandlerActor(w.s, t) == Some(r);
    HandlerActorsAreOwn(w.s, t);
    EvictorsAreSweeps(w.s, a, id, t);
    StepKeepsSane(w.s, a, id);
    assert IdOk(w.s, id) && NestingOk(Differ, w.s, t) && VisitorOk(w.s, t);
    forall v | IsPending(w1.s, id, v) ensures v in w1.read && w1.read[v].at <= |w1.order| {
      assert PendingOk(w, id, v) && ReadOk(p, w, v);
    }
    if !w.s.dispatches[t].pc.Inside? {
      HandedOverlaps(p, w1, id, t, r);
    } else if w.s.dispatches[t].pc.phase.Holding? {
      ServerOverlaps(p, w1, id, t, r);
    } else {
      RunningOverlaps(p, w1, id, t);
    }
  }

  // ---------- exactly the steps that let handlers overlap ----------

  lemma CalmStepsStaySerial<V(!new)>(p: Program<V>, w: World<V>, a: Action, id: ObjectID)
    requires SerialOk(w, id) && StoreOk(p, w) && IsCalm(w.s, a, id)
    ensures !CanOverlap(p, WorldAfter(p, w, a), id)
  {
    var w1 := WorldAfter(p, w, a);
    StepKeepsStore(p, w, a);
    StepKeepsSerial(p, w, a, id);
    forall more | Feasible(w1.s, more) && NobodyEvicts(w1.s, more, id) && NobodyWalksAway(w1.s, more, id)
      ensures NoOverlap(WorldRun(p, w1, more).order, id)
    {
      RunKeepsSerial(p, w1, more, id);
    }
  }

  lemma OverlapsIffDisturbing<V(!new)>(p: Program<V>, w: World<V>, a: Action, id: ObjectID)
    requires SerialOk(w, id) && StoreOk(p, w) && Enabled(w.s, a) && (Disturbs(w.s, a, id) ==> Sane(w.s, id))
    ensures Disturbs(w.s, a, id) <==> CanOverlap(p, WorldAfter(p, w, a), id)
  {
    if Evicts(w.s, a, id) {
      EvictionOverlaps(p, w, a, id);
    } else if WalksAway(w.s, a, id) {
      WalkingAwayOverlaps(p, w, a, id);
    } else {
      CalmStepsStaySerial(p, w, a, id);
    }
  }

  lemma CalmRunsAreSerial<V(!new)>(p: Program<V>, manifest: Manifests.Manifest, run: seq<Action>, id: ObjectID)
    requires Feasible(Init(manifest), run)
    requires NobodyEvicts(Init(manifest), run, id) && NobodyWalksAway(Init(manifest), run, id)
    ensures var w := WorldRun(p, Beginning(manifest), run);
            w.s == Run(Init(manifest), run) && SerialOk(w, id) && StoreOk(p, w)
  {
    RunKeepsSerial(p, Beginning(manifest), run, id);
    RunKeepsStore(p, Beginning(manifest), run);
    WorldRunIsRun(p, Beginning(manifest), run);
  }

  /**
   * The conditions of serialised handlers are exact, step by step. After any run that meets them, the next step breaks one
   * if and only if from then on, without another such step, a write can fall between the read and the write of another
   * handler of the object.
   */
  lemma OverlapsIffDisturbed<V(!new)>(p: Program<V>, manifest: Manifests.Manifest, run: seq<Action>, a: Action, id: ObjectID)
    requires Feasible(Init(manifest), run)
    requires NobodyEvicts(Init(manifest), run, id) && NobodyWalksAway(Init(manifest), run, id)
    requires Enabled(WorldRun(p, Beginning(manifest), run).s, a)
    ensures var w := WorldRun(p, Beginning(manifest), run);
            Disturbs(w.s, a, id) <==> CanOverlap(p, WorldAfter(p, w, a), id)
  {
    var w := WorldRun(p, Beginning(manifest), run);
    CalmRunsAreSerial(p, manifest, run, id);
    if Disturbs(w.s, a, id) {
      SaneIfDisturbed(manifest, run, a, id);
    }
    OverlapsIffDisturbing(p, w, a, id);
  }

  lemma {:induction false} CallsDiffer(s: State, run: seq<Action>)
    requires Feasible(s, run)
    ensures CallsGoUp(Differ, s, run)
    decreases |run|
  {
    if run != [] {
      CallsDiffer(Apply(s, run[0]), run[1..]);
    }
  }

  /** An identity of which there is an actor, or a dispatch that has not ended, is served. */
  lemma DisturbedIsServed(s: State, a: Action, id: ObjectID)
    requires Inv(s) && AdmissionOk(s) && Enabled(s, a) && Disturbs(s, a, id)
    ensures Refusal(s.manifest, id).None?
  {
    if Evicts(s, a, id) {
      assert IdOk(s, id) && AdmittedOk(s, s.actors[id]);
    } else {
      assert RefusedOk(s, a.t);
    }
  }

  lemma SaneIfDisturbed(manifest: Manifests.Manifest, run: seq<Action>, a: Action, id: ObjectID)
    requires Feasible(Init(manifest), run)
    requires var s := Run(Init(manifest), run); Enabled(s, a) && Disturbs(s, a, id)
    ensures Sane(Run(Init(manifest), run), id)
  {
    NestingIsSane(manifest, run);
    AdmissionIsSane(manifest, run);
    DisturbedIsServed(Run(Init(manifest), run), a, id);
  }

  lemma NestingIsSane(manifest: Manifests.Manifest, run: seq<Action>)
    requires Feasible(Init(manifest), run)
    ensures Inv(Run(Init(manifest), run)) && forall t :: NestingOk(Differ, Run(Init(manifest), run), t)
  {
    CallsDiffer(Init(manifest), run);
    RunKeepsNesting(Differ, Init(manifest), run);
  }

  lemma AdmissionIsSane(manifest: Manifests.Manifest, run: seq<Action>)
    requires Feasible(Init(manifest), run)
    ensures AdmissionOk(Run(Init(manifest), run))
  {
    RunKeepsAdmission(Init(manifest), run);
  }
}
