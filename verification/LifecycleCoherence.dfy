/**
 * What every step of the actor lifecycle keeps. A step that leaves the manager alone moves one dispatch, or one dispatch and
 * its actor; the others join a start, begin one, publish what it came to, or take actors out of the manager. For each of
 * these kinds of change the manager stays coherent, and so do the sweeps.
 */
module LifecycleCoherence {
  import opened Wrappers
  import opened Identity
  import opened Lifecycle
  import opened LifecycleInvariant

  // ---------- the kinds of change that steps make ----------

  ghost predicate SameManager(s: State, s': State) {
    s'.actors == s.actors && s'.starts == s.starts && s'.calls == s.calls
  }

  /** A dispatch changes neither its place nor its identity. */
  ghost predicate StaysPut(s: State, s': State, t: ThreadId, d': Dispatch) {
    && SameManager(s, s') && s'.heap == s.heap
    && At(s, t) && d'.pc == s.dispatches[t].pc && d'.id == s.dispatches[t].id
    && s'.dispatches == s.dispatches[t := d']
  }

  ghost predicate Joins(s: State, s': State, t: ThreadId, d': Dispatch) {
    && SameManager(s, s') && s'.heap == s.heap
    && !At(s, t) && (d'.pc.Lookup? || d'.pc.Done?)
    && s'.dispatches == s.dispatches[t := d']
  }

  /** What a dispatch may do to itself and to the actor it has. */
  predicate VisitMove(t: ThreadId, d: Dispatch, a: Actor, d': Dispatch, a': Actor)
    requires HasActor(d.pc)
  {
    && d'.id == d.id && a'.id == a.id
    && (HasActor(d'.pc) ==> d'.pc.actor == d.pc.actor && VisitOk(t, d', a'))
    && (HasActor(d'.pc) || d'.pc.Lookup? || d'.pc.Done?)
    && (a'.gate == if d'.pc.Inside? then Some(t) else if d.pc.Inside? then None else a.gate)
    && (d'.pc.Inside? && !d.pc.Inside? ==> a.gate.None?)
    && (a.poisoned ==> a'.poisoned)
    && (a'.stage == a.stage || (a.stage == Removed(ByDispatch(t)) && a'.stage.Evicted?))
    && (a.stage.Live? && a'.poisoned ==> a.poisoned || (d'.pc.Inside? && d'.pc.phase.PoisonedPresent?))
    && (a.stage.Live? && d.pc.Inside? && d.pc.phase.PoisonedPresent? ==> d'.pc == d.pc)
  }

  ghost predicate Moves(s: State, s': State, t: ThreadId, d': Dispatch, a': Actor) {
    && SameManager(s, s')
    && HasActorHere(s, t)
    && VisitMove(t, s.dispatches[t], s.heap[s.dispatches[t].pc.actor], d', a')
    && s'.heap == s.heap[s.dispatches[t].pc.actor := a']
    && s'.dispatches == s.dispatches[t := d']
  }

  /** The identities `ids` leave the manager, and their actors go to `stage`. */
  ghost predicate Removes(s: State, s': State, ids: set<ObjectID>, stage: Stage) {
    && s'.starts == s.starts && s'.calls == s.calls && s'.dispatches == s.dispatches
    && ids <= s.actors.Keys && IsGone(stage)
    && s'.actors == s.actors - ids
    && s'.heap == Restaged(s.heap, (set id | id in ids :: s.actors[id]), stage)
  }

  /** Something happens to an actor that is gone, but not to its gate. */
  ghost predicate Buries(s: State, s': State, r: ActorRef, a': Actor) {
    && SameManager(s, s') && s'.dispatches == s.dispatches
    && r in s.heap && IsGone(s.heap[r].stage)
    && a'.id == s.heap[r].id && a'.gate == s.heap[r].gate && IsGone(a'.stage) && (s.heap[r].poisoned ==> a'.poisoned)
    && (a'.stage == s.heap[r].stage || (s.heap[r].stage.Removed? && s.heap[r].stage.remover.BySweep?))
    && s'.heap == s.heap[r := a']
  }

  lemma StaysPutKeepsCoherence(s: State, s': State, t: ThreadId, d': Dispatch)
    requires Coherent(s) && StaysPut(s, s', t, d')
    ensures Coherent(s')
  {
    forall id ensures IdOk(s', id) { assert IdOk(s, id); }
    forall c ensures CallOk(s', c) { assert CallOk(s, c); }
    forall r ensures ActorOk(s', r) { assert ActorOk(s, r); }
    forall u ensures StarterOk(s', u) { assert StarterOk(s, u); }
    forall u ensures VisitorOk(s', u) { assert VisitorOk(s, u); }
  }

  lemma JoinsKeepsCoherence(s: State, s': State, t: ThreadId, d': Dispatch)
    requires Coherent(s) && Joins(s, s', t, d')
    ensures Coherent(s')
  {
    forall id ensures IdOk(s', id) { assert IdOk(s, id); }
    forall c ensures CallOk(s', c) { assert CallOk(s, c); }
    forall r ensures ActorOk(s', r) { assert ActorOk(s, r); }
    forall u ensures StarterOk(s', u) { assert StarterOk(s, u); }
    forall u ensures VisitorOk(s', u) { assert VisitorOk(s, u); }
  }

  lemma MovesKeepsCoherence(s: State, s': State, t: ThreadId, d': Dispatch, a': Actor)
    requires Coherent(s) && Moves(s, s', t, d', a')
    ensures Coherent(s')
  {
    assert VisitorOk(s, t);
    forall id ensures IdOk(s', id) { assert IdOk(s, id); }
    forall c ensures CallOk(s', c) { assert CallOk(s, c); }
    forall r ensures ActorOk(s', r) { assert ActorOk(s, r); }
    forall u ensures StarterOk(s', u) { assert StarterOk(s, u); }
    forall u ensures VisitorOk(s', u) { assert VisitorOk(s, u); }
  }

  /** What leaves the manager was live. */
  lemma RemovedWereLive(s: State, ids: set<ObjectID>)
    requires (forall id :: IdOk(s, id)) && ids <= s.actors.Keys
    ensures forall r | r in (set id | id in ids :: s.actors[id]) ::
              r in s.heap && s.heap[r].stage.Live? && s.heap[r].id in ids
  {
    forall id | id in ids ensures s.actors[id] in s.heap && s.heap[s.actors[id]].stage.Live? && s.heap[s.actors[id]].id == id {
      assert IdOk(s, id);
    }
  }

  lemma RemovesKeepsActors(s: State, s': State, ids: set<ObjectID>, stage: Stage, r: ActorRef)
    requires Coherent(s) && Removes(s, s', ids, stage)
    ensures ActorOk(s', r)
  {
    RemovedWereLive(s, ids);
    assert ActorOk(s, r);
  }

  lemma RemovesKeepsCoherence(s: State, s': State, ids: set<ObjectID>, stage: Stage)
    requires Coherent(s) && Removes(s, s', ids, stage)
    ensures Coherent(s')
  {
    RemovedWereLive(s, ids);
    forall id ensures IdOk(s', id) { assert IdOk(s, id); }
    forall c ensures CallOk(s', c) { assert CallOk(s, c); }
    forall r ensures ActorOk(s', r) { RemovesKeepsActors(s, s', ids, stage, r); }
    forall u ensures StarterOk(s', u) { assert StarterOk(s, u); }
    forall u ensures VisitorOk(s', u) { assert VisitorOk(s, u); }
  }

  lemma BuriesKeepsCoherence(s: State, s': State, r: ActorRef, a': Actor)
    requires Coherent(s) && Buries(s, s', r, a')
    ensures Coherent(s')
  {
    forall id ensures IdOk(s', id) { assert IdOk(s, id); }
    forall c ensures CallOk(s', c) { assert CallOk(s, c); }
    forall r ensures ActorOk(s', r) { assert ActorOk(s, r); }
    forall u ensures StarterOk(s', u) { assert StarterOk(s, u); }
    forall u ensures VisitorOk(s', u) { assert VisitorOk(s, u); }
  }

  // ---------- every step keeps the manager coherent ----------

  lemma HandleKeepsCoherence(s: State, t: ThreadId, step: HandleStep)
    requires CanHandle(s, t, step) && Coherent(s)
    ensures Coherent(AfterHandle(s, t, step))
  {
    var s' := AfterHandle(s, t, step);
    var d := s.dispatches[t];
    assert VisitorOk(s, t);
    if step.CallStub? {
      var mid := With(s, t, d.(child := Some(step.callee)));
      StaysPutKeepsCoherence(s, mid, t, d.(child := Some(step.callee)));
      JoinsKeepsCoherence(mid, s', step.callee, NewDispatch(s.manifest, step.target));
    } else if step.ReturnStub? || step.Settle? || s' == s {
      StaysPutKeepsCoherence(s, s', t, s'.dispatches[t]);
    } else {
      var r := d.pc.actor;
      assert s.heap == s.heap[r := s.heap[r]];
      MovesKeepsCoherence(s, s', t, s'.dispatches[t], s.heap[r]);
    }
  }

  lemma PassKeepsCoherence(s: State, t: ThreadId, step: GateStep)
    requires CanPass(s, t, step) && Coherent(s)
    ensures Coherent(AfterPass(s, t, step))
  {
    var s' := AfterPass(s, t, step);
    var r := s.dispatches[t].pc.actor;
    assert VisitorOk(s, t) && ActorOk(s, r);
    assert s.heap == s.heap[r := s.heap[r]];
    MovesKeepsCoherence(s, s', t, s'.dispatches[t], s'.heap[r]);
  }

  lemma AbandonKeepsCoherence(s: State, t: ThreadId, step: AbandonStep)
    requires CanAbandon(s, t, step) && Coherent(s)
    ensures Coherent(AfterAbandon(s, t, step))
  {
    var s' := AfterAbandon(s, t, step);
    var d := s.dispatches[t];
    var r := d.pc.actor;
    assert VisitorOk(s, t) && ActorOk(s, r) && IdOk(s, d.id);
    assert s.heap == s.heap[r := s.heap[r]];
    if step.RemoveOwn? && IsCurrent(s.actors, d.id, r) {
      var gone := s.heap[r].(stage := Removed(ByDispatch(t)));
      var mid := s.(actors := s.actors - {d.id}, heap := s.heap[r := gone]);
      assert (set id | id in {d.id} :: s.actors[id]) == {r};
      RemovesKeepsCoherence(s, mid, {d.id}, Removed(ByDispatch(t)));
      MovesKeepsCoherence(mid, s', t, s'.dispatches[t], gone);
    } else {
      MovesKeepsCoherence(s, s', t, s'.dispatches[t], s'.heap[r]);
    }
  }

  lemma SweepKeepsCoherence(s: State, t: ThreadId, step: SweepStep)
    requires CanSweep(s, t, step) && Coherent(s) && SweepsOk(s)
    ensures Coherent(AfterSweep(s, t, step))
  {
    var s' := AfterSweep(s, t, step);
    assert SweepOk(s, t);
    match step
    case RemoveRequested =>
      var id := s.sweeps[t].id;
      if id in s.actors {
        assert (set i | i in {id} :: s.actors[i]) == {s.actors[id]};
        RemovesKeepsCoherence(s, s', {id}, Removed(BySweep(t)));
      } else {
        SameCoreIsCoherent(s, s');
      }
    case RemoveIdle =>
      var ids := s.sweeps[t].candidates;
      assert (set r | r in Refs(s.actors, ids)) == (set id | id in (set i | i in ids) :: s.actors[id]);
      RemovesKeepsCoherence(s, s', (set id | id in ids), Removed(BySweep(t)));
    case CloseAll(order) =>
      assert s.actors.Values == (set id | id in s.actors.Keys :: s.actors[id]);
      RemovesKeepsCoherence(s, s', s.actors.Keys, ClosedOut);
    case SweepPoison => BuriesKeepsCoherence(s, s', s.sweeps[t].todo[0], s'.heap[s.sweeps[t].todo[0]]);
    case SweepReport =>
      var r := s.sweeps[t].todo[0];
      assert s.heap == s.heap[r := s.heap[r]];
      BuriesKeepsCoherence(s, s', r, s'.heap[r]);
    case _ => SameCoreIsCoherent(s, s');
  }

  lemma SameCoreIsCoherent(s: State, s': State)
    requires SameManager(s, s') && s'.heap == s.heap && s'.dispatches == s.dispatches && Coherent(s)
    ensures Coherent(s')
  {
    RemovesKeepsCoherence(s, s', {}, Evicted);
  }

  // ---------- steps that obtain an actor ----------

  /** A dispatch that looks up or waits is told where to go; nothing else changes. */
  ghost predicate IsDirected(s: State, s': State, t: ThreadId, pc: Pc) {
    && At(s, t) && (s.dispatches[t].pc.Lookup? || s.dispatches[t].pc.WaitingForStart?)
    && s' == Goto(s, t, pc)
    && match pc
       case Entering(r) => r in s.heap && s.heap[r].id == s.dispatches[t].id && !s.heap[r].stage.Unpublished?
       case WaitingForStart(c) => c in s.calls && s.calls[c].id == s.dispatches[t].id
       case _ => pc.Done?
  }

  lemma IsDirectedKeepsCoherence(s: State, s': State, t: ThreadId, pc: Pc)
    requires Coherent(s) && IsDirected(s, s', t, pc)
    ensures Coherent(s')
  {
    forall id ensures IdOk(s', id) { assert IdOk(s, id); }
    forall c ensures CallOk(s', c) { assert CallOk(s, c); }
    forall r ensures ActorOk(s', r) { assert ActorOk(s, r); }
    forall u ensures StarterOk(s', u) { assert StarterOk(s, u); }
    forall u ensures VisitorOk(s', u) { assert VisitorOk(s, u); }
  }

  lemma BeginStartKeepsCoherence(s: State, t: ThreadId, c: CallRef)
    requires CanObtain(s, t, LookUp(c)) && Coherent(s) && Find(s.actors, s.starts, s.dispatches[t].id).Start?
    ensures Coherent(AfterObtain(s, t, LookUp(c)))
  {
    var s' := AfterObtain(s, t, LookUp(c));
    forall id ensures IdOk(s', id) { assert IdOk(s, id); }
    forall c ensures CallOk(s', c) { assert CallOk(s, c); }
    forall r ensures ActorOk(s', r) { assert ActorOk(s, r); }
    BeginStartKeepsDispatches(s, t, c);
  }

  lemma BeginStartKeepsDispatches(s: State, t: ThreadId, c: CallRef)
    requires CanObtain(s, t, LookUp(c)) && Coherent(s) && Find(s.actors, s.starts, s.dispatches[t].id).Start?
    ensures forall u :: StarterOk(AfterObtain(s, t, LookUp(c)), u)
    ensures forall u :: VisitorOk(AfterObtain(s, t, LookUp(c)), u)
  {
    var s' := AfterObtain(s, t, LookUp(c));
    forall u ensures StarterOk(s', u) { assert StarterOk(s, u); }
    forall u ensures VisitorOk(s', u) { assert VisitorOk(s, u); }
  }

  lemma EndStartKeepsCoherence(s: State, t: ThreadId, step: ObtainStep)
    requires CanObtain(s, t, step) && Coherent(s) && (step.FinishStart? || step.FailStart?)
    ensures Coherent(AfterObtain(s, t, step))
  {
    var s' := AfterObtain(s, t, step);
    assert StarterOk(s, t);
    forall id ensures IdOk(s', id) { assert IdOk(s, id); }
    forall c ensures CallOk(s', c) { assert CallOk(s, c); }
    forall r ensures ActorOk(s', r) { assert ActorOk(s, r); }
    forall u ensures StarterOk(s', u) { assert StarterOk(s, u); }
    forall u ensures VisitorOk(s', u) { assert VisitorOk(s, u); }
  }

  lemma PublishKeepsCoherence(s: State, t: ThreadId)
    requires CanObtain(s, t, Publish) && Coherent(s)
    ensures Coherent(AfterObtain(s, t, Publish))
  {
    var s' := AfterObtain(s, t, Publish);
    assert StarterOk(s, t) && IdOk(s, s.dispatches[t].id);
    forall id ensures IdOk(s', id) { assert IdOk(s, id); }
    forall c ensures CallOk(s', c) { assert CallOk(s, c); }
    forall r ensures ActorOk(s', r) { assert ActorOk(s, r); }
    forall u ensures StarterOk(s', u) { assert StarterOk(s, u); }
    forall u ensures VisitorOk(s', u) { assert VisitorOk(s, u); }
  }

  lemma ObtainKeepsCoherence(s: State, t: ThreadId, step: ObtainStep)
    requires CanObtain(s, t, step) && Coherent(s)
    ensures Coherent(AfterObtain(s, t, step))
  {
    var s' := AfterObtain(s, t, step);
    if !step.Arrive? {
      assert StarterOk(s, t) && IdOk(s, s.dispatches[t].id);
    }
    match step
    case Arrive(id) => JoinsKeepsCoherence(s, s', t, NewDispatch(s.manifest, id));
    case LookUp(c) =>
      match Find(s.actors, s.starts, s.dispatches[t].id) {
        case Start => BeginStartKeepsCoherence(s, t, c);
        case _ => IsDirectedKeepsCoherence(s, s', t, s'.dispatches[t].pc);
      }
    case Wake =>
      assert CallOk(s, s.dispatches[t].pc.call);
      IsDirectedKeepsCoherence(s, s', t, s'.dispatches[t].pc);
    case CancelWait => IsDirectedKeepsCoherence(s, s', t, s'.dispatches[t].pc);
    case Publish => PublishKeepsCoherence(s, t);
    case _ => EndStartKeepsCoherence(s, t, step);
  }

  // ---------- every step keeps the sweeps in order ----------

  /** A dispatch leaves alone what a sweep has taken out of the manager. */
  ghost predicate LeavesSweptAlone(s: State, s': State) {
    && s'.sweeps == s.sweeps && s'.mu == s.mu
    && (s.mu.Some? ==> s'.actors == s.actors)
    && (forall r | r in s.heap && (s.heap[r].stage.ClosedOut? || (s.heap[r].stage.Removed? && s.heap[r].stage.remover.BySweep?)) ::
          r in s'.heap && s'.heap[r].stage == s.heap[r].stage)
  }

  lemma DispatchKeepsSweeps(s: State, s': State)
    requires SweepsOk(s) && LeavesSweptAlone(s, s')
    ensures SweepsOk(s')
  {
    forall t ensures SweepOk(s', t) { assert SweepOk(s, t); }
  }

  lemma ObtainLeavesSweptAlone(s: State, t: ThreadId, step: ObtainStep)
    requires CanObtain(s, t, step) && Coherent(s)
    ensures LeavesSweptAlone(s, AfterObtain(s, t, step))
  {
    assert StarterOk(s, t);
  }

  lemma AbandonLeavesSweptAlone(s: State, t: ThreadId, step: AbandonStep)
    requires CanAbandon(s, t, step) && Coherent(s)
    ensures LeavesSweptAlone(s, AfterAbandon(s, t, step))
  {
    assert VisitorOk(s, t) && IdOk(s, s.dispatches[t].id);
  }

  lemma RemoveIdleKeepsSweeps(s: State, t: ThreadId)
    requires CanSweep(s, t, RemoveIdle) && Coherent(s) && SweepsOk(s)
    ensures SweepsOk(AfterSweep(s, t, RemoveIdle))
  {
    var s' := AfterSweep(s, t, RemoveIdle);
    assert SweepOk(s, t);
    var ids, todo := s.sweeps[t].candidates, s'.sweeps[t].todo;
    forall i, j | 0 <= i < j < |todo| ensures todo[i] != todo[j] {
      assert ids[i] in s.actors && IdOk(s, ids[i]) && IdOk(s, ids[j]);
    }
    forall r | r in todo ensures r in s.heap {
      var i :| 0 <= i < |todo| && todo[i] == r;
      assert IdOk(s, ids[i]);
    }
    RemovedWereLive(s, s.actors.Keys);
    forall u ensures SweepOk(s', u) { assert SweepOk(s, u); }
  }

  lemma CloseAllKeepsSweeps(s: State, t: ThreadId, order: seq<ActorRef>)
    requires CanSweep(s, t, CloseAll(order)) && Coherent(s) && SweepsOk(s)
    ensures SweepsOk(AfterSweep(s, t, CloseAll(order)))
  {
    var s' := AfterSweep(s, t, CloseAll(order));
    RemovedWereLive(s, s.actors.Keys);
    forall r | r in order ensures r in s.actors.Values && r in s.heap {
      assert r in (set r | r in order);
    }
    forall u ensures SweepOk(s', u) { assert SweepOk(s, u); }
  }

  lemma MinorSweepKeepsSweeps(s: State, t: ThreadId, step: SweepStep)
    requires CanSweep(s, t, step) && SweepsOk(s)
    requires !step.RemoveIdle? && !step.CloseAll? && !step.RemoveRequested?
    ensures SweepsOk(AfterSweep(s, t, step))
  {
    var s' := AfterSweep(s, t, step);
    forall u ensures SweepOk(s', u) {
      if u == t && (step.SweepPoison? || step.SweepReport?) {
        assert SweepOk(s, t);
      } else {
        MinorSweepKeepsSweep(s, t, step, u);
      }
    }
  }

  lemma MinorSweepKeepsSweep(s: State, t: ThreadId, step: SweepStep, u: ThreadId)
    requires CanSweep(s, t, step) && SweepsOk(s)
    requires !step.RemoveIdle? && !step.CloseAll? && !step.RemoveRequested?
    requires u == t ==> !step.SweepPoison? && !step.SweepReport?
    ensures SweepOk(AfterSweep(s, t, step), u)
  {
    assert SweepOk(s, t) && SweepOk(s, u);
  }

  lemma SweepKeepsSweeps(s: State, t: ThreadId, step: SweepStep)
    requires CanSweep(s, t, step) && Coherent(s) && SweepsOk(s)
    ensures SweepsOk(AfterSweep(s, t, step))
  {
    var s' := AfterSweep(s, t, step);
    match step
    case RemoveIdle => RemoveIdleKeepsSweeps(s, t);
    case CloseAll(order) => CloseAllKeepsSweeps(s, t, order);
    case RemoveRequested =>
      assert IdOk(s, s.sweeps[t].id);
      forall u ensures SweepOk(s', u) { assert SweepOk(s, u); }
    case _ => MinorSweepKeepsSweeps(s, t, step);
  }
}
