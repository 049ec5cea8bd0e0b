/** What holds of the manager at any time: who is in it, who starts, who holds a gate, who is poisoned. */
module LifecycleInvariant {
  import opened Wrappers
  import opened Identity
  import opened Lifecycle

  ghost predicate IsStarterOf(s: State, t: ThreadId, id: ObjectID, c: CallRef) {
    At(s, t) && s.dispatches[t].id == id && IsStarter(s.dispatches[t].pc) && s.dispatches[t].pc.call == c
  }

  /** The start call of `id` is under way, and its starter is where it says. */
  ghost predicate StartUnderWay(s: State, id: ObjectID) {
    && id in s.starts && s.starts[id] in s.calls
    && s.calls[s.starts[id]].Running? && s.calls[s.starts[id]].id == id
    && IsStarterOf(s, s.calls[s.starts[id]].starter, id, s.starts[id])
  }

  /** The dispatch that starts `id`. */
  function Starter(s: State, id: ObjectID): ThreadId
    requires id in s.starts && s.starts[id] in s.calls && s.calls[s.starts[id]].Running?
  {
    s.calls[s.starts[id]].starter
  }

  /** What the manager maps an identity to is live; single flight: an identity being started is not in the manager. */
  ghost predicate IdOk(s: State, id: ObjectID) {
    && (id in s.actors ==> s.actors[id] in s.heap && s.heap[s.actors[id]].id == id && s.heap[s.actors[id]].stage.Live?)
    && (id in s.starts ==> id !in s.actors && StartUnderWay(s, id))
  }

  ghost predicate CallOk(s: State, c: CallRef) {
    c in s.calls ==>
      match s.calls[c]
      case Running(id, _) => id in s.starts && s.starts[id] == c
      case Resolved(id, Got(r)) => r in s.heap && s.heap[r].id == id && !s.heap[r].stage.Unpublished?
      case Resolved(id, NotStarted(_)) => true
  }

  /** The dispatch holds the gate of `r`. */
  ghost predicate IsHolder(s: State, t: ThreadId, r: ActorRef) {
    At(s, t) && s.dispatches[t].pc.Inside? && s.dispatches[t].pc.actor == r
  }

  /**
   * An unpublished actor waits for its starter; the gate belongs to a dispatch inside; and a poisoned actor that is
   * still in the manager is held by the dispatch that poisoned it and is about to remove it.
   */
  ghost predicate ActorOk(s: State, r: ActorRef) {
    r in s.heap ==>
      var a := s.heap[r];
      && (a.stage.Live? ==> IsCurrent(s.actors, a.id, r))
      && (a.stage.Unpublished? ==>
            && StartUnderWay(s, a.id)
            && s.dispatches[Starter(s, a.id)].pc == StartReturned(s.starts[a.id], Got(r))
            && !a.poisoned && a.gate.None?)
      && (a.gate.Some? ==> IsHolder(s, a.gate.value, r))
      && (a.stage.Live? && a.poisoned ==> a.gate.Some? && s.dispatches[a.gate.value].pc.phase.PoisonedPresent?)
  }

  /** A dispatch that waits for a start, or starts, does so for its own identity. */
  ghost predicate StarterOk(s: State, t: ThreadId) {
    At(s, t) ==>
      var d := s.dispatches[t];
      && (d.pc.WaitingForStart? ==> d.pc.call in s.calls && s.calls[d.pc.call].id == d.id)
      && (IsStarter(d.pc) ==> StartUnderWay(s, d.id) && s.starts[d.id] == d.pc.call && Starter(s, d.id) == t)
      && (d.pc.StartReturned? && d.pc.started.Got? ==>
            var r := d.pc.started.actor;
            r in s.heap && s.heap[r].stage.Unpublished? && s.heap[r].id == d.id)
  }

  /** The actor has been taken out of the manager. */
  predicate IsGone(stage: Stage) { stage.Removed? || stage.Evicted? || stage.ClosedOut? }

  /** A dispatch that has an actor has one of its own identity that was published, and holds its gate while inside. */
  ghost predicate VisitorOk(s: State, t: ThreadId) {
    At(s, t) && HasActor(s.dispatches[t].pc) ==>
      var d := s.dispatches[t];
      && d.pc.actor in s.heap
      && VisitOk(t, d, s.heap[d.pc.actor])
  }

  predicate VisitOk(t: ThreadId, d: Dispatch, a: Actor)
    requires HasActor(d.pc)
  {
    && a.id == d.id && !a.stage.Unpublished?
    && (d.pc.Inside? ==>
          && a.gate == Some(t)
          && (d.pc.phase.PoisonedPresent? ==> a.poisoned)
          && (d.pc.phase.EvictingOwn? ==>
                a.poisoned && IsGone(a.stage) && (d.pc.phase.removed ==> a.stage == Removed(ByDispatch(t)))))
  }

  ghost predicate Coherent(s: State) {
    && (forall id :: IdOk(s, id))
    && (forall c :: CallOk(s, c))
    && (forall r :: ActorOk(s, r))
    && (forall t :: StarterOk(s, t))
    && (forall t :: VisitorOk(s, t))
  }

  /** Publication always finds the manager without an actor of that identity: the other branch is never taken. */
  lemma NothingToDisplace(s: State, t: ThreadId)
    requires CanObtain(s, t, Publish) && Coherent(s)
    ensures s.dispatches[t].id !in s.actors
    ensures PublishedResult(s.actors, s.dispatches[t].id, s.dispatches[t].pc.started) == s.dispatches[t].pc.started
  {
    assert StarterOk(s, t) && IdOk(s, s.dispatches[t].id);
  }

  // ---------- sweeps ----------

  /**
   * A scan for idle actors holds the manager's lock, so its candidates stay what they were. The actors a sweep still
   * has to report are out of the manager on its account.
   */
  ghost predicate SweepOk(s: State, t: ThreadId) {
    t in s.sweeps ==>
      match s.sweeps[t]
      case EvictRequested(_) => true
      case IdleScan(candidates) =>
        && s.mu == Some(t)
        && (forall id | id in candidates :: id in s.actors)
        && (forall i, j | 0 <= i < j < |candidates| :: candidates[i] != candidates[j])
      case Sweeping(closing, todo, _) =>
        && (forall r | r in todo :: r in s.heap && s.heap[r].stage == if closing then ClosedOut else Removed(BySweep(t)))
        && (forall i, j | 0 <= i < j < |todo| :: todo[i] != todo[j])
  }

  ghost predicate SweepsOk(s: State) {
    && (s.mu.Some? ==> s.mu.value in s.sweeps && s.sweeps[s.mu.value].IdleScan?)
    && (forall t :: SweepOk(s, t))
  }
}
