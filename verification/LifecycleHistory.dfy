/**
 * What dispatches remember: the actors they found poisoned, the errors they met, and the handlers they invoked; and the
 * invariant of the whole machine.
 */
module LifecycleHistory {
  import opened Wrappers
  import opened Identity
  import opened Lifecycle
  import opened LifecycleInvariant
  import opened LifecycleCoherence
  import Manifests

  // ---------- what never goes back ----------

  /** Poisoned and out of the manager. */
  ghost predicate IsRetired(s: State, r: ActorRef) {
    r in s.heap && s.heap[r].poisoned && IsGone(s.heap[r].stage)
  }

  ghost predicate ActorForward(s: State, s': State, r: ActorRef) {
    r in s.heap ==>
      && r in s'.heap && s'.heap[r].id == s.heap[r].id
      && (s.heap[r].poisoned ==> s'.heap[r].poisoned)
      && (IsGone(s.heap[r].stage) ==> IsGone(s'.heap[r].stage))
      && (!s.heap[r].stage.Unpublished? ==> !s'.heap[r].stage.Unpublished?)
  }

  /** A resolved start call stays as it is; one that gets resolved hands out an actor nobody has seen yet. */
  ghost predicate CallForward(s: State, s': State, c: CallRef) {
    && (c in s.calls ==> c in s'.calls && (s.calls[c].Resolved? ==> s'.calls[c] == s.calls[c]))
    && (c in s'.calls && s'.calls[c].Resolved? && !(c in s.calls && s.calls[c].Resolved?) ==>
          match s'.calls[c].result
          case Got(r) => r in s.heap && s.heap[r].stage.Unpublished?
          case NotStarted(e) => exists t :: At(s, t) && s.dispatches[t].pc == StartReturned(c, NotStarted(e)))
  }

  ghost predicate DispatchForward(s: State, s': State, t: ThreadId) {
    At(s, t) ==>
      && At(s', t) && s'.dispatches[t].id == s.dispatches[t].id
      && (s.dispatches[t].pc.Done? ==> s'.dispatches[t].pc == s.dispatches[t].pc && s'.dispatches[t].seen == s.dispatches[t].seen)
      && s.dispatches[t].abandoned <= s'.dispatches[t].abandoned
  }

  ghost predicate Forward(s: State, s': State) {
    && (forall r :: ActorForward(s, s', r))
    && (forall c :: CallForward(s, s', c))
    && (forall t :: DispatchForward(s, s', t))
  }

  // ---------- what a dispatch remembers ----------

  /** Dispatch `t` gave up after finding two different actors of its identity poisoned. */
  ghost predicate SawTwo(s: State, t: ThreadId) {
    && At(s, t) && s.dispatches[t].pc.Done?
    && var d := s.dispatches[t];
       && |d.seen| == 2 && d.seen[0] != d.seen[1]
       && forall r | r in d.seen :: IsRetired(s, r) && s.heap[r].id == d.id
  }

  /** An error that may leave a dispatch: not the sentinel, and exhaustion only when it is deserved. */
  ghost predicate ErrorOk(s: State, e: Error) {
    !e.Poisoned? && (e.Exhausted? ==> SawTwo(s, e.dispatch))
  }

  predicate ReportsPoison(pc: Pc) {
    || (pc.Inside? && pc.phase == Releasing(Failure(Poisoned)))
    || (pc.Leaving? && pc.outcome == Failure(Poisoned))
  }

  /** The retry budget, and why a retry never meets the actor that caused it. */
  ghost predicate SeenOk(s: State, t: ThreadId) {
    At(s, t) ==>
      var d := s.dispatches[t];
      && |d.seen| == d.attempt <= 2
      && (forall r | r in d.seen :: IsRetired(s, r) && s.heap[r].id == d.id)
      && (d.attempt == 2 ==> d.pc == Done(Failure(Exhausted(t))) && d.seen[0] != d.seen[1])
      && (HasActor(d.pc) ==> d.pc.actor !in d.seen)
      && (ReportsPoison(d.pc) ==> IsRetired(s, d.pc.actor))
  }

  /** A waiter that retries waits for an actor it has not seen. */
  ghost predicate WaitOk(s: State, t: ThreadId) {
    At(s, t) && s.dispatches[t].pc.WaitingForStart? && s.dispatches[t].pc.call in s.calls ==>
      match s.calls[s.dispatches[t].pc.call]
      case Resolved(_, Got(r)) => r !in s.dispatches[t].seen
      case _ => true
  }

  function ErrorOf(pc: Pc): Option<Error> {
    match pc
    case StartReturned(_, NotStarted(e)) => Some(e)
    case Inside(_, Releasing(Failure(e))) => Some(e)
    case Leaving(_, Failure(e)) => Some(e)
    case Done(Failure(e)) => Some(e)
    case _ => None
  }

  ghost predicate ErrorsOk(s: State, t: ThreadId) {
    At(s, t) ==>
      var d := s.dispatches[t];
      && (d.promise.Rejected? ==> ErrorOk(s, d.promise.error))
      && (ErrorOf(d.pc).Some? ==> ErrorOk(s, ErrorOf(d.pc).value) || ReportsPoison(d.pc))
  }

  /** What nested calls have thrown at code of an identity. */
  ghost predicate ThrownOk(s: State, id: ObjectID) {
    forall e | e in ThrownAt(s, id) :: ErrorOk(s, e)
  }

  ghost predicate CallErrorOk(s: State, c: CallRef) {
    c in s.calls && s.calls[c].Resolved? && s.calls[c].result.NotStarted? ==> ErrorOk(s, s.calls[c].result.error)
  }

  /** No handler has been invoked yet in this dispatch. */
  predicate BeforeInvocation(pc: Pc) {
    || pc.Lookup? || pc.WaitingForStart? || IsStarter(pc) || pc.Entering? || pc.AtGate?
    || (pc.Inside? && pc.phase.Holding?) || ReportsPoison(pc)
  }

  ghost predicate InvokedOk(s: State, t: ThreadId) {
    At(s, t) ==>
      && s.dispatches[t].invocations <= 1
      && (BeforeInvocation(s.dispatches[t].pc) ==> s.dispatches[t].invocations == 0)
  }

  /** An actor whose pending promise was given up is poisoned before its gate opens again. */
  ghost predicate AbandonedOk(s: State, t: ThreadId) {
    At(s, t) ==>
      forall r | r in s.dispatches[t].abandoned ::
        r in s.heap && (s.heap[r].poisoned || s.dispatches[t].pc == Inside(r, Poisoning))
  }

  /** What dispatch `t` knows about actors. */
  ghost predicate SightsOk(s: State, t: ThreadId) {
    SeenOk(s, t) && WaitOk(s, t) && AbandonedOk(s, t)
  }

  ghost predicate MemoryOk(s: State, t: ThreadId) {
    SightsOk(s, t) && ErrorsOk(s, t) && InvokedOk(s, t)
  }

  ghost predicate HistoryOk(s: State) {
    && (forall t :: MemoryOk(s, t))
    && (forall c :: CallErrorOk(s, c))
    && (forall id :: ThrownOk(s, id))
  }

  // ---------- the whole invariant, over every run ----------

  ghost predicate Inv(s: State) {
    Coherent(s) && SweepsOk(s) && HistoryOk(s)
  }

  lemma StepKeepsInv(s: State, a: Action)
    requires Enabled(s, a) && Inv(s)
    ensures Inv(Apply(s, a)) && Forward(s, Apply(s, a))
  {
    var s' := Apply(s, a);
    StepKeepsCoherence(s, a);
    forall c ensures CallErrorOk(s', c) { CallsKeepErrors(s, s', c); }
    forall id ensures ThrownOk(s', id) { StepKeepsThrown(s, a, id); }
    forall u ensures MemoryOk(s', u) {
      assert MemoryOk(s, u);
      if At(s', u) {
        if !a.Evict? && u == a.t {
          if At(s, u) {
            StepKeepsOwnMemory(s, a);
          }
        } else {
          StepTouchesOne(s, a, u);
          if At(s, u) {
            OthersKeepMemory(s, s', u);
          } else {
            var id :| s'.dispatches[u] == NewDispatch(s'.manifest, id);
          }
        }
      }
    }
  }

  /** The invariant holds after every run from a state where it holds. */
  lemma {:induction false} RunKeepsInv(s: State, run: seq<Action>)
    requires Inv(s) && Feasible(s, run)
    ensures Inv(Run(s, run))
    decreases |run|
  {
    if run != [] {
      StepKeepsInv(s, run[0]);
      RunKeepsInv(Apply(s, run[0]), run[1..]);
    }
  }

  /** Every state that the runtime can get into. */
  lemma ReachableStatesHold(manifest: Manifests.Manifest, run: seq<Action>)
    requires Feasible(Init(manifest), run)
    ensures Inv(Run(Init(manifest), run))
  {
    RunKeepsInv(Init(manifest), run);
  }

  // ---------- every step moves forward ----------

  lemma ObtainIsForward(s: State, t: ThreadId, step: ObtainStep)
    requires CanObtain(s, t, step) && Coherent(s)
    ensures Forward(s, AfterObtain(s, t, step))
  {
    if step.Publish? {
      NothingToDisplace(s, t);
    }
    assert StarterOk(s, t);
    forall u ensures DispatchForward(s, AfterObtain(s, t, step), u) { ObtainMovesDispatchOn(s, t, step, u); }
  }

  lemma ObtainMovesDispatchOn(s: State, t: ThreadId, step: ObtainStep, u: ThreadId)
    requires CanObtain(s, t, step)
    ensures DispatchForward(s, AfterObtain(s, t, step), u)
  {
  }

  lemma PassIsForward(s: State, t: ThreadId, step: GateStep)
    requires CanPass(s, t, step)
    ensures Forward(s, AfterPass(s, t, step))
  {
    var s' := AfterPass(s, t, step);
    assert s'.calls == s.calls;
    forall u ensures DispatchForward(s, s', u) { }
  }

  lemma HandleIsForward(s: State, t: ThreadId, step: HandleStep)
    requires CanHandle(s, t, step)
    ensures Forward(s, AfterHandle(s, t, step))
  {
    var s' := AfterHandle(s, t, step);
    assert s'.heap == s.heap && s'.calls == s.calls;
    forall u ensures DispatchForward(s, s', u) { }
  }

  lemma AbandonIsForward(s: State, t: ThreadId, step: AbandonStep)
    requires CanAbandon(s, t, step) && Coherent(s)
    ensures Forward(s, AfterAbandon(s, t, step))
  {
    assert VisitorOk(s, t);
  }

  lemma SweepIsForward(s: State, t: ThreadId, step: SweepStep)
    requires CanSweep(s, t, step) && Coherent(s) && SweepsOk(s)
    ensures Forward(s, AfterSweep(s, t, step))
  {
    var s' := AfterSweep(s, t, step);
    assert s'.dispatches == s.dispatches && s'.calls == s.calls;
    forall r ensures ActorForward(s, s', r) { SweepMovesActorOn(s, t, step, r); }
  }

  lemma SweepMovesActorOn(s: State, t: ThreadId, step: SweepStep, r: ActorRef)
    requires CanSweep(s, t, step) && Coherent(s) && SweepsOk(s)
    ensures ActorForward(s, AfterSweep(s, t, step), r)
  {
    assert SweepOk(s, t);
    RemovedWereLive(s, s.actors.Keys);
  }

  // ---------- every step keeps the memories right ----------

  lemma RetiredForward(s: State, s': State, r: ActorRef)
    requires Forward(s, s') && IsRetired(s, r)
    ensures IsRetired(s', r) && s'.heap[r].id == s.heap[r].id
  {
    assert ActorForward(s, s', r);
  }

  lemma ErrorOkForward(s: State, s': State, e: Error)
    requires Forward(s, s') && ErrorOk(s, e)
    ensures ErrorOk(s', e)
  {
    if e.Exhausted? {
      assert DispatchForward(s, s', e.dispatch);
      forall r | r in s.dispatches[e.dispatch].seen ensures IsRetired(s', r) && s'.heap[r].id == s.heap[r].id {
        RetiredForward(s, s', r);
      }
    }
  }

  /** A dispatch that a step does not touch remembers what it remembered. */
  lemma OthersKeepMemory(s: State, s': State, t: ThreadId)
    requires Forward(s, s') && MemoryOk(s, t)
    requires At(s, t) && At(s', t) && s'.dispatches[t] == s.dispatches[t]
    ensures MemoryOk(s', t)
  {
    var d := s.dispatches[t];
    forall r | IsRetired(s, r) ensures IsRetired(s', r) && s'.heap[r].id == s.heap[r].id { RetiredForward(s, s', r); }
    forall e | ErrorOk(s, e) ensures ErrorOk(s', e) { ErrorOkForward(s, s', e); }
    if d.pc.WaitingForStart? {
      assert CallForward(s, s', d.pc.call);
    }
    forall r | r in d.abandoned ensures r in s'.heap && (s'.heap[r].poisoned || d.pc == Inside(r, Poisoning)) {
      assert ActorForward(s, s', r);
    }
  }

  lemma CallsKeepErrors(s: State, s': State, c: CallRef)
    requires Forward(s, s') && HistoryOk(s)
    ensures CallErrorOk(s', c)
  {
    assert CallErrorOk(s, c) && CallForward(s, s', c);
    if c in s'.calls && s'.calls[c].Resolved? && s'.calls[c].result.NotStarted? {
      var e := s'.calls[c].result.error;
      if !(c in s.calls && s.calls[c].Resolved?) {
        var t :| At(s, t) && s.dispatches[t].pc == StartReturned(c, NotStarted(e));
        assert MemoryOk(s, t);
      }
      ErrorOkForward(s, s', e);
    }
  }

  lemma AbandonedCarryOver(s: State, s': State, t: ThreadId)
    requires Forward(s, s') && At(s, t) && At(s', t) && AbandonedOk(s, t)
    requires s'.dispatches[t].abandoned == s.dispatches[t].abandoned
    requires s.dispatches[t].pc.Inside? ==> !s.dispatches[t].pc.phase.Poisoning?
    ensures AbandonedOk(s', t)
  {
    forall r | r in s.dispatches[t].abandoned ensures r in s'.heap && s'.heap[r].poisoned {
      assert ActorForward(s, s', r);
    }
  }

  lemma SeenStayRetired(s: State, s': State, t: ThreadId)
    requires Forward(s, s') && At(s, t) && SeenOk(s, t)
    ensures forall r | r in s.dispatches[t].seen :: IsRetired(s', r) && s'.heap[r].id == s.dispatches[t].id
  {
    forall r | r in s.dispatches[t].seen ensures IsRetired(s', r) && s'.heap[r].id == s.dispatches[t].id {
      RetiredForward(s, s', r);
    }
  }

  lemma ErrorsCarryOver(s: State, s': State, t: ThreadId)
    requires Forward(s, s') && At(s, t) && At(s', t) && ErrorsOk(s, t)
    requires s'.dispatches[t].promise.Rejected? ==> s'.dispatches[t].promise == s.dispatches[t].promise
    requires var e := ErrorOf(s'.dispatches[t].pc);
             e.Some? ==> ReportsPoison(s'.dispatches[t].pc) || ErrorOk(s, e.value) || ErrorOk(s', e.value)
    ensures ErrorsOk(s', t)
  {
    var d, d' := s.dispatches[t], s'.dispatches[t];
    if d'.promise.Rejected? {
      ErrorOkForward(s, s', d.promise.error);
    }
    var e := ErrorOf(d'.pc);
    if e.Some? && ErrorOk(s, e.value) {
      ErrorOkForward(s, s', e.value);
    }
  }

  lemma ObtainKeepsOwnSights(s: State, t: ThreadId, step: ObtainStep)
    requires CanObtain(s, t, step) && Coherent(s) && At(s, t) && SightsOk(s, t)
    ensures SightsOk(AfterObtain(s, t, step), t)
  {
    var s' := AfterObtain(s, t, step);
    ObtainIsForward(s, t, step);
    AbandonedCarryOver(s, s', t);
    SeenStayRetired(s, s', t);
    if step.LookUp? {
      LookUpKeepsSeen(s, t, step);
    } else {
      StartKeepsSeen(s, t, step);
    }
  }

  lemma LookUpKeepsSeen(s: State, t: ThreadId, step: ObtainStep)
    requires CanObtain(s, t, step) && step.LookUp? && Coherent(s) && SeenOk(s, t)
    requires forall r | r in s.dispatches[t].seen :: IsRetired(AfterObtain(s, t, step), r)
                                                     && AfterObtain(s, t, step).heap[r].id == s.dispatches[t].id
    ensures SeenOk(AfterObtain(s, t, step), t) && WaitOk(AfterObtain(s, t, step), t)
  {
    assert IdOk(s, s.dispatches[t].id);
  }

  lemma StartKeepsSeen(s: State, t: ThreadId, step: ObtainStep)
    requires CanObtain(s, t, step) && !step.LookUp? && Coherent(s) && At(s, t) && SeenOk(s, t) && WaitOk(s, t)
    requires forall r | r in s.dispatches[t].seen :: IsRetired(AfterObtain(s, t, step), r)
                                                     && AfterObtain(s, t, step).heap[r].id == s.dispatches[t].id
    ensures SeenOk(AfterObtain(s, t, step), t) && WaitOk(AfterObtain(s, t, step), t)
  {
    assert StarterOk(s, t);
    if step.Publish? {
      NothingToDisplace(s, t);
    }
  }

  lemma ObtainKeepsOwnErrors(s: State, t: ThreadId, step: ObtainStep)
    requires CanObtain(s, t, step) && Coherent(s) && At(s, t) && ErrorsOk(s, t) && ThrownOk(s, s.dispatches[t].id)
    requires step.Wake? ==> CallErrorOk(s, s.dispatches[t].pc.call)
    ensures ErrorsOk(AfterObtain(s, t, step), t)
  {
    ObtainIsForward(s, t, step);
    if step.Publish? {
      NothingToDisplace(s, t);
    }
    ErrorsCarryOver(s, AfterObtain(s, t, step), t);
  }

  lemma PassKeepsOwnSights(s: State, t: ThreadId, step: GateStep)
    requires CanPass(s, t, step) && Coherent(s) && SightsOk(s, t)
    ensures SightsOk(AfterPass(s, t, step), t)
  {
    var s' := AfterPass(s, t, step);
    PassIsForward(s, t, step);
    AbandonedCarryOver(s, s', t);
    SeenStayRetired(s, s', t);
    if step.Leave? {
      LeaveKeepsSeen(s, t);
    } else {
      VisitKeepsSeen(s, t, step);
    }
  }

  /** Leaving with the sentinel adds the actor to those seen, and it was not among them. */
  lemma LeaveKeepsSeen(s: State, t: ThreadId)
    requires CanPass(s, t, Leave) && Coherent(s) && SeenOk(s, t)
    requires forall r | r in s.dispatches[t].seen :: IsRetired(AfterPass(s, t, Leave), r)
                                                     && AfterPass(s, t, Leave).heap[r].id == s.dispatches[t].id
    ensures SeenOk(AfterPass(s, t, Leave), t)
  {
    assert VisitorOk(s, t) && ActorOk(s, s.dispatches[t].pc.actor);
  }

  lemma VisitKeepsSeen(s: State, t: ThreadId, step: GateStep)
    requires CanPass(s, t, step) && !step.Leave? && Coherent(s) && SeenOk(s, t)
    requires forall r | r in s.dispatches[t].seen :: IsRetired(AfterPass(s, t, step), r)
                                                     && AfterPass(s, t, step).heap[r].id == s.dispatches[t].id
    ensures SeenOk(AfterPass(s, t, step), t)
  {
    assert VisitorOk(s, t) && ActorOk(s, s.dispatches[t].pc.actor);
  }

  lemma PassKeepsOwnErrors(s: State, t: ThreadId, step: GateStep)
    requires CanPass(s, t, step) && Coherent(s) && ErrorsOk(s, t)
    requires SeenOk(AfterPass(s, t, step), t)
    ensures ErrorsOk(AfterPass(s, t, step), t)
  {
    PassIsForward(s, t, step);
    ErrorsCarryOver(s, AfterPass(s, t, step), t);
  }

  /** What a dispatch does to itself while it holds the gate, or while it runs a constructor. */
  ghost predicate WorkMove(s: State, d: Dispatch, d': Dispatch) {
    && d'.id == d.id && d'.seen == d.seen && d'.attempt == d.attempt && d'.invocations == d.invocations
    && (d'.pc == d.pc
        || (&& d.pc.Inside? && !BeforeInvocation(d.pc)
            && d'.pc.Inside? && d'.pc.actor == d.pc.actor && !BeforeInvocation(d'.pc)
            && (ErrorOf(d'.pc).Some? ==> ErrorOk(s, ErrorOf(d'.pc).value))))
    && (d'.promise.Rejected? ==> ErrorOk(s, d'.promise.error))
  }

  lemma WorkKeepsMemory(s: State, s': State, t: ThreadId)
    requires Forward(s, s') && At(s, t) && At(s', t) && MemoryOk(s, t)
    requires WorkMove(s, s.dispatches[t], s'.dispatches[t])
    ensures SeenOk(s', t) && WaitOk(s', t) && ErrorsOk(s', t) && InvokedOk(s', t)
  {
    forall r | IsRetired(s, r) ensures IsRetired(s', r) && s'.heap[r].id == s.heap[r].id { RetiredForward(s, s', r); }
    forall e | ErrorOk(s, e) ensures ErrorOk(s', e) { ErrorOkForward(s, s', e); }
    if s.dispatches[t].pc.WaitingForStart? {
      assert CallForward(s, s', s.dispatches[t].pc.call);
    }
  }

  lemma ReadIsWork(s: State, t: ThreadId)
    requires CanHandle(s, t, ReadPromise) && ErrorsOk(s, t)
    ensures WorkMove(s, s.dispatches[t], AfterHandle(s, t, ReadPromise).dispatches[t])
  {
    var promise := s.dispatches[t].promise;
    assert promise.Rejected? ==> ErrorOk(s, promise.error);
  }

  lemma HandleIsWork(s: State, t: ThreadId, step: HandleStep)
    requires CanHandle(s, t, step) && ErrorsOk(s, t) && ThrownOk(s, s.dispatches[t].id)
    requires step.ReturnStub? ==> ErrorsOk(s, s.dispatches[t].child.value)
    ensures WorkMove(s, s.dispatches[t], AfterHandle(s, t, step).dispatches[t])
  {
    if step.ReadPromise? {
      ReadIsWork(s, t);
    }
  }

  lemma AbandonKeepsAbandoned(s: State, t: ThreadId, step: AbandonStep)
    requires CanAbandon(s, t, step) && AbandonedOk(s, t)
    ensures AbandonedOk(AfterAbandon(s, t, step), t)
  {
    var s' := AfterAbandon(s, t, step);
    var d := s.dispatches[t];
    forall r | r in s'.dispatches[t].abandoned
      ensures r in s'.heap && (s'.heap[r].poisoned || s'.dispatches[t].pc == Inside(r, Poisoning))
    {
      assert r in d.abandoned || (step.CancelPoll? && r == d.pc.actor);
    }
  }

  // ---------- how the parts of a step come together ----------

  lemma StepKeepsCoherence(s: State, a: Action)
    requires Enabled(s, a) && Coherent(s) && SweepsOk(s)
    ensures Coherent(Apply(s, a)) && SweepsOk(Apply(s, a)) && Forward(s, Apply(s, a))
  {
    match a
    case Obtain(t, step) =>
      ObtainKeepsCoherence(s, t, step); ObtainLeavesSweptAlone(s, t, step); ObtainIsForward(s, t, step);
      DispatchKeepsSweeps(s, Apply(s, a));
    case Pass(t, step) =>
      PassKeepsCoherence(s, t, step); PassIsForward(s, t, step);
      DispatchKeepsSweeps(s, Apply(s, a));
    case Handle(t, step) =>
      HandleKeepsCoherence(s, t, step); HandleIsForward(s, t, step);
      DispatchKeepsSweeps(s, Apply(s, a));
    case Abandon(t, step) =>
      AbandonKeepsCoherence(s, t, step); AbandonLeavesSweptAlone(s, t, step); AbandonIsForward(s, t, step);
      DispatchKeepsSweeps(s, Apply(s, a));
    case Evict(t, step) =>
      SweepKeepsCoherence(s, t, step); SweepKeepsSweeps(s, t, step); SweepIsForward(s, t, step);
  }

  lemma HandleKeepsOwnMemory(s: State, t: ThreadId, step: HandleStep)
    requires CanHandle(s, t, step) && Coherent(s) && MemoryOk(s, t) && ThrownOk(s, s.dispatches[t].id)
    requires step.ReturnStub? ==> ErrorsOk(s, s.dispatches[t].child.value)
    ensures MemoryOk(AfterHandle(s, t, step), t)
  {
    HandleIsForward(s, t, step);
    HandleIsWork(s, t, step);
    WorkKeepsMemory(s, AfterHandle(s, t, step), t);
  }

  lemma AbandonKeepsOwnMemory(s: State, t: ThreadId, step: AbandonStep)
    requires CanAbandon(s, t, step) && Coherent(s) && MemoryOk(s, t)
    ensures MemoryOk(AfterAbandon(s, t, step), t)
  {
    AbandonIsForward(s, t, step);
    AbandonKeepsAbandoned(s, t, step);
    WorkKeepsMemory(s, AfterAbandon(s, t, step), t);
  }

  /** The dispatch that takes the step. */
  lemma StepKeepsOwnMemory(s: State, a: Action)
    requires Enabled(s, a) && Inv(s) && !a.Evict? && At(s, a.t)
    ensures MemoryOk(Apply(s, a), a.t)
  {
    assert MemoryOk(s, a.t) && ThrownOk(s, s.dispatches[a.t].id);
    match a
    case Obtain(t, step) =>
      if step.Wake? { assert CallErrorOk(s, s.dispatches[t].pc.call); }
      ObtainKeepsOwnSights(s, t, step); ObtainKeepsOwnErrors(s, t, step);
    case Pass(t, step) => PassKeepsOwnSights(s, t, step); PassKeepsOwnErrors(s, t, step);
    case Handle(t, step) =>
      if step.ReturnStub? { assert MemoryOk(s, s.dispatches[t].child.value); }
      HandleKeepsOwnMemory(s, t, step);
    case Abandon(t, step) => AbandonKeepsOwnMemory(s, t, step);
  }

  /** A step of one dispatch leaves the others as they are, except for a stub call, which adds one. */
  ghost predicate Untouched(s: State, s': State, u: ThreadId) {
    && s'.manifest == s.manifest
    && (At(s, u) ==> At(s', u) && s'.dispatches[u] == s.dispatches[u])
    && (!At(s, u) && At(s', u) ==> exists id :: s'.dispatches[u] == NewDispatch(s'.manifest, id))
  }

  lemma StepTouchesOne(s: State, a: Action, u: ThreadId)
    requires Enabled(s, a) && (a.Evict? || u != a.t)
    ensures Untouched(s, Apply(s, a), u)
  {
  }

  /** Only the return of a stub call throws, and what it throws is the error its dispatch ended with. */
  lemma ThrowsOnReturn(s: State, a: Action)
    requires Enabled(s, a)
    ensures if a.Handle? && a.handle.ReturnStub?
            then Apply(s, a).thrown == ThrownWith(s, s.dispatches[a.t].id, s.dispatches[s.dispatches[a.t].child.value].pc.outcome)
            else Apply(s, a).thrown == s.thrown
  {
  }

  lemma StepKeepsThrown(s: State, a: Action, id: ObjectID)
    requires Enabled(s, a) && HistoryOk(s) && Forward(s, Apply(s, a))
    ensures ThrownOk(Apply(s, a), id)
  {
    var s' := Apply(s, a);
    ThrowsOnReturn(s, a);
    assert ThrownOk(s, id);
    if a.Handle? && a.handle.ReturnStub? {
      assert MemoryOk(s, s.dispatches[a.t].child.value);
    }
    forall e | e in ThrownAt(s', id) ensures ErrorOk(s', e) { ErrorOkForward(s, s', e); }
  }
}
