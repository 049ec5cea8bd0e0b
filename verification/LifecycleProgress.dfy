/** Why dispatches cannot all wait for each other when synchronous calls only go up an order on identities. */
module LifecycleProgress {
  import opened Wrappers
  import opened Identity
  import opened Lifecycle
  import opened LifecycleInvariant
  import opened LifecycleHistory
  import Manifests

  // ---------- nested calls ----------

  ghost predicate IsStrictOrder(below: (ObjectID, ObjectID) -> bool) {
    && (forall a :: !below(a, a))
    && (forall a, b, c :: below(a, b) && below(b, c) ==> below(a, c))
  }

  /** Every stub call in the run goes from an identity to one above it. */
  ghost predicate CallsGoUp(below: (ObjectID, ObjectID) -> bool, s: State, run: seq<Action>)
    requires Feasible(s, run)
    decreases |run|
  {
    run != [] ==>
      && (run[0].Handle? && run[0].handle.CallStub? ==> below(s.dispatches[run[0].t].id, run[0].handle.target))
      && CallsGoUp(below, Apply(s, run[0]), run[1..])
  }

  /** Only running code waits for a nested call, and the call is to an identity above. A polled value is a promise. */
  ghost predicate NestingOk(below: (ObjectID, ObjectID) -> bool, s: State, t: ThreadId) {
    At(s, t) ==>
      var d := s.dispatches[t];
      && (d.child.Some? ==> RunsCode(d) && At(s, d.child.value) && below(d.id, s.dispatches[d.child.value].id))
      && (d.pc.Inside? && d.pc.phase.Polling? ==> !d.promise.NoPromise?)
  }

  lemma OthersKeepNesting(below: (ObjectID, ObjectID) -> bool, s: State, s': State, t: ThreadId)
    requires Forward(s, s') && NestingOk(below, s, t) && Untouched(s, s', t)
    ensures NestingOk(below, s', t)
  {
    if At(s, t) && s.dispatches[t].child.Some? {
      assert DispatchForward(s, s', s.dispatches[t].child.value);
    }
  }

  lemma ObtainKeepsNesting(below: (ObjectID, ObjectID) -> bool, s: State, t: ThreadId, step: ObtainStep)
    requires CanObtain(s, t, step) && Coherent(s) && NestingOk(below, s, t)
    ensures NestingOk(below, AfterObtain(s, t, step), t)
  {
    ObtainIsForward(s, t, step);
    if At(s, t) && s.dispatches[t].child.Some? {
      assert DispatchForward(s, AfterObtain(s, t, step), s.dispatches[t].child.value);
    }
  }

  lemma StepKeepsNesting(below: (ObjectID, ObjectID) -> bool, s: State, a: Action)
    requires Enabled(s, a) && Inv(s) && forall t :: NestingOk(below, s, t)
    requires a.Handle? && a.handle.CallStub? ==> below(s.dispatches[a.t].id, a.handle.target)
    ensures forall t :: NestingOk(below, Apply(s, a), t)
  {
    StepKeepsInv(s, a);
    forall u ensures NestingOk(below, Apply(s, a), u) {
      assert NestingOk(below, s, u);
      if a.Evict? || u != a.t {
        StepTouchesOne(s, a, u);
        OthersKeepNesting(below, s, Apply(s, a), u);
      } else if a.Obtain? {
        ObtainKeepsNesting(below, s, a.t, a.obtain);
      }
    }
  }

  lemma {:induction false} RunKeepsNesting(below: (ObjectID, ObjectID) -> bool, s: State, run: seq<Action>)
    requires Inv(s) && (forall t :: NestingOk(below, s, t))
    requires Feasible(s, run) && CallsGoUp(below, s, run)
    ensures Inv(Run(s, run)) && forall t :: NestingOk(below, Run(s, run), t)
    decreases |run|
  {
    if run != [] {
      StepKeepsInv(s, run[0]);
      StepKeepsNesting(below, s, run[0]);
      RunKeepsNesting(below, Apply(s, run[0]), run[1..]);
    }
  }

  // ---------- steps that get somewhere ----------

  predicate Unfinished(s: State, t: ThreadId) { At(s, t) && !s.dispatches[t].pc.Done? }

  /**
   * A step of a thread that is already there, that needs no cancellation and makes no new call. Of the sweeps only the
   * end of a scan for idle actors is one, because the scan holds the manager's lock.
   */
  predicate IsOwnWork(a: Action) {
    match a
    case Obtain(_, step) => !step.Arrive? && !step.CancelWait? && !step.FailStart?
    case Pass(_, step) => !step.CancelAcquire?
    case Handle(_, step) => !step.CallStub? && !step.CancelHandler? && !step.FailDetect? && !step.FailRead?
    case Abandon(_, step) => !step.CancelPoll?
    case Evict(_, step) => step.RemoveIdle?
  }

  /** An unfinished dispatch, or the scan that holds the manager's lock, can take a step that changes the state. */
  ghost predicate CanAdvance(s: State) {
    exists a :: Advances(s, a)
  }

  ghost predicate Advances(s: State, a: Action) {
    Enabled(s, a) && IsOwnWork(a) && (if a.Evict? then s.mu == Some(a.t) else Unfinished(s, a.t)) && Apply(s, a) != s
  }

  /** A finite non-empty set has a maximal element. */
  lemma {:induction false} MaximalElement(below: (ObjectID, ObjectID) -> bool, ids: set<ObjectID>) returns (top: ObjectID)
    requires IsStrictOrder(below) && ids != {}
    ensures top in ids && forall id | id in ids :: !below(top, id)
    decreases ids
  {
    var first :| first in ids;
    top := first;
    if ids != {first} {
      var rest := ids - {first};
      assert rest != {};
      var other := MaximalElement(below, rest);
      top := if below(other, first) then first else other;
      forall id | id in ids ensures !below(top, id) {
        assert id == first || id in rest;
        assert below(other, first) && below(first, id) ==> below(other, id);
      }
    }
  }

  /** Code that waits for a nested call either has its answer or waits for an unfinished dispatch further up. */
  lemma CodeAdvances(below: (ObjectID, ObjectID) -> bool, s: State, t: ThreadId)
    requires NestingOk(below, s, t) && At(s, t) && s.dispatches[t].child.Some?
    requires forall u | Unfinished(s, u) :: !below(s.dispatches[t].id, s.dispatches[u].id)
    ensures CanAdvance(s)
  {
    var u := s.dispatches[t].child.value;
    assert !Unfinished(s, u);
    assert Apply(s, Handle(t, ReturnStub)).dispatches[t].child.None?;
    assert Advances(s, Handle(t, ReturnStub));
  }

  lemma StarterAdvances(below: (ObjectID, ObjectID) -> bool, s: State, t: ThreadId)
    requires NestingOk(below, s, t) && s.mu.None? && At(s, t) && IsStarter(s.dispatches[t].pc)
    requires forall u | Unfinished(s, u) :: !below(s.dispatches[t].id, s.dispatches[u].id)
    ensures CanAdvance(s)
  {
    var d := s.dispatches[t];
    if d.pc.StartReturned? {
      assert Apply(s, Obtain(t, Publish)).dispatches[t].pc != d.pc;
      assert Advances(s, Obtain(t, Publish));
    } else if d.child.Some? {
      CodeAdvances(below, s, t);
    } else {
      var r := FreshNat(s.heap.Keys);
      assert Apply(s, Obtain(t, FinishStart(r))).dispatches[t].pc != d.pc;
      assert Advances(s, Obtain(t, FinishStart(r)));
    }
  }

  /** The step with which a dispatch that holds the gate goes on when it waits for nobody. */
  function NextWork(t: ThreadId, d: Dispatch): Action
    requires d.pc.Inside?
  {
    match d.pc.phase
    case Holding => Pass(t, CheckPoison)
    case Invoking => Handle(t, FinishHandler(NoPromise))
    case Detecting => Handle(t, Detect)
    case Polling => if d.promise.Pending? then Handle(t, Settle(Fulfilled)) else Handle(t, ReadPromise)
    case Poisoning => Abandon(t, SetPoison)
    case PoisonedPresent => Abandon(t, RemoveOwn)
    case EvictingOwn(_) => Abandon(t, ReportOwn)
    case Converting => Handle(t, Convert(Success))
    case Releasing(_) => Pass(t, Release)
  }

  lemma HolderAdvances(below: (ObjectID, ObjectID) -> bool, s: State, t: ThreadId)
    requires NestingOk(below, s, t) && s.mu.None? && HasActorHere(s, t) && s.dispatches[t].pc.Inside?
    requires forall u | Unfinished(s, u) :: !below(s.dispatches[t].id, s.dispatches[u].id)
    ensures CanAdvance(s)
  {
    var d := s.dispatches[t];
    if d.child.Some? {
      CodeAdvances(below, s, t);
    } else {
      var a := NextWork(t, d);
      NextWorkChanges(s, t);
      assert Advances(s, a);
    }
  }

  lemma NextWorkChanges(s: State, t: ThreadId)
    requires s.mu.None? && HasActorHere(s, t) && s.dispatches[t].pc.Inside? && s.dispatches[t].child.None?
    requires s.dispatches[t].pc.phase.Polling? ==> !s.dispatches[t].promise.NoPromise?
    ensures var a := NextWork(t, s.dispatches[t]);
            Enabled(s, a) && IsOwnWork(a) && a.t == t && t in Apply(s, a).dispatches
            && Apply(s, a).dispatches[t] != s.dispatches[t]
  {
    NextWorkIsPossible(s, t);
    var a := NextWork(t, s.dispatches[t]);
    if a.Handle? {
      HandlerStepChanges(s, t, a.handle);
    }
  }

  lemma NextWorkIsPossible(s: State, t: ThreadId)
    requires s.mu.None? && HasActorHere(s, t) && s.dispatches[t].pc.Inside? && s.dispatches[t].child.None?
    requires s.dispatches[t].pc.phase.Polling? ==> !s.dispatches[t].promise.NoPromise?
    ensures var a := NextWork(t, s.dispatches[t]); Enabled(s, a) && IsOwnWork(a) && a.t == t
  {
  }

  lemma HandlerStepChanges(s: State, t: ThreadId, step: HandleStep)
    requires CanHandle(s, t, step) && s.dispatches[t].pc.Inside?
    requires step in {FinishHandler(NoPromise), Detect, Settle(Fulfilled), ReadPromise, Convert(Success)}
    requires step.ReadPromise? ==> s.dispatches[t].promise.Fulfilled? || s.dispatches[t].promise.Rejected?
    ensures AfterHandle(s, t, step).dispatches[t] != s.dispatches[t]
  {
  }

  lemma SeekerAdvances(s: State, t: ThreadId)
    requires s.mu.None? && At(s, t)
    requires var pc := s.dispatches[t].pc;
             pc.Lookup? || (pc.WaitingForStart? && pc.call in s.calls && s.calls[pc.call].Resolved?)
    ensures CanAdvance(s)
  {
    var d := s.dispatches[t];
    var c := FreshNat(s.calls.Keys);
    var a := Obtain(t, if d.pc.Lookup? then LookUp(c) else Wake);
    assert Apply(s, a).dispatches[t].pc != d.pc;
    assert Advances(s, a);
  }

  lemma VisitorAdvances(s: State, t: ThreadId)
    requires HasActorHere(s, t)
    requires var pc := s.dispatches[t].pc; pc.Entering? || (pc.AtGate? && s.heap[pc.actor].gate.None?) || pc.Leaving?
    ensures CanAdvance(s)
  {
    var d := s.dispatches[t];
    var a := Pass(t, if d.pc.Entering? then Enter else if d.pc.AtGate? then Acquire else Leave);
    assert Apply(s, a).dispatches[t].pc != d.pc;
    assert Advances(s, a);
  }

  /** A dispatch whose identity nobody unfinished is above can go on, or whoever it waits for can. */
  lemma TopAdvances(below: (ObjectID, ObjectID) -> bool, s: State, t: ThreadId)
    requires Inv(s) && (forall u :: NestingOk(below, s, u)) && s.mu.None? && Unfinished(s, t)
    requires forall u | Unfinished(s, u) :: !below(s.dispatches[t].id, s.dispatches[u].id)
    ensures CanAdvance(s)
  {
    var d := s.dispatches[t];
    assert StarterOk(s, t) && VisitorOk(s, t);
    match d.pc
    case Lookup =>
      SeekerAdvances(s, t);
    case WaitingForStart(c) =>
      if s.calls[c].Resolved? {
        SeekerAdvances(s, t);
      } else {
        assert CallOk(s, c) && IdOk(s, d.id);
        StarterAdvances(below, s, Starter(s, d.id));
      }
    case Starting(_) => StarterAdvances(below, s, t);
    case StartReturned(_, _) => StarterAdvances(below, s, t);
    case Entering(_) => VisitorAdvances(s, t);
    case AtGate(r) =>
      if s.heap[r].gate.None? {
        VisitorAdvances(s, t);
      } else {
        var holder := s.heap[r].gate.value;
        assert ActorOk(s, r) && VisitorOk(s, holder);
        HolderAdvances(below, s, holder);
      }
    case Inside(_, _) => HolderAdvances(below, s, t);
    case Leaving(_, _) => VisitorAdvances(s, t);
  }

  /** A scan for idle actors can always be brought to its end, which gives the lock back. */
  lemma ScanAdvances(s: State)
    requires Inv(s) && s.mu.Some?
    ensures CanAdvance(s)
  {
    var t := s.mu.value;
    assert SweepOk(s, t);
    assert Apply(s, Evict(t, RemoveIdle)).mu.None?;
    assert Advances(s, Evict(t, RemoveIdle));
  }

  lemma SomethingAdvances(below: (ObjectID, ObjectID) -> bool, s: State, t: ThreadId)
    requires IsStrictOrder(below) && Inv(s) && (forall u :: NestingOk(below, s, u)) && Unfinished(s, t)
    ensures CanAdvance(s)
  {
    if s.mu.Some? {
      ScanAdvances(s);
    } else {
      var ids := set u | u in s.dispatches && Unfinished(s, u) :: s.dispatches[u].id;
      assert s.dispatches[t].id in ids;
      var top := MaximalElement(below, ids);
      var u :| u in s.dispatches && Unfinished(s, u) && s.dispatches[u].id == top;
      TopAdvances(below, s, u);
    }
  }

  /**
   * No deadlock: if stub calls only ever went up some strict order on identities, then as long as a dispatch is
   * unfinished, an unfinished dispatch can go on without a cancellation and without a new call, or the scan can that holds
   * the manager's lock.
   */
  lemma UnfinishedMeansProgress(below: (ObjectID, ObjectID) -> bool, manifest: Manifests.Manifest, run: seq<Action>, t: ThreadId)
    requires IsStrictOrder(below)
    requires Feasible(Init(manifest), run) && CallsGoUp(below, Init(manifest), run)
    requires Unfinished(Run(Init(manifest), run), t)
    ensures CanAdvance(Run(Init(manifest), run))
  {
    RunKeepsNesting(below, Init(manifest), run);
    SomethingAdvances(below, Run(Init(manifest), run), t);
  }
}
