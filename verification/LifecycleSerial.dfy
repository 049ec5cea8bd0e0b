/** When the handlers of one object act one after the other, although they read, wait and write concurrently. */
module LifecycleSerial {
  import opened Wrappers
  import opened Identity
  import opened Lifecycle
  import opened LifecycleInvariant
  import opened LifecycleCoherence
  import opened LifecycleHistory
  import Manifests

  /** What a handler has read, and how many writes there had been by then. */
  datatype Read<V> = Read(value: V, at: nat)

  /** A write of dispatch `t` to its own object, by a handler that read when there had been `since` writes. */
  datatype Write = Write(t: ThreadId, id: ObjectID, since: nat)

  /**
   * The lifecycle together with one stored value per identity. A handler reads the value before its first await, and
   * writes `op(t, what it read)` when its promise is fulfilled; a handler that returns no pending promise does both at
   * once. `order` is the order of the writes.
   */
  datatype World<V> = World(s: State, store: map<ObjectID, V>, read: map<ThreadId, Read<V>>, order: seq<Write>)

  datatype Program<!V> = Program(zero: V, op: (ThreadId, V) -> V)

  function Value<V>(p: Program<V>, w: World<V>, id: ObjectID): V {
    if id in w.store then w.store[id] else p.zero
  }

  /** The end of a synchronous stretch of a handler. */
  datatype Effect = Nothing | Reads | WritesAtOnce | WritesLater

  function EffectOf<V>(w: World<V>, a: Action): Effect {
    match a
    case Handle(t, FinishHandler(Pending)) => Reads
    case Handle(t, CancelHandler) => Reads
    case Handle(t, FinishHandler(NoPromise)) => WritesAtOnce
    case Handle(t, FinishHandler(Fulfilled)) => WritesAtOnce
    case Handle(t, Settle(Fulfilled)) => if t in w.read then WritesLater else Nothing
    case _ => Nothing
  }

  /** What the writing handler of a step has read, and when. */
  function ReadOf<V>(p: Program<V>, w: World<V>, a: Action): Read<V>
    requires Enabled(w.s, a) && (EffectOf(w, a).WritesAtOnce? || EffectOf(w, a).WritesLater?)
  {
    if EffectOf(w, a).WritesLater? then w.read[a.t] else Read(Value(p, w, w.s.dispatches[a.t].id), |w.order|)
  }

  function WorldAfter<V>(p: Program<V>, w: World<V>, a: Action): World<V>
    requires Enabled(w.s, a)
  {
    var w' := w.(s := Apply(w.s, a));
    match EffectOf(w, a)
    case Nothing => w'
    case Reads => w'.(read := w.read[a.t := Read(Value(p, w, w.s.dispatches[a.t].id), |w.order|)])
    case _ =>
      var id, r := w.s.dispatches[a.t].id, ReadOf(p, w, a);
      w'.(store := w.store[id := p.op(a.t, r.value)], order := w.order + [Write(a.t, id, r.at)])
  }

  function WorldRun<V>(p: Program<V>, w: World<V>, run: seq<Action>): World<V>
    requires Feasible(w.s, run)
    decreases |run|
  {
    if run == [] then w else WorldRun(p, WorldAfter(p, w, run[0]), run[1..])
  }

  function Beginning<V>(manifest: Manifests.Manifest): World<V> {
    World(Init(manifest), map[], map[], [])
  }

  // ---------- orders of writes ----------

  /** The value that whole handlers produce when they run one after the other in the given order. */
  function Replay<V>(p: Program<V>, order: seq<Write>, id: ObjectID): V {
    if order == [] then p.zero else
      var before, last := Replay(p, order[..|order| - 1], id), order[|order| - 1];
      if last.id == id then p.op(last.t, before) else before
  }

  /** Nobody reads after writing. */
  predicate WellRead(order: seq<Write>) {
    forall k | 0 <= k < |order| :: order[k].since <= k
  }

  /** The value that is there when every write is computed from what its handler read. */
  function Stored<V>(p: Program<V>, order: seq<Write>, id: ObjectID): V
    requires WellRead(order)
    decreases |order|
  {
    if order == [] then p.zero else
      var last := order[|order| - 1];
      if last.id == id then p.op(last.t, Stored(p, order[..last.since], id)) else Stored(p, order[..|order| - 1], id)
  }

  /** There is no write of `id` from position `from` on. */
  predicate NoWriteSince(order: seq<Write>, id: ObjectID, from: nat) {
    forall j | from <= j < |order| :: order[j].id != id
  }

  /** No write of `id` falls between the read and the write of another handler. */
  predicate NoOverlap(order: seq<Write>, id: ObjectID) {
    forall k, j | 0 <= k < |order| && order[k].id == id && order[k].since <= j < k :: order[j].id != id
  }

  lemma {:induction false} ReplaySkips<V>(p: Program<V>, order: seq<Write>, id: ObjectID, n: nat)
    requires n <= |order| && NoWriteSince(order, id, n)
    ensures Replay(p, order, id) == Replay(p, order[..n], id)
    decreases |order|
  {
    if n < |order| {
      var front := order[..|order| - 1];
      ReplaySkips(p, front, id, n);
      assert front[..n] == order[..n];
    } else {
      assert order[..n] == order;
    }
  }

  /** Without overlap, what is stored is what whole handlers leave that run in the order of their writes. */
  lemma {:induction false} NoOverlapMeansReplay<V>(p: Program<V>, order: seq<Write>, id: ObjectID)
    requires WellRead(order) && NoOverlap(order, id)
    ensures Stored(p, order, id) == Replay(p, order, id)
    decreases |order|
  {
    if order != [] {
      var front, last := order[..|order| - 1], order[|order| - 1];
      if last.id == id {
        NoOverlapMeansReplay(p, order[..last.since], id);
        ReplaySkips(p, front, id, last.since);
        assert front[..last.since] == order[..last.since];
      } else {
        NoOverlapMeansReplay(p, front, id);
      }
    }
  }

  lemma StoredAppend<V>(p: Program<V>, order: seq<Write>, last: Write, id: ObjectID)
    requires WellRead(order) && last.since <= |order| && WellRead(order[..last.since]) && WellRead(order + [last])
    ensures Stored(p, order + [last], id)
            == if last.id == id then p.op(last.t, Stored(p, order[..last.since], id)) else Stored(p, order, id)
  {
    var all := order + [last];
    assert all[..|order|] == order && all[..last.since] == order[..last.since];
  }

  // ---------- what is stored, in every run ----------

  /** What a handler has read is what was stored at the time. */
  ghost predicate ReadOk<V>(p: Program<V>, w: World<V>, t: ThreadId)
    requires WellRead(w.order)
  {
    t in w.read ==>
      && At(w.s, t) && w.read[t].at <= |w.order| && WellRead(w.order[..w.read[t].at])
      && w.read[t].value == Stored(p, w.order[..w.read[t].at], w.s.dispatches[t].id)
  }

  ghost predicate StoreOk<V>(p: Program<V>, w: World<V>) {
    && WellRead(w.order)
    && (forall id :: Value(p, w, id) == Stored(p, w.order, id))
    && (forall t :: ReadOk(p, w, t))
  }

  lemma WriterKnows<V>(p: Program<V>, w: World<V>, a: Action)
    requires Enabled(w.s, a) && StoreOk(p, w) && (EffectOf(w, a).WritesAtOnce? || EffectOf(w, a).WritesLater?)
    ensures var r := ReadOf(p, w, a);
            && r.at <= |w.order| && WellRead(w.order[..r.at])
            && r.value == Stored(p, w.order[..r.at], w.s.dispatches[a.t].id)
  {
    assert ReadOk(p, w, a.t);
    assert w.order[..|w.order|] == w.order;
  }

  lemma StepKeepsValues<V>(p: Program<V>, w: World<V>, a: Action)
    requires Enabled(w.s, a) && StoreOk(p, w)
    ensures var w' := WorldAfter(p, w, a);
            WellRead(w'.order) && forall id :: Value(p, w', id) == Stored(p, w'.order, id)
  {
    if EffectOf(w, a).WritesAtOnce? || EffectOf(w, a).WritesLater? {
      var r := ReadOf(p, w, a);
      var last := Write(a.t, w.s.dispatches[a.t].id, r.at);
      WriterKnows(p, w, a);
      forall id ensures Value(p, WorldAfter(p, w, a), id) == Stored(p, w.order + [last], id) {
        StoredAppend(p, w.order, last, id);
      }
    }
  }

  /** A step writes at most once, and leaves what others have read. */
  lemma OrderGrows<V>(p: Program<V>, w: World<V>, a: Action)
    requires Enabled(w.s, a)
    ensures var w' := WorldAfter(p, w, a);
            && w'.s == Apply(w.s, a)
            && (w'.order == w.order
                || (&& !a.Evict? && At(w.s, a.t)
                    && w'.order == w.order + [Write(a.t, w.s.dispatches[a.t].id, ReadOf(p, w, a).at)]))
            && w.read.Keys <= w'.read.Keys
            && forall t | t in w'.read ::
                 || (t in w.read && w'.read[t] == w.read[t])
                 || (&& EffectOf(w, a).Reads? && a.Handle? && t == a.t && At(w.s, t)
                     && w'.read[t] == Read(Value(p, w, w.s.dispatches[t].id), |w.order|))
  {
  }

  lemma StepKeepsRead<V>(p: Program<V>, w: World<V>, a: Action, t: ThreadId)
    requires Enabled(w.s, a) && Inv(w.s) && StoreOk(p, w) && WellRead(WorldAfter(p, w, a).order)
    ensures ReadOk(p, WorldAfter(p, w, a), t)
  {
    var w' := WorldAfter(p, w, a);
    OrderGrows(p, w, a);
    StepKeepsInv(w.s, a);
    assert ReadOk(p, w, t) && DispatchForward(w.s, w'.s, t);
    if t in w'.read {
      var at := w'.read[t].at;
      assert w'.order[..at] == w.order[..at];
      assert w.order[..|w.order|] == w.order;
    }
  }

  lemma StepKeepsStore<V>(p: Program<V>, w: World<V>, a: Action)
    requires Enabled(w.s, a) && Inv(w.s) && StoreOk(p, w)
    ensures StoreOk(p, WorldAfter(p, w, a)) && WorldAfter(p, w, a).s == Apply(w.s, a)
  {
    StepKeepsValues(p, w, a);
    forall t ensures ReadOk(p, WorldAfter(p, w, a), t) { StepKeepsRead(p, w, a, t); }
    OrderGrows(p, w, a);
  }

  lemma {:induction false} RunKeepsStore<V>(p: Program<V>, w: World<V>, run: seq<Action>)
    requires Feasible(w.s, run) && Inv(w.s) && StoreOk(p, w)
    ensures StoreOk(p, WorldRun(p, w, run))
    decreases |run|
  {
    if run != [] {
      StepKeepsInv(w.s, run[0]);
      StepKeepsStore(p, w, run[0]);
      RunKeepsStore(p, WorldAfter(p, w, run[0]), run[1..]);
    }
  }

  lemma {:induction false} WorldRunIsRun<V>(p: Program<V>, w: World<V>, run: seq<Action>)
    requires Feasible(w.s, run)
    ensures WorldRun(p, w, run).s == Run(w.s, run)
    decreases |run|
  {
    if run != [] {
      WorldRunIsRun(p, WorldAfter(p, w, run[0]), run[1..]);
    }
  }

  /** In every run whatsoever, the stored value follows from the order of the writes and from what each had read. */
  lemma StoreFollowsWrites<V>(p: Program<V>, manifest: Manifests.Manifest, run: seq<Action>, id: ObjectID)
    requires Feasible(Init(manifest), run)
    ensures var w := WorldRun(p, Beginning(manifest), run);
            WellRead(w.order) && Value(p, w, id) == Stored(p, w.order, id)
  {
    RunKeepsStore(p, Beginning(manifest), run);
  }

  // ---------- what must not happen ----------

  /** The actor is poisoned, or whoever is inside is about to poison it. */
  predicate IsDoomed(s: State, r: ActorRef) {
    && r in s.heap
    && (|| s.heap[r].poisoned
        || (s.heap[r].gate.Some? && At(s, s.heap[r].gate.value) && InPhase(s.dispatches[s.heap[r].gate.value], Poisoning)))
  }

  /**
   * The actor on which dispatch `t` may still run or settle a handler: it has been handed the actor, which is not doomed,
   * or it runs a handler there, or waits for one that is pending.
   */
  function HandlerActor(s: State, t: ThreadId): Option<ActorRef> {
    if !At(s, t) then None else
      match s.dispatches[t].pc
      case WaitingForStart(c) =>
        if c in s.calls && s.calls[c].Resolved? && s.calls[c].result.Got? && !IsDoomed(s, s.calls[c].result.actor)
        then Some(s.calls[c].result.actor) else None
      case Entering(r) => if IsDoomed(s, r) then None else Some(r)
      case AtGate(r) => if IsDoomed(s, r) then None else Some(r)
      case Inside(r, phase) =>
        if || phase.Invoking?
           || (phase.Holding? && !IsDoomed(s, r))
           || (Awaits(s.dispatches[t]) && s.dispatches[t].promise.Pending?)
        then Some(r) else None
      case _ => None
  }

  /** The step takes the actor of `id` out of the manager under a dispatch that may still run a handler on it. */
  ghost predicate Evicts(s: State, a: Action, id: ObjectID)
    requires Enabled(s, a)
  {
    id in s.actors && id !in Apply(s, a).actors && exists t :: HandlerActor(s, t) == Some(s.actors[id])
  }

  /** A dispatch of `id` stops waiting for its handler although the handler may go on. */
  predicate WalksAway(s: State, a: Action, id: ObjectID)
    requires Enabled(s, a)
  {
    && !a.Evict? && At(s, a.t) && s.dispatches[a.t].id == id
    && match a
       case Handle(t, CancelHandler) => true
       case Handle(t, FailDetect(_)) => s.dispatches[t].promise.Pending?
       case Handle(t, FailRead(_)) => s.dispatches[t].promise.Pending?
       case Abandon(t, CancelPoll) => s.dispatches[t].promise.Pending?
       case _ => false
  }

  ghost predicate NobodyEvicts(s: State, run: seq<Action>, id: ObjectID)
    requires Feasible(s, run)
    decreases |run|
  {
    run != [] ==> !Evicts(s, run[0], id) && NobodyEvicts(Apply(s, run[0]), run[1..], id)
  }

  ghost predicate NobodyWalksAway(s: State, run: seq<Action>, id: ObjectID)
    requires Feasible(s, run)
    decreases |run|
  {
    run != [] ==> !WalksAway(s, run[0], id) && NobodyWalksAway(Apply(s, run[0]), run[1..], id)
  }

  // ---------- a dispatch that may run a handler has an actor that is in the manager ----------

  ghost predicate IsKept(s: State, r: ActorRef) { r in s.heap && !IsGone(s.heap[r].stage) }

  ghost predicate CoveredAt(s: State, id: ObjectID, t: ThreadId) {
    At(s, t) && s.dispatches[t].id == id && HandlerActor(s, t).Some? ==> IsKept(s, HandlerActor(s, t).value)
  }

  ghost predicate Covered(s: State, id: ObjectID) {
    forall t :: CoveredAt(s, id, t)
  }

  /** An actor leaves the manager only as the actor that its identity has there. */
  ghost predicate LeavesAsCurrent(s: State, s': State, r: ActorRef) {
    IsKept(s, r) && !IsKept(s', r) ==>
      IsCurrent(s.actors, s.heap[r].id, r) && s.heap[r].id !in s'.actors
  }

  lemma ObtainTakesNobody(s: State, t: ThreadId, step: ObtainStep, r: ActorRef)
    requires CanObtain(s, t, step) && Coherent(s) && IsKept(s, r)
    ensures IsKept(AfterObtain(s, t, step), r)
  {
    assert StarterOk(s, t);
  }

  lemma AbandonTakesCurrent(s: State, t: ThreadId, step: AbandonStep, r: ActorRef)
    requires CanAbandon(s, t, step) && Coherent(s)
    ensures LeavesAsCurrent(s, AfterAbandon(s, t, step), r)
  {
    assert VisitorOk(s, t);
  }

  lemma SweepTakesCurrent(s: State, t: ThreadId, step: SweepStep, r: ActorRef)
    requires CanSweep(s, t, step) && Coherent(s) && SweepsOk(s)
    ensures LeavesAsCurrent(s, AfterSweep(s, t, step), r)
  {
    var s' := AfterSweep(s, t, step);
    assert SweepOk(s, t) && ActorOk(s, r);
    match step
    case RemoveRequested => assert IdOk(s, s.sweeps[t].id);
    case RemoveIdle =>
      RemovedWereLive(s, s.actors.Keys);
      if IsKept(s, r) && !IsKept(s', r) {
        var i :| 0 <= i < |s.sweeps[t].candidates| && s.actors[s.sweeps[t].candidates[i]] == r;
        assert IdOk(s, s.sweeps[t].candidates[i]);
      }
    case CloseAll(_) =>
      RemovedWereLive(s, s.actors.Keys);
      if IsKept(s, r) && !IsKept(s', r) {
        var other :| other in s.actors && s.actors[other] == r;
        assert IdOk(s, other);
      }
    case _ =>
  }

  lemma ActorsLeaveAsCurrent(s: State, a: Action, r: ActorRef)
    requires Enabled(s, a) && Inv(s)
    ensures LeavesAsCurrent(s, Apply(s, a), r)
  {
    if IsKept(s, r) {
      match a
      case Obtain(t, step) => ObtainTakesNobody(s, t, step, r);
      case Abandon(t, step) => AbandonTakesCurrent(s, t, step, r);
      case Evict(t, step) => SweepTakesCurrent(s, t, step, r);
      case _ =>
    }
  }

  /** A dispatch gets an actor to run a handler on only while the actor is in the manager. */
  ghost predicate ComesByKept(s: State, s': State, t: ThreadId) {
    HandlerActor(s', t).Some? ==>
      HandlerActor(s, t) == HandlerActor(s', t) || IsKept(s', HandlerActor(s', t).value)
  }

  lemma ObtainComesByKept(s: State, t: ThreadId, step: ObtainStep)
    requires CanObtain(s, t, step) && Coherent(s)
    ensures ComesByKept(s, AfterObtain(s, t, step), t)
  {
    if At(s, t) {
      assert StarterOk(s, t) && IdOk(s, s.dispatches[t].id);
      match step
      case LookUp(c) =>
        if s.dispatches[t].id in s.starts { assert CallOk(s, s.starts[s.dispatches[t].id]); }
      case Publish => NothingToDisplace(s, t);
      case _ =>
    }
  }

  lemma PassComesByKept(s: State, t: ThreadId, step: GateStep)
    requires CanPass(s, t, step) && Coherent(s)
    ensures ComesByKept(s, AfterPass(s, t, step), t)
  {
    assert VisitorOk(s, t);
  }

  lemma HandleComesByKept(s: State, t: ThreadId, step: HandleStep)
    requires CanHandle(s, t, step)
    ensures ComesByKept(s, AfterHandle(s, t, step), t)
  {
  }

  lemma AbandonComesByKept(s: State, t: ThreadId, step: AbandonStep)
    requires CanAbandon(s, t, step)
    ensures ComesByKept(s, AfterAbandon(s, t, step), t)
  {
  }

  lemma DoomIsForGood(s: State, a: Action, r: ActorRef)
    requires Enabled(s, a) && Inv(s) && IsDoomed(s, r)
    ensures IsDoomed(Apply(s, a), r)
  {
    StepKeepsInv(s, a);
    assert ActorForward(s, Apply(s, a), r) && ActorOk(s, r);
    if !s.heap[r].poisoned {
      DoomedGetsPoisoned(s, a, r);
    }
  }

  lemma DoomedGetsPoisoned(s: State, a: Action, r: ActorRef)
    requires Enabled(s, a) && r in s.heap && s.heap[r].gate.Some? && IsHolder(s, s.heap[r].gate.value, r)
    requires s.dispatches[s.heap[r].gate.value].pc.phase.Poisoning?
    requires Coherent(s)
    ensures IsDoomed(Apply(s, a), r)
  {
    var t := s.heap[r].gate.value;
    if a.Evict? || a.t != t {
      StepTouchesOne(s, a, t);
      GatesAreLeftByHolders(s, a, r);
    }
  }

  /** Nobody but its holder gives up a gate. */
  lemma GatesAreLeftByHolders(s: State, a: Action, r: ActorRef)
    requires Enabled(s, a) && Coherent(s) && r in s.heap && s.heap[r].gate.Some? && (a.Evict? || a.t != s.heap[r].gate.value)
    ensures r in Apply(s, a).heap && Apply(s, a).heap[r].gate == s.heap[r].gate
  {
    assert VisitorOk(s, a.t) && StarterOk(s, a.t);
  }

  /** Somebody else's step can only hand an actor to a dispatch that waits for its start. */
  lemma OthersComeByKept(s: State, a: Action, t: ThreadId)
    requires Enabled(s, a) && Inv(s) && (a.Evict? || a.t != t)
    ensures ComesByKept(s, Apply(s, a), t)
  {
    var s' := Apply(s, a);
    StepTouchesOne(s, a, t);
    StepKeepsInv(s, a);
    if At(s, t) && HandlerActor(s', t).Some? {
      var r := HandlerActor(s', t).value;
      if IsDoomed(s, r) { DoomIsForGood(s, a, r); }
      if s.dispatches[t].pc.WaitingForStart? {
        WaitersComeByKept(s, a, t);
      } else {
        VisitorsKeepTheirs(s, s', t);
      }
    }
  }

  lemma VisitorsKeepTheirs(s: State, s': State, t: ThreadId)
    requires Inv(s) && Forward(s, s') && At(s, t) && At(s', t) && s'.dispatches[t] == s.dispatches[t]
    requires !s.dispatches[t].pc.WaitingForStart?
    requires HandlerActor(s', t).Some? && IsDoomed(s, HandlerActor(s', t).value) ==> IsDoomed(s', HandlerActor(s', t).value)
    ensures ComesByKept(s, s', t)
  {
    assert VisitorOk(s, t);
    if HasActor(s.dispatches[t].pc) {
      assert ActorForward(s, s', s.dispatches[t].pc.actor);
    }
  }

  lemma WaitersComeByKept(s: State, a: Action, t: ThreadId)
    requires Enabled(s, a) && Inv(s) && Forward(s, Apply(s, a)) && Coherent(Apply(s, a))
    requires At(s, t) && s.dispatches[t].pc.WaitingForStart?
    requires At(Apply(s, a), t) && Apply(s, a).dispatches[t] == s.dispatches[t]
    requires var r := HandlerActor(Apply(s, a), t); r.Some? && IsDoomed(s, r.value) ==> IsDoomed(Apply(s, a), r.value)
    ensures ComesByKept(s, Apply(s, a), t)
  {
    var s' := Apply(s, a);
    var c := s.dispatches[t].pc.call;
    assert CallForward(s, s', c) && CallOk(s, c) && CallOk(s', c);
    if c in s'.calls && s'.calls[c].Resolved? && s'.calls[c].result.Got? {
      var r := s'.calls[c].result.actor;
      assert ActorForward(s, s', r);
      if !(c in s.calls && s.calls[c].Resolved?) {
        ActorsLeaveAsCurrent(s, a, r);
        UnpublishedIsNotCurrent(s, r);
      }
    }
  }

  lemma UnpublishedIsNotCurrent(s: State, r: ActorRef)
    requires Coherent(s) && r in s.heap && s.heap[r].stage.Unpublished?
    ensures !IsCurrent(s.actors, s.heap[r].id, r)
  {
    assert IdOk(s, s.heap[r].id);
  }

  lemma StepComesByKept(s: State, a: Action, t: ThreadId)
    requires Enabled(s, a) && Inv(s)
    ensures ComesByKept(s, Apply(s, a), t)
  {
    if a.Evict? || a.t != t {
      OthersComeByKept(s, a, t);
    } else {
      match a
      case Obtain(_, step) => ObtainComesByKept(s, t, step);
      case Pass(_, step) => PassComesByKept(s, t, step);
      case Handle(_, step) => HandleComesByKept(s, t, step);
      case Abandon(_, step) => AbandonComesByKept(s, t, step);
    }
  }

  lemma HandlerActorsAreOwn(s: State, t: ThreadId)
    requires Inv(s) && HandlerActor(s, t).Some?
    ensures var r := HandlerActor(s, t).value;
            r in s.heap && s.heap[r].id == s.dispatches[t].id && !s.heap[r].stage.Unpublished?
  {
    assert VisitorOk(s, t) && StarterOk(s, t);
    if s.dispatches[t].pc.WaitingForStart? {
      assert CallOk(s, s.dispatches[t].pc.call);
    }
  }

  lemma EvictedUnder(s: State, a: Action, id: ObjectID, t: ThreadId)
    requires Enabled(s, a) && HandlerActor(s, t).Some?
    requires var r := HandlerActor(s, t).value;
             id in s.actors && s.actors[id] == r && id !in Apply(s, a).actors
    ensures Evicts(s, a, id)
  {
    assert HandlerActor(s, t) == Some(s.actors[id]);
  }

  lemma StepKeepsCovered(s: State, a: Action, id: ObjectID, t: ThreadId)
    requires Enabled(s, a) && Inv(s) && CoveredAt(s, id, t) && !Evicts(s, a, id)
    ensures CoveredAt(Apply(s, a), id, t)
  {
    var s' := Apply(s, a);
    var h := HandlerActor(s', t);
    StepComesByKept(s, a, t);
    if At(s', t) && s'.dispatches[t].id == id && h.Some? && HandlerActor(s, t) == h {
      StepKeepsInv(s, a);
      assert DispatchForward(s, s', t);
      HandlerActorsAreOwn(s, t);
      ActorsLeaveAsCurrent(s, a, h.value);
      if !IsKept(s', h.value) {
        EvictedUnder(s, a, id, t);
      }
    }
  }

  // ---------- one handler at a time ----------

  predicate IsPending(s: State, id: ObjectID, t: ThreadId) {
    At(s, t) && s.dispatches[t].id == id && s.dispatches[t].promise.Pending?
  }

  /** A pending handler of `id` is waited for by the dispatch that holds the gate, and nobody has written since it read. */
  ghost predicate PendingOk<V>(w: World<V>, id: ObjectID, t: ThreadId) {
    IsPending(w.s, id, t) ==> Awaits(w.s.dispatches[t]) && t in w.read && NoWriteSince(w.order, id, w.read[t].at)
  }

  ghost predicate SerialOk<V>(w: World<V>, id: ObjectID) {
    && Inv(w.s) && Covered(w.s, id)
    && NoOverlap(w.order, id)
    && forall t :: PendingOk(w, id, t)
  }

  /** Two dispatches that may each run a handler inside an actor of an identity are the same dispatch. */
  lemma OneInside(s: State, id: ObjectID, t: ThreadId, u: ThreadId)
    requires Coherent(s) && CoveredAt(s, id, t) && CoveredAt(s, id, u)
    requires At(s, t) && s.dispatches[t].pc.Inside? && s.dispatches[t].id == id && HandlerActor(s, t).Some?
    requires At(s, u) && s.dispatches[u].pc.Inside? && s.dispatches[u].id == id && HandlerActor(s, u).Some?
    ensures t == u
  {
    assert VisitorOk(s, t) && VisitorOk(s, u);
    assert ActorOk(s, s.dispatches[t].pc.actor) && ActorOk(s, s.dispatches[u].pc.actor);
  }

  /** A write of `id` comes from a handler that nobody overlapped, and from the only one that is at work. */
  lemma WriterIsAlone<V>(p: Program<V>, w: World<V>, a: Action, id: ObjectID)
    requires Enabled(w.s, a) && SerialOk(w, id)
    requires EffectOf(w, a) != Nothing && w.s.dispatches[a.t].id == id
    ensures EffectOf(w, a).WritesAtOnce? || EffectOf(w, a).WritesLater? ==>
              NoWriteSince(w.order, id, ReadOf(p, w, a).at)
    ensures forall t | t != a.t :: !IsPending(w.s, id, t)
  {
    assert PendingOk(w, id, a.t) && CoveredAt(w.s, id, a.t);
    forall t | t != a.t ensures !IsPending(w.s, id, t) {
      assert PendingOk(w, id, t) && CoveredAt(w.s, id, t);
      if IsPending(w.s, id, t) {
        OneInside(w.s, id, t, a.t);
      }
    }
  }

  lemma StepKeepsNoOverlap<V>(p: Program<V>, w: World<V>, a: Action, id: ObjectID)
    requires Enabled(w.s, a) && SerialOk(w, id) && StoreOk(p, w)
    ensures NoOverlap(WorldAfter(p, w, a).order, id)
  {
    if EffectOf(w, a).WritesAtOnce? || EffectOf(w, a).WritesLater? {
      WriterKnows(p, w, a);
      if w.s.dispatches[a.t].id == id {
        WriterIsAlone(p, w, a, id);
      }
    }
  }

  /** If a handler of the dispatch is pending after its step, it just became so, or the dispatch goes on waiting. */
  ghost predicate OwnPendingOk(s: State, s': State, t: ThreadId, id: ObjectID, begins: bool) {
    IsPending(s', id, t) ==> At(s, t) && Awaits(s'.dispatches[t]) && (begins || IsPending(s, id, t))
  }

  lemma OwnPendingKept(s: State, a: Action, id: ObjectID)
    requires Enabled(s, a) && !a.Evict? && !WalksAway(s, a, id)
    requires IsPending(s, id, a.t) ==> Awaits(s.dispatches[a.t])
    ensures OwnPendingOk(s, Apply(s, a), a.t, id, a == Handle(a.t, FinishHandler(Pending)))
  {
  }

  lemma OthersDoNotBecomePending(s: State, a: Action, id: ObjectID, t: ThreadId)
    requires Enabled(s, a) && (a.Evict? || t != a.t)
    ensures IsPending(Apply(s, a), id, t) ==> IsPending(s, id, t) && Apply(s, a).dispatches[t] == s.dispatches[t]
  {
    StepTouchesOne(s, a, t);
  }

  lemma OthersStayPending<V>(p: Program<V>, w: World<V>, a: Action, id: ObjectID, t: ThreadId)
    requires Enabled(w.s, a) && SerialOk(w, id) && (a.Evict? || t != a.t)
    ensures PendingOk(WorldAfter(p, w, a), id, t)
  {
    assert PendingOk(w, id, t);
    OthersDoNotBecomePending(w.s, a, id, t);
    OrderGrows(p, w, a);
    if EffectOf(w, a) != Nothing && w.s.dispatches[a.t].id == id {
      WriterIsAlone(p, w, a, id);
    }
  }

  lemma OwnStaysPending<V>(p: Program<V>, w: World<V>, a: Action, id: ObjectID)
    requires Enabled(w.s, a) && SerialOk(w, id) && !WalksAway(w.s, a, id) && !a.Evict?
    ensures PendingOk(WorldAfter(p, w, a), id, a.t)
  {
    assert PendingOk(w, id, a.t);
    OwnPendingKept(w.s, a, id);
  }

  lemma StepKeepsPending<V>(p: Program<V>, w: World<V>, a: Action, id: ObjectID, t: ThreadId)
    requires Enabled(w.s, a) && SerialOk(w, id) && !WalksAway(w.s, a, id)
    ensures PendingOk(WorldAfter(p, w, a), id, t)
  {
    if a.Evict? || t != a.t {
      OthersStayPending(p, w, a, id, t);
    } else {
      OwnStaysPending(p, w, a, id);
    }
  }

  lemma StepKeepsSerial<V>(p: Program<V>, w: World<V>, a: Action, id: ObjectID)
    requires Enabled(w.s, a) && SerialOk(w, id) && StoreOk(p, w) && !WalksAway(w.s, a, id) && !Evicts(w.s, a, id)
    ensures SerialOk(WorldAfter(p, w, a), id)
  {
    StepKeepsInv(w.s, a);
    forall t ensures CoveredAt(Apply(w.s, a), id, t) { StepKeepsCovered(w.s, a, id, t); }
    StepKeepsNoOverlap(p, w, a, id);
    forall t ensures PendingOk(WorldAfter(p, w, a), id, t) { StepKeepsPending(p, w, a, id, t); }
  }

  lemma {:induction false} RunKeepsSerial<V>(p: Program<V>, w: World<V>, run: seq<Action>, id: ObjectID)
    requires Feasible(w.s, run) && SerialOk(w, id) && StoreOk(p, w)
    requires NobodyEvicts(w.s, run, id) && NobodyWalksAway(w.s, run, id)
    ensures SerialOk(WorldRun(p, w, run), id)
    decreases |run|
  {
    if run != [] {
      StepKeepsStore(p, w, run[0]);
      StepKeepsSerial(p, w, run[0], id);
      RunKeepsSerial(p, WorldAfter(p, w, run[0]), run[1..], id);
    }
  }

  /**
   * Handlers are serialised: however their steps interleave, and however often the object's actor is evicted and started
   * again, no write falls between the read and the write of another handler, and the stored value is what whole handlers
   * leave behind when they run one after the other in the order of their writes; provided that nobody takes an actor of
   * that identity out of the manager under a dispatch that may still run a handler on it, and nobody walks away from one
   * of its pending handlers.
   */
  lemma HandlersAreSerialised<V>(p: Program<V>, manifest: Manifests.Manifest, run: seq<Action>, id: ObjectID)
    requires Feasible(Init(manifest), run)
    requires NobodyEvicts(Init(manifest), run, id) && NobodyWalksAway(Init(manifest), run, id)
    ensures var w := WorldRun(p, Beginning(manifest), run);
            NoOverlap(w.order, id) && Value(p, w, id) == Replay(p, w.order, id)
  {
    RunKeepsSerial(p, Beginning(manifest), run, id);
    StoreFollowsWrites(p, manifest, run, id);
    NoOverlapMeansReplay(p, WorldRun(p, Beginning(manifest), run).order, id);
  }
}
