/** The life of actors as a step machine, in which steps of different threads interleave freely. */
module Lifecycle {
  import opened Wrappers
  import opened Identity
  import opened Manifests

  type ThreadId = nat
  type ActorRef = nat
  type CallRef = nat

  /**
   * What a dispatch can fail with. `Poisoned` is the sentinel that only the retry loop may see. `Exhausted` carries
   * the dispatch whose retry budget ran out. `Other` covers every error of constructors, handlers and storage.
   */
  datatype Error =
    | Poisoned
    | Exhausted(dispatch: ThreadId)
    | MissingId
    | UnknownNamespace
    | Context
    | Other(tag: nat)

  datatype Outcome = Success | Failure(error: Error)

  datatype Promise = NoPromise | Pending | Fulfilled | Rejected(error: Error)

  /** What a start call hands to everybody who waits for it. */
  datatype Started<A> = Got(actor: A) | NotStarted(error: Error)

  datatype StartCall = Running(id: ObjectID, starter: ThreadId) | Resolved(id: ObjectID, result: Started<ActorRef>)

  // ---------- actors ----------

  /** Whoever took an actor out of the manager and still has to report its eviction. */
  datatype Remover = ByDispatch(t: ThreadId) | BySweep(t: ThreadId)

  /** How far an actor has come. This is history: no step of the runtime reads it. */
  datatype Stage = Unpublished | Live | Removed(remover: Remover) | Evicted | ClosedOut

  datatype Actor = Actor(id: ObjectID, gate: Option<ThreadId>, poisoned: bool, active: int, stage: Stage)

  // ---------- dispatches ----------

  /** What a dispatch does while it holds the gate of an actor. */
  datatype Phase =
    | Holding
    | Invoking
    | Detecting
    | Polling
    | Poisoning
    | PoisonedPresent
    | EvictingOwn(removed: bool)
    | Converting
    | Releasing(result: Outcome)

  /** Where a call of `Manager.Dispatch` is. */
  datatype Pc =
    | Lookup
    | WaitingForStart(call: CallRef)
    | Starting(call: CallRef)
    | StartReturned(call: CallRef, started: Started<ActorRef>)
    | Entering(actor: ActorRef)
    | AtGate(actor: ActorRef)
    | Inside(actor: ActorRef, phase: Phase)
    | Leaving(actor: ActorRef, outcome: Outcome)
    | Done(outcome: Outcome)

  /**
   * `promise` is the handler's promise and `child` a synchronous stub call that the constructor or handler waits for.
   * The other fields are history: the actors it found poisoned, how often it invoked a handler, and the actors whose
   * pending promise it gave up while polling.
   */
  datatype Dispatch = Dispatch(
    id: ObjectID,
    attempt: nat,
    pc: Pc,
    promise: Promise,
    child: Option<ThreadId>,
    seen: seq<ActorRef>,
    invocations: nat,
    abandoned: set<ActorRef>)

  // ---------- evictors ----------

  /**
   * Calls of `Evict`, `EvictIdle` and `Close`. After its lock section a call has a list of removed actors; it poisons
   * the first, reports and closes it, and goes on with the next.
   */
  datatype Sweep =
    | EvictRequested(id: ObjectID)
    | IdleScan(candidates: seq<ObjectID>)
    | Sweeping(closing: bool, todo: seq<ActorRef>, headPoisoned: bool)

  /** What the manager reports. The machine leaves out the closing of runtimes, and with it the stop events. */
  datatype Event = ActorStart(id: ObjectID) | ActorEvict(id: ObjectID) | ActorStop(id: ObjectID, error: Option<Error>)

  datatype State = State(
    manifest: Manifest,
    actors: map<ObjectID, ActorRef>,
    starts: map<ObjectID, CallRef>,
    calls: map<CallRef, StartCall>,
    heap: map<ActorRef, Actor>,
    dispatches: map<ThreadId, Dispatch>,
    sweeps: map<ThreadId, Sweep>,
    mu: Option<ThreadId>,
    log: seq<Event>,
    thrown: map<ObjectID, set<Error>>)

  /**
   * The errors that nested calls have thrown at code of an identity. An object can keep an error and throw it much later,
   * from another handler; that it forgets them when its actor is replaced is not relied on.
   */
  function ThrownAt(s: State, id: ObjectID): set<Error> {
    if id in s.thrown then s.thrown[id] else {}
  }

  /** A nested call returns to code of an identity. */
  function ThrownWith(s: State, id: ObjectID, o: Outcome): map<ObjectID, set<Error>> {
    if o.Failure? then s.thrown[id := ThrownAt(s, id) + {o.error}] else s.thrown
  }

  function Init(manifest: Manifest): State {
    State(manifest, map[], map[], map[], map[], map[], map[], None, [], map[])
  }

  // ---------- the lock sections of the manager ----------

  datatype Found<A, C> = Hit(actor: A) | Join(call: C) | Start

  /** The first lock section of `getOrStart`. */
  function Find<A, C>(actors: map<ObjectID, A>, starts: map<ObjectID, C>, id: ObjectID): Found<A, C> {
    if id in actors then Hit(actors[id]) else if id in starts then Join(starts[id]) else Start
  }

  /** The second lock section of `getOrStart`: what every waiter gets, and the actors afterwards. */
  function PublishedResult<A>(actors: map<ObjectID, A>, id: ObjectID, result: Started<A>): Started<A> {
    if result.Got? && id in actors then Got(actors[id]) else result
  }

  function PublishedActors<A>(actors: map<ObjectID, A>, id: ObjectID, result: Started<A>): map<ObjectID, A> {
    if result.Got? && id !in actors then actors[id := result.actor] else actors
  }

  /** The lock section of `evictActor` when a certain actor is expected. */
  predicate IsCurrent<A(==)>(actors: map<ObjectID, A>, id: ObjectID, expected: A) {
    id in actors && actors[id] == expected
  }

  // ---------- small helpers ----------

  predicate HasActor(pc: Pc) { pc.Entering? || pc.AtGate? || pc.Inside? || pc.Leaving? }

  /** The dispatch is between the two atomic additions to `active`. */
  predicate IsCounted(pc: Pc) { pc.AtGate? || pc.Inside? || pc.Leaving? }

  predicate IsStarter(pc: Pc) { pc.Starting? || pc.StartReturned? }

  /** JavaScript runs on behalf of the dispatch, so stub calls can come from it. */
  predicate RunsCode(d: Dispatch) {
    || d.pc.Starting?
    || (d.pc.Inside? && d.pc.phase.Invoking?)
    || (Awaits(d) && d.promise.Pending?)
  }

  /** The dispatch finds out whether its handler has returned a promise, or waits for it. */
  predicate Awaits(d: Dispatch) { d.pc.Inside? && (d.pc.phase.Detecting? || d.pc.phase.Polling?) }

  /** The dispatch holds the gate of its actor and is in the given phase. */
  predicate InPhase(d: Dispatch, phase: Phase) { d.pc.Inside? && d.pc.phase == phase }

  function Next(d: Dispatch, phase: Phase): Dispatch
    requires d.pc.Inside?
  {
    d.(pc := Inside(d.pc.actor, phase))
  }

  /** Errors that JavaScript can end with: its own, a context error, or one that a stub call threw at it. */
  predicate CanRaise(s: State, d: Dispatch, e: Error) {
    e.Other? || e.Context? || e in ThrownAt(s, d.id)
  }

  function NewDispatch(m: Manifest, id: ObjectID): Dispatch {
    var pc := if id.IsZero() then Done(Failure(MissingId))
              else if m.ClassForNamespace(id.namespace).None? then Done(Failure(Error.UnknownNamespace))
              else Lookup;
    Dispatch(id, 0, pc, NoPromise, None, [], 0, {})
  }

  function With(s: State, t: ThreadId, d: Dispatch): State {
    s.(dispatches := s.dispatches[t := d])
  }

  function Goto(s: State, t: ThreadId, pc: Pc): State
    requires t in s.dispatches
  {
    With(s, t, s.dispatches[t].(pc := pc))
  }

  /** Every actor in `gone` moves on to `stage`. */
  function Restaged(heap: map<ActorRef, Actor>, gone: set<ActorRef>, stage: Stage): map<ActorRef, Actor> {
    map r | r in heap :: if r in gone then heap[r].(stage := stage) else heap[r]
  }

  // ---------- steps ----------

  /** Getting an actor from the manager. */
  datatype ObtainStep =
    | Arrive(id: ObjectID)
    | LookUp(call: CallRef)
    | Wake
    | CancelWait
    | FinishStart(actor: ActorRef)
    | FailStart(error: Error)
    | Publish

  /** Going in and out of an actor. */
  datatype GateStep = Enter | Acquire | CancelAcquire | CheckPoison | Release | Leave

  /** Running a constructor or handler, and waiting for the handler's promise. */
  datatype HandleStep =
    | CallStub(callee: ThreadId, target: ObjectID)
    | ReturnStub
    | FailHandler(error: Error)
    | FinishHandler(promise: Promise)
    | CancelHandler
    | Detect
    | FailDetect(error: Error)
    | Settle(promise: Promise)
    | ReadPromise
    | FailRead(error: Error)
    | Convert(outcome: Outcome)

  /** Giving up on a pending promise. */
  datatype AbandonStep = CancelPoll | SetPoison | RemoveOwn | ReportOwn

  /** `Evict`, `EvictIdle` and `Close`. */
  datatype SweepStep =
    | RequestEvict(id: ObjectID)
    | RemoveRequested
    | BeginIdleScan
    | CheckIdle(id: ObjectID)
    | RemoveIdle
    | CloseAll(order: seq<ActorRef>)
    | SweepPoison
    | SweepReport

  /**
   * A step of thread `t`; its arguments are what it is free to choose. A step is one lock section, one atomic operation,
   * one channel operation, or one return of code that the runtime cannot see into (a constructor, a handler, a result
   * conversion). Cancellation of a context is a step that may happen wherever the code listens for it.
   */
  datatype Action =
    | Obtain(t: ThreadId, obtain: ObtainStep)
    | Pass(t: ThreadId, pass: GateStep)
    | Handle(t: ThreadId, handle: HandleStep)
    | Abandon(t: ThreadId, abandon: AbandonStep)
    | Evict(t: ThreadId, evict: SweepStep)

  predicate At(s: State, t: ThreadId) { t in s.dispatches }

  predicate Fresh(s: State, t: ThreadId) { t !in s.dispatches && t !in s.sweeps }

  predicate HasActorHere(s: State, t: ThreadId) {
    At(s, t) && HasActor(s.dispatches[t].pc) && s.dispatches[t].pc.actor in s.heap
  }

  predicate IsEnumeration(order: seq<ActorRef>, refs: set<ActorRef>) {
    && (set r | r in order) == refs
    && forall i, j | 0 <= i < j < |order| :: order[i] != order[j]
  }

  predicate CanObtain(s: State, t: ThreadId, step: ObtainStep) {
    if step.Arrive? then Fresh(s, t) else
      && At(s, t)
      && var d := s.dispatches[t];
         match step
         case LookUp(c) => d.pc.Lookup? && s.mu.None? && c !in s.calls
         case Wake => d.pc.WaitingForStart? && d.pc.call in s.calls && s.calls[d.pc.call].Resolved?
         case CancelWait => d.pc.WaitingForStart?
         case FinishStart(r) => d.pc.Starting? && d.child.None? && r !in s.heap
         case FailStart(e) => d.pc.Starting? && CanRaise(s, d, e) && (d.child.None? || e.Context?)
         case Publish => d.pc.StartReturned? && s.mu.None?
         case Arrive(_) => false
  }

  predicate FitsPass(d: Dispatch, a: Actor, step: GateStep) {
    match step
    case Enter => d.pc.Entering?
    case Acquire => d.pc.AtGate? && a.gate.None?
    case CancelAcquire => d.pc.AtGate?
    case CheckPoison => InPhase(d, Holding)
    case Release => d.pc.Inside? && d.pc.phase.Releasing?
    case Leave => d.pc.Leaving?
  }

  predicate CanPass(s: State, t: ThreadId, step: GateStep) {
    HasActorHere(s, t) && FitsPass(s.dispatches[t], s.heap[s.dispatches[t].pc.actor], step)
  }

  predicate FitsHandle(d: Dispatch, step: HandleStep) {
    match step
    case CallStub(u, id) => RunsCode(d) && d.child.None? && id != d.id
    case ReturnStub => d.child.Some?
    case FailHandler(_) => InPhase(d, Invoking) && d.child.None?
    case FinishHandler(_) => InPhase(d, Invoking) && d.child.None?
    case CancelHandler => InPhase(d, Invoking)
    case Detect => InPhase(d, Detecting)
    case FailDetect(e) => InPhase(d, Detecting) && (e.Other? || e.Context?)
    case Settle(p) => d.promise.Pending? && d.child.None? && (p.Fulfilled? || p.Rejected?)
    case ReadPromise => InPhase(d, Polling) && d.child.None?
    case FailRead(e) => InPhase(d, Polling) && e.Other?
    case Convert(o) => InPhase(d, Converting) && (o.Failure? ==> o.error.Other? || o.error.Context?)
  }

  /** What code ends with, it must be able to raise. A caller cannot address its own identity; that is all that is ruled out. */
  predicate CanHandle(s: State, t: ThreadId, step: HandleStep) {
    && At(s, t) && FitsHandle(s.dispatches[t], step)
    && var d := s.dispatches[t];
       match step
       case CallStub(u, _) => Fresh(s, u)
       case ReturnStub => At(s, d.child.value) && s.dispatches[d.child.value].pc.Done?
       case FailHandler(e) => CanRaise(s, d, e)
       case FinishHandler(p) => p.Rejected? ==> CanRaise(s, d, p.error)
       case Settle(p) => p.Rejected? ==> CanRaise(s, d, p.error)
       case _ => true
  }

  predicate FitsAbandon(d: Dispatch, step: AbandonStep) {
    match step
    case CancelPoll => InPhase(d, Polling)
    case SetPoison => InPhase(d, Poisoning)
    case RemoveOwn => InPhase(d, PoisonedPresent)
    case ReportOwn => d.pc.Inside? && d.pc.phase.EvictingOwn?
  }

  predicate CanAbandon(s: State, t: ThreadId, step: AbandonStep) {
    HasActorHere(s, t) && FitsAbandon(s.dispatches[t], step) && (step.RemoveOwn? ==> s.mu.None?)
  }

  predicate CanSweep(s: State, t: ThreadId, step: SweepStep) {
    match step
    case RequestEvict(id) => Fresh(s, t)
    case RemoveRequested =>
      && t in s.sweeps && s.sweeps[t].EvictRequested? && s.mu.None?
      && (s.sweeps[t].id in s.actors ==> s.actors[s.sweeps[t].id] in s.heap)
    case BeginIdleScan => Fresh(s, t) && s.mu.None?
    case CheckIdle(id) =>
      && t in s.sweeps && s.sweeps[t].IdleScan? && id in s.actors && id !in s.sweeps[t].candidates
      && s.actors[id] in s.heap && s.heap[s.actors[id]].active <= 0
    case RemoveIdle => t in s.sweeps && s.sweeps[t].IdleScan? && forall id | id in s.sweeps[t].candidates :: id in s.actors
    case CloseAll(order) => Fresh(s, t) && s.mu.None? && IsEnumeration(order, s.actors.Values)
    case SweepPoison =>
      && t in s.sweeps && s.sweeps[t].Sweeping? && s.sweeps[t].todo != [] && !s.sweeps[t].headPoisoned
      && s.sweeps[t].todo[0] in s.heap
    case SweepReport =>
      && t in s.sweeps && s.sweeps[t].Sweeping? && s.sweeps[t].todo != [] && s.sweeps[t].headPoisoned
      && s.sweeps[t].todo[0] in s.heap
  }

  /** When a step can be taken. */
  predicate Enabled(s: State, a: Action) {
    match a
    case Obtain(t, step) => CanObtain(s, t, step)
    case Pass(t, step) => CanPass(s, t, step)
    case Handle(t, step) => CanHandle(s, t, step)
    case Abandon(t, step) => CanAbandon(s, t, step)
    case Evict(t, step) => CanSweep(s, t, step)
  }

  // ---------- what a step changes ----------

  /** Where the first lock section of `getOrStart` sends a dispatch; `c` is the call it makes if it has to start. */
  function Directed(d: Dispatch, found: Found<ActorRef, CallRef>, c: CallRef): Dispatch {
    match found
    case Hit(r) => d.(pc := Entering(r))
    case Join(call) => d.(pc := WaitingForStart(call))
    case Start => d.(pc := Starting(c))
  }

  /** Where `getOrStart` leads when it returns `result`. */
  function AfterGetOrStart(result: Started<ActorRef>): Pc {
    match result
    case Got(r) => Entering(r)
    case NotStarted(e) => Done(Failure(e))
  }

  function ObtainedDispatch(s: State, t: ThreadId, step: ObtainStep): Dispatch
    requires CanObtain(s, t, step)
  {
    if step.Arrive? then NewDispatch(s.manifest, step.id) else
      var d := s.dispatches[t];
      match step
      case LookUp(c) => Directed(d, Find(s.actors, s.starts, d.id), c)
      case Wake => d.(pc := AfterGetOrStart(s.calls[d.pc.call].result))
      case CancelWait => d.(pc := Done(Failure(Context)))
      case FinishStart(r) => d.(pc := StartReturned(d.pc.call, Got(r)))
      case FailStart(e) => d.(pc := StartReturned(d.pc.call, NotStarted(e)), child := None)
      case Publish => d.(pc := AfterGetOrStart(PublishedResult(s.actors, d.id, d.pc.started)))
  }

  /** The dispatch has to start the actor itself. */
  predicate Claims(s: State, t: ThreadId, step: ObtainStep)
    requires CanObtain(s, t, step)
  {
    step.LookUp? && Find(s.actors, s.starts, s.dispatches[t].id).Start?
  }

  function StartedHeap(s: State, t: ThreadId, step: ObtainStep): map<ActorRef, Actor>
    requires CanObtain(s, t, step)
  {
    match step
    case FinishStart(r) => s.heap[r := Actor(s.dispatches[t].id, None, false, 0, Unpublished)]
    case Publish =>
      var d := s.dispatches[t];
      var own := d.pc.started;
      if own.Got? && own.actor in s.heap && d.id !in s.actors
      then s.heap[own.actor := s.heap[own.actor].(stage := Live)] else s.heap
    case _ => s.heap
  }

  function StartedCalls(s: State, t: ThreadId, step: ObtainStep): map<CallRef, StartCall>
    requires CanObtain(s, t, step)
  {
    if Claims(s, t, step) then s.calls[step.call := Running(s.dispatches[t].id, t)]
    else if step.Publish? then
      var d := s.dispatches[t];
      s.calls[d.pc.call := Resolved(d.id, PublishedResult(s.actors, d.id, d.pc.started))]
    else s.calls
  }

  /** Steps of `getOrStart`; its two lock sections are `LookUp` and `Publish`. */
  function AfterObtain(s: State, t: ThreadId, step: ObtainStep): State
    requires CanObtain(s, t, step)
  {
    s.(dispatches := s.dispatches[t := ObtainedDispatch(s, t, step)],
       actors := if step.Publish? then PublishedActors(s.actors, s.dispatches[t].id, s.dispatches[t].pc.started)
                 else s.actors,
       starts := if Claims(s, t, step) then s.starts[s.dispatches[t].id := step.call]
                 else if step.Publish? then s.starts - {s.dispatches[t].id} else s.starts,
       calls := StartedCalls(s, t, step),
       heap := StartedHeap(s, t, step),
       log := if step.FinishStart? then s.log + [ActorStart(s.dispatches[t].id)] else s.log)
  }

  /** The end of `Actor.Dispatch` and the retry loop around it. */
  function LeftDispatch(t: ThreadId, d: Dispatch): Dispatch
    requires d.pc.Leaving?
  {
    if d.pc.outcome == Failure(Poisoned) then
      d.(pc := if d.attempt + 1 < 2 then Lookup else Done(Failure(Exhausted(t))),
         attempt := d.attempt + 1, seen := d.seen + [d.pc.actor])
    else d.(pc := Done(d.pc.outcome))
  }

  function PassedDispatch(t: ThreadId, d: Dispatch, a: Actor, step: GateStep): Dispatch
    requires FitsPass(d, a, step)
  {
    var r := d.pc.actor;
    match step
    case Enter => d.(pc := AtGate(r))
    case Acquire => d.(pc := Inside(r, Holding))
    case CancelAcquire => d.(pc := Leaving(r, Failure(Context)))
    case CheckPoison =>
      if a.poisoned then Next(d, Releasing(Failure(Poisoned)))
      else Next(d, Invoking).(promise := NoPromise, invocations := d.invocations + 1)
    case Release => d.(pc := Leaving(r, d.pc.phase.result))
    case Leave => LeftDispatch(t, d)
  }

  function PassedActor(t: ThreadId, a: Actor, step: GateStep): Actor {
    match step
    case Enter => a.(active := a.active + 1)
    case Acquire => a.(gate := Some(t))
    case Release => a.(gate := None)
    case Leave => a.(active := a.active - 1)
    case _ => a
  }

  function AfterPass(s: State, t: ThreadId, step: GateStep): State
    requires CanPass(s, t, step)
  {
    var d := s.dispatches[t];
    var a := s.heap[d.pc.actor];
    s.(dispatches := s.dispatches[t := PassedDispatch(t, d, a, step)],
       heap := s.heap[d.pc.actor := PassedActor(t, a, step)])
  }

  function ReadDispatch(d: Dispatch): Dispatch
    requires d.pc.Inside?
  {
    match d.promise
    case Fulfilled => Next(d, Converting)
    case Rejected(e) => Next(d, Releasing(Failure(e)))
    case _ => d
  }

  function HandledDispatch(d: Dispatch, step: HandleStep): Dispatch
    requires FitsHandle(d, step)
  {
    match step
    case CallStub(u, _) => d.(child := Some(u))
    case ReturnStub => d.(child := None)
    case FailHandler(e) => Next(d, Releasing(Failure(e)))
    case FinishHandler(p) => Next(d, Detecting).(promise := p)
    case CancelHandler => Next(d, Releasing(Failure(Context))).(promise := Pending, child := None)
    case Detect => Next(d, if d.promise.NoPromise? then Converting else Polling)
    case FailDetect(e) => Next(d, Releasing(Failure(e))).(child := None)
    case Settle(p) => d.(promise := p)
    case ReadPromise => ReadDispatch(d)
    case FailRead(e) => Next(d, Releasing(Failure(e))).(child := None)
    case Convert(o) => Next(d, Releasing(o))
  }

  function AfterHandle(s: State, t: ThreadId, step: HandleStep): State
    requires CanHandle(s, t, step)
  {
    var d := s.dispatches[t];
    var own := s.dispatches[t := HandledDispatch(d, step)];
    s.(dispatches := if step.CallStub? then own[step.callee := NewDispatch(s.manifest, step.target)] else own,
       thrown := if step.ReturnStub? then ThrownWith(s, d.id, s.dispatches[d.child.value].pc.outcome) else s.thrown)
  }

  /** `poisonAndEvict` and `evictActor` on behalf of a dispatch; whoever loses the compare-and-swap does not evict. */
  function AbandonedDispatch(d: Dispatch, a: Actor, current: bool, step: AbandonStep): Dispatch
    requires FitsAbandon(d, step)
  {
    match step
    case CancelPoll => Next(d, Poisoning).(child := None, abandoned := d.abandoned + {d.pc.actor})
    case SetPoison => Next(d, if a.poisoned then Releasing(Failure(Context)) else PoisonedPresent)
    case RemoveOwn => Next(d, EvictingOwn(current))
    case ReportOwn => Next(d, Releasing(Failure(Context)))
  }

  /** The compare-and-swap poisons, the lock section removes, and the eviction poisons again before it reports. */
  function AbandonedActor(t: ThreadId, d: Dispatch, a: Actor, current: bool, step: AbandonStep): Actor
    requires FitsAbandon(d, step)
  {
    match step
    case CancelPoll => a
    case SetPoison => a.(poisoned := true)
    case RemoveOwn => if current then a.(stage := Removed(ByDispatch(t))) else a
    case ReportOwn => if d.pc.phase.removed then a.(poisoned := true, stage := Evicted) else a.(poisoned := true)
  }

  function AfterAbandon(s: State, t: ThreadId, step: AbandonStep): State
    requires CanAbandon(s, t, step)
  {
    var d := s.dispatches[t];
    var r := d.pc.actor;
    var current := IsCurrent(s.actors, d.id, r);
    s.(dispatches := s.dispatches[t := AbandonedDispatch(d, s.heap[r], current, step)],
       heap := s.heap[r := AbandonedActor(t, d, s.heap[r], current, step)],
       actors := if step.RemoveOwn? && current then s.actors - {d.id} else s.actors,
       log := if step.ReportOwn? && d.pc.phase.removed then s.log + [ActorEvict(d.id)] else s.log)
  }

  // ---------- what a step of a sweep changes ----------

  function Refs(actors: map<ObjectID, ActorRef>, ids: seq<ObjectID>): (refs: seq<ActorRef>)
    requires forall id | id in ids :: id in actors
    ensures |refs| == |ids| && forall i | 0 <= i < |ids| :: refs[i] == actors[ids[i]]
  {
    seq(|ids|, i requires 0 <= i < |ids| => actors[ids[i]])
  }

  function SweptTask(s: State, t: ThreadId, step: SweepStep): Sweep
    requires CanSweep(s, t, step)
  {
    match step
    case RequestEvict(id) => EvictRequested(id)
    case RemoveRequested =>
      var id := s.sweeps[t].id;
      Sweeping(false, if id in s.actors then [s.actors[id]] else [], false)
    case BeginIdleScan => IdleScan([])
    case CheckIdle(id) => IdleScan(s.sweeps[t].candidates + [id])
    case RemoveIdle => Sweeping(false, Refs(s.actors, s.sweeps[t].candidates), false)
    case CloseAll(order) => Sweeping(true, order, false)
    case SweepPoison => s.sweeps[t].(headPoisoned := true)
    case SweepReport => Sweeping(s.sweeps[t].closing, s.sweeps[t].todo[1..], false)
  }

  function SweptActors(s: State, t: ThreadId, step: SweepStep): map<ObjectID, ActorRef>
    requires CanSweep(s, t, step)
  {
    match step
    case RemoveRequested => if s.sweeps[t].id in s.actors then s.actors - {s.sweeps[t].id} else s.actors
    case RemoveIdle => s.actors - (set id | id in s.sweeps[t].candidates)
    case CloseAll(_) => map[]
    case _ => s.actors
  }

  function SweptHeap(s: State, t: ThreadId, step: SweepStep): map<ActorRef, Actor>
    requires CanSweep(s, t, step)
  {
    match step
    case RemoveRequested =>
      if s.sweeps[t].id in s.actors then
        var r := s.actors[s.sweeps[t].id];
        s.heap[r := s.heap[r].(stage := Removed(BySweep(t)))]
      else s.heap
    case RemoveIdle =>
      Restaged(s.heap, (set r | r in Refs(s.actors, s.sweeps[t].candidates)), Removed(BySweep(t)))
    case CloseAll(_) => Restaged(s.heap, s.actors.Values, ClosedOut)
    case SweepPoison =>
      var r := s.sweeps[t].todo[0];
      s.heap[r := s.heap[r].(poisoned := true)]
    case SweepReport =>
      var r := s.sweeps[t].todo[0];
      if s.sweeps[t].closing then s.heap else s.heap[r := s.heap[r].(stage := Evicted)]
    case _ => s.heap
  }

  function AfterSweep(s: State, t: ThreadId, step: SweepStep): State
    requires CanSweep(s, t, step)
  {
    s.(sweeps := s.sweeps[t := SweptTask(s, t, step)],
       actors := SweptActors(s, t, step),
       heap := SweptHeap(s, t, step),
       mu := if step.BeginIdleScan? then Some(t) else if step.RemoveIdle? then None else s.mu,
       log := if step.SweepReport? && !s.sweeps[t].closing
              then s.log + [ActorEvict(s.heap[s.sweeps[t].todo[0]].id)] else s.log)
  }

  /** The state after a step. */
  function Apply(s: State, a: Action): State
    requires Enabled(s, a)
  {
    match a
    case Obtain(t, step) => AfterObtain(s, t, step)
    case Pass(t, step) => AfterPass(s, t, step)
    case Handle(t, step) => AfterHandle(s, t, step)
    case Abandon(t, step) => AfterAbandon(s, t, step)
    case Evict(t, step) => AfterSweep(s, t, step)
  }

  // ---------- runs ----------

  predicate Feasible(s: State, run: seq<Action>)
    decreases |run|
  {
    run == [] || (Enabled(s, run[0]) && Feasible(Apply(s, run[0]), run[1..]))
  }

  function Run(s: State, run: seq<Action>): State
    requires Feasible(s, run)
    decreases |run|
  {
    if run == [] then s else Run(Apply(s, run[0]), run[1..])
  }
}
