/** Counting with concurrent handlers: exactly when increments are lost, and when none can be. */
module LifecycleIncrements {
  import opened Identity
  import opened Lifecycle
  import opened LifecycleHistory
  import opened LifecycleSerial
  import Manifests

  /** The handler of the counter example: read, wait, write one more. */
  const COUNTER: Program<int> := Program(0, (t: ThreadId, v: int) => v + 1)

  // ---------- every handler writes at most once, and before its dispatch succeeds ----------

  function WritesOf(order: seq<Write>, t: ThreadId): nat {
    if order == [] then 0
    else WritesOf(order[..|order| - 1], t) + (if order[|order| - 1].t == t then 1 else 0)
  }

  lemma WritesAppend(order: seq<Write>, last: Write, t: ThreadId)
    ensures WritesOf(order + [last], t) == WritesOf(order, t) + (if last.t == t then 1 else 0)
  {
    assert (order + [last])[..|order|] == order;
  }

  /** The handler has come to its end without an error. */
  predicate HasSucceeded(d: Dispatch) {
    match d.pc
    case Inside(_, Converting) => true
    case Inside(_, Releasing(Success)) => true
    case Inside(_, Detecting) => d.promise.NoPromise? || d.promise.Fulfilled?
    case Inside(_, Polling) => d.promise.NoPromise? || d.promise.Fulfilled?
    case Leaving(_, Success) => true
    case Done(Success) => true
    case _ => false
  }

  predicate NotYetRun(pc: Pc) {
    BeforeInvocation(pc) || (pc.Inside? && pc.phase.Invoking?)
  }

  /** How many writes a dispatch can have made where it is. */
  predicate WritesFit(d: Dispatch, n: nat) {
    && n <= 1
    && (NotYetRun(d.pc) ==> d.promise.NoPromise?)
    && (NotYetRun(d.pc) || d.promise.Pending? ==> n == 0)
    && (HasSucceeded(d) ==> n == 1)
  }

  ghost predicate WritesOk(w: World<int>, t: ThreadId) {
    && (At(w.s, t) ==> WritesFit(w.s.dispatches[t], WritesOf(w.order, t)) && (w.s.dispatches[t].promise.Pending? ==> t in w.read))
    && (!At(w.s, t) ==> WritesOf(w.order, t) == 0)
    && forall e | e in w.order && e.t == t :: At(w.s, t) && w.s.dispatches[t].id == e.id
  }

  /** Whether the step makes its dispatch write. */
  predicate Writes(s: State, a: Action) {
    match a
    case Handle(t, FinishHandler(NoPromise)) => true
    case Handle(t, FinishHandler(Fulfilled)) => true
    case Handle(t, Settle(Fulfilled)) => true
    case _ => false
  }

  /** Only a handler that has read can be pending. */
  predicate PendingFits(d: Dispatch, d': Dispatch, begins: bool) {
    d'.promise.Pending? ==> d.promise.Pending? || begins
  }

  predicate ReadsNow(step: HandleStep) { step == FinishHandler(Pending) || step.CancelHandler? }

  lemma PassKeepsWrites(s: State, t: ThreadId, step: GateStep, n: nat)
    requires CanPass(s, t, step) && WritesFit(s.dispatches[t], n)
    ensures WritesFit(AfterPass(s, t, step).dispatches[t], n)
    ensures PendingFits(s.dispatches[t], AfterPass(s, t, step).dispatches[t], false)
  {
  }

  lemma HandleKeepsWrites(s: State, t: ThreadId, step: HandleStep, n: nat)
    requires CanHandle(s, t, step) && WritesFit(s.dispatches[t], n) && ErrorsOk(s, t)
    ensures WritesFit(AfterHandle(s, t, step).dispatches[t], n + (if Writes(s, Handle(t, step)) then 1 else 0))
    ensures PendingFits(s.dispatches[t], AfterHandle(s, t, step).dispatches[t], ReadsNow(step))
  {
    if step.Detect? || step.FailDetect? || step.ReadPromise? || step.FailRead? || step.Convert? {
      AwaitKeepsWrites(s, t, step, n);
    }
  }

  lemma AwaitKeepsWrites(s: State, t: ThreadId, step: HandleStep, n: nat)
    requires CanHandle(s, t, step) && WritesFit(s.dispatches[t], n) && ErrorsOk(s, t)
    requires step.Detect? || step.FailDetect? || step.ReadPromise? || step.FailRead? || step.Convert?
    ensures WritesFit(AfterHandle(s, t, step).dispatches[t], n)
    ensures PendingFits(s.dispatches[t], AfterHandle(s, t, step).dispatches[t], false)
  {
    AwaitIsLate(s, t, step);
  }

  /** Waiting for a promise never ends well unless it was fulfilled, or there was none. */
  lemma AwaitIsLate(s: State, t: ThreadId, step: HandleStep)
    requires CanHandle(s, t, step) && ErrorsOk(s, t)
    requires step.Detect? || step.FailDetect? || step.ReadPromise? || step.FailRead? || step.Convert?
    ensures var d, d' := s.dispatches[t], AfterHandle(s, t, step).dispatches[t];
            && !NotYetRun(d.pc) && !NotYetRun(d'.pc) && d'.promise == d.promise
            && (HasSucceeded(d') ==> HasSucceeded(d))
  {
  }

  lemma OwnWritesKept(s: State, s': State, a: Action, n: nat)
    requires Enabled(s, a) && s' == Apply(s, a) && HistoryOk(s) && !a.Evict? && At(s, a.t) && At(s', a.t)
    requires WritesFit(s.dispatches[a.t], n)
    ensures WritesFit(s'.dispatches[a.t], n + (if Writes(s, a) then 1 else 0))
    ensures PendingFits(s.dispatches[a.t], s'.dispatches[a.t], a.Handle? && ReadsNow(a.handle))
  {
    match a
    case Pass(t, step) => PassKeepsWrites(s, t, step, n);
    case Handle(t, step) => assert MemoryOk(s, t); HandleKeepsWrites(s, t, step, n);
    case _ =>
  }

  lemma EffectsMatch(w: World<int>, a: Action)
    requires Enabled(w.s, a) && WritesOk(w, a.t)
    ensures Writes(w.s, a) <==> EffectOf(w, a).WritesAtOnce? || EffectOf(w, a).WritesLater?
    ensures EffectOf(w, a).Reads? <==> a.Handle? && ReadsNow(a.handle)
  {
  }

  lemma WritesOkOfOthers(w: World<int>, w': World<int>, t: ThreadId)
    requires WritesOk(w, t) && Untouched(w.s, w'.s, t) && w.read.Keys <= w'.read.Keys
    requires w'.order == w.order || exists e: Write :: e.t != t && w'.order == w.order + [e]
    ensures WritesOk(w', t)
  {
    if w'.order != w.order {
      var e: Write :| e.t != t && w'.order == w.order + [e];
      WritesAppend(w.order, e, t);
    }
  }

  lemma OthersKeepWrites(w: World<int>, a: Action, t: ThreadId)
    requires Enabled(w.s, a) && WritesOk(w, t) && (a.Evict? || t != a.t)
    ensures WritesOk(WorldAfter(COUNTER, w, a), t)
  {
    StepTouchesOne(w.s, a, t);
    OrderGrows(COUNTER, w, a);
    WritesOkOfOthers(w, WorldAfter(COUNTER, w, a), t);
  }

  lemma OwnWritesOk(w: World<int>, a: Action)
    requires Enabled(w.s, a) && Inv(w.s) && WritesOk(w, a.t) && !a.Evict?
    ensures WritesOk(WorldAfter(COUNTER, w, a), a.t)
  {
    var w' := WorldAfter(COUNTER, w, a);
    var t := a.t;
    EffectsMatch(w, a);
    if At(w.s, t) {
      StepKeepsInv(w.s, a);
      assert DispatchForward(w.s, w'.s, t);
      OwnWritesKept(w.s, w'.s, a, WritesOf(w.order, t));
      OrderGrows(COUNTER, w, a);
      if w'.order != w.order {
        WritesAppend(w.order, w'.order[|w.order|], t);
      }
    } else {
      assert w'.order == w.order && w'.s == With(w.s, t, NewDispatch(w.s.manifest, a.obtain.id));
    }
  }

  lemma StepKeepsWrites(w: World<int>, a: Action, t: ThreadId)
    requires Enabled(w.s, a) && Inv(w.s) && forall u :: WritesOk(w, u)
    ensures WritesOk(WorldAfter(COUNTER, w, a), t)
  {
    assert WritesOk(w, t) && WritesOk(w, a.t);
    if a.Evict? || t != a.t {
      OthersKeepWrites(w, a, t);
    } else {
      OwnWritesOk(w, a);
    }
  }

  lemma {:induction false} RunKeepsWrites(w: World<int>, run: seq<Action>)
    requires Feasible(w.s, run) && Inv(w.s) && forall t :: WritesOk(w, t)
    ensures forall t :: WritesOk(WorldRun(COUNTER, w, run), t)
    decreases |run|
  {
    if run != [] {
      StepKeepsInv(w.s, run[0]);
      forall t ensures WritesOk(WorldAfter(COUNTER, w, run[0]), t) { StepKeepsWrites(w, run[0], t); }
      RunKeepsWrites(WorldAfter(COUNTER, w, run[0]), run[1..]);
    }
  }

  // ---------- when increments are lost ----------

  function WritesTo(order: seq<Write>, id: ObjectID): nat {
    if order == [] then 0
    else WritesTo(order[..|order| - 1], id) + (if order[|order| - 1].id == id then 1 else 0)
  }

  lemma {:induction false} FewerInPrefix(order: seq<Write>, id: ObjectID, n: nat)
    requires n <= |order|
    ensures WritesTo(order[..n], id) <= WritesTo(order, id)
    ensures WritesTo(order[..n], id) == WritesTo(order, id) <==> NoWriteSince(order, id, n)
    decreases |order|
  {
    if n == |order| {
      assert order[..n] == order;
    } else {
      var front := order[..|order| - 1];
      FewerInPrefix(front, id, n);
      assert front[..n] == order[..n];
    }
  }

  /** A write that overlaps another one loses it, and no later write makes up for that. */
  lemma {:induction false} LostIsLost(order: seq<Write>, id: ObjectID)
    requires WellRead(order)
    ensures Stored(COUNTER, order, id) <= WritesTo(order, id)
    ensures Stored(COUNTER, order, id) == WritesTo(order, id) <==> NoOverlap(order, id)
    decreases |order|
  {
    if order != [] {
      var front, last := order[..|order| - 1], order[|order| - 1];
      if last.id == id {
        LostIsLost(order[..last.since], id);
        FewerInPrefix(front, id, last.since);
        assert front[..last.since] == order[..last.since];
        OverlapOfLast(order, id);
      } else {
        LostIsLost(front, id);
        assert NoOverlap(front, id) ==> NoOverlap(order, id);
      }
    }
  }

  lemma OverlapOfLast(order: seq<Write>, id: ObjectID)
    requires order != [] && WellRead(order) && order[|order| - 1].id == id
    ensures var last := order[|order| - 1];
            NoOverlap(order, id)
            <==> NoOverlap(order[..last.since], id) && NoWriteSince(order[..|order| - 1], id, last.since)
  {
    var front, last := order[..|order| - 1], order[|order| - 1];
    if NoOverlap(order[..last.since], id) && NoWriteSince(front, id, last.since) {
      forall k | last.since <= k < |front| ensures order[k].id != id { assert front[k].id != id; }
      forall k, j | 0 <= k < |order| && order[k].id == id && order[k].since <= j < k ensures order[j].id != id {
        if k < last.since {
          assert order[..last.since][k] == order[k] && order[..last.since][j] == order[j];
        }
      }
    }
  }

  /** The dispatches of `id` whose handler has written. */
  function Writers(order: seq<Write>, id: ObjectID): set<ThreadId> {
    set e | e in order && e.id == id :: e.t
  }

  function Completed(s: State, id: ObjectID): set<ThreadId> {
    set t | t in s.dispatches && s.dispatches[t].id == id && s.dispatches[t].pc == Done(Success)
  }

  lemma {:induction false} WritersWriteOnce(order: seq<Write>, id: ObjectID)
    requires forall t :: WritesOf(order, t) <= 1
    ensures WritesTo(order, id) == |Writers(order, id)|
  {
    if order != [] {
      var front, last := order[..|order| - 1], order[|order| - 1];
      forall t ensures WritesOf(front, t) <= 1 { assert WritesOf(order, t) <= 1; }
      WritersWriteOnce(front, id);
      assert order == front + [last];
      assert WritesOf(order, last.t) <= 1;
      if last.t in Writers(front, id) {
        var e :| e in front && e.id == id && e.t == last.t;
        WrittenIsCounted(front, e);
      }
      assert Writers(order, id) == if last.id == id then Writers(front, id) + {last.t} else Writers(front, id);
    }
  }

  lemma {:induction false} WrittenIsCounted(order: seq<Write>, e: Write)
    requires e in order
    ensures WritesOf(order, e.t) >= 1
  {
    var front, last := order[..|order| - 1], order[|order| - 1];
    assert order == front + [last];
    if last != e {
      WrittenIsCounted(front, e);
    }
  }

  lemma {:induction false} CountedIsWritten(order: seq<Write>, t: ThreadId) returns (e: Write)
    requires WritesOf(order, t) >= 1
    ensures e in order && e.t == t
  {
    var front, last := order[..|order| - 1], order[|order| - 1];
    if last.t == t {
      e := last;
    } else {
      e := CountedIsWritten(front, t);
    }
  }

  lemma CompletedHaveWritten(w: World<int>, id: ObjectID)
    requires forall t :: WritesOk(w, t)
    ensures Completed(w.s, id) <= Writers(w.order, id)
  {
    forall t | t in Completed(w.s, id) ensures t in Writers(w.order, id) {
      assert WritesOk(w, t);
      var e := CountedIsWritten(w.order, t);
    }
  }

  /**
   * In every run whatsoever: the counter never exceeds the number of handlers that wrote; it equals that number if and
   * only if no write of the object fell between the read and the write of another handler; and every increment that was
   * reported done is among the writes.
   */
  lemma CounterIsExact(manifest: Manifests.Manifest, run: seq<Action>, id: ObjectID)
    requires Feasible(Init(manifest), run)
    ensures var w := WorldRun(COUNTER, Beginning(manifest), run);
            && Value(COUNTER, w, id) <= |Writers(w.order, id)|
            && (Value(COUNTER, w, id) == |Writers(w.order, id)| <==> NoOverlap(w.order, id))
            && Completed(Run(Init(manifest), run), id) <= Writers(w.order, id)
  {
    var w0: World<int> := Beginning(manifest);
    var w := WorldRun(COUNTER, w0, run);
    StoreFollowsWrites(COUNTER, manifest, run, id);
    LostIsLost(w.order, id);
    forall t ensures WritesOk(w0, t) {}
    RunKeepsWrites(w0, run);
    forall t ensures WritesOf(w.order, t) <= 1 { assert WritesOk(w, t); }
    WritersWriteOnce(w.order, id);
    WorldRunIsRun(COUNTER, w0, run);
    CompletedHaveWritten(w, id);
  }

  /**
   * If nobody evicts under a dispatch that may still run a handler, and nobody walks away, no increment is lost; and when
   * every writer has been reported done, N completed increments have added exactly N.
   */
  lemma IncrementsAddUp(manifest: Manifests.Manifest, run: seq<Action>, id: ObjectID)
    requires Feasible(Init(manifest), run)
    requires NobodyEvicts(Init(manifest), run, id) && NobodyWalksAway(Init(manifest), run, id)
    ensures var w := WorldRun(COUNTER, Beginning(manifest), run);
            var done := Completed(Run(Init(manifest), run), id);
            && Value(COUNTER, w, id) == |Writers(w.order, id)|
            && done <= Writers(w.order, id)
            && (Writers(w.order, id) <= done ==> Value(COUNTER, w, id) == |done|)
  {
    HandlersAreSerialised(COUNTER, manifest, run, id);
    CounterIsExact(manifest, run, id);
    var w := WorldRun(COUNTER, Beginning(manifest), run);
    if Writers(w.order, id) <= Completed(Run(Init(manifest), run), id) {
      assert Writers(w.order, id) == Completed(Run(Init(manifest), run), id);
    }
  }
}
