/** Dispatches that make no further calls come to an end, whatever order their steps are taken in. */
module LifecycleTermination {
  import opened Identity
  import opened Lifecycle
  import opened LifecycleHistory
  import opened LifecycleProgress
  import Manifests

  // ---------- how much a dispatch has before it ----------

  function PhaseRank(phase: Phase): nat {
    match phase
    case Holding => 28
    case Invoking => 26
    case Detecting => 24
    case Polling => 22
    case Poisoning => 20
    case PoisonedPresent => 19
    case EvictingOwn(_) => 18
    case Converting => 12
    case Releasing(_) => 10
  }

  function PcRank(pc: Pc): nat {
    match pc
    case Lookup => 50
    case Starting(_) => 47
    case WaitingForStart(_) => 45
    case StartReturned(_, _) => 43
    case Entering(_) => 32
    case AtGate(_) => 31
    case Inside(_, phase) => PhaseRank(phase)
    case Leaving(_, _) => 5
    case Done(_) => 0
  }

  function Rank(d: Dispatch): nat {
    (if d.attempt < 2 then (2 - d.attempt) * 60 else 0)
    + PcRank(d.pc) + (if d.promise.Pending? then 1 else 0) + (if d.child.Some? then 1 else 0)
  }

  /** A step of a dispatch that is there already and makes no new call: also every cancellation and failure. */
  predicate IsWork(a: Action) {
    !a.Evict? && !(a.Obtain? && a.obtain.Arrive?) && !(a.Handle? && a.handle.CallStub?)
  }

  lemma ObtainLowersRank(s: State, t: ThreadId, step: ObtainStep)
    requires CanObtain(s, t, step) && !step.Arrive?
    ensures Rank(AfterObtain(s, t, step).dispatches[t]) < Rank(s.dispatches[t])
  {
  }

  lemma PassLowersRank(s: State, t: ThreadId, step: GateStep)
    requires CanPass(s, t, step) && s.dispatches[t].attempt < 2
    ensures Rank(AfterPass(s, t, step).dispatches[t]) < Rank(s.dispatches[t])
  {
  }

  lemma HandleLowersRank(s: State, t: ThreadId, step: HandleStep)
    requires CanHandle(s, t, step) && !step.CallStub?
    ensures AfterHandle(s, t, step) == s || Rank(AfterHandle(s, t, step).dispatches[t]) < Rank(s.dispatches[t])
  {
  }

  lemma AbandonLowersRank(s: State, t: ThreadId, step: AbandonStep)
    requires CanAbandon(s, t, step)
    ensures Rank(AfterAbandon(s, t, step).dispatches[t]) < Rank(s.dispatches[t])
  {
  }

  /** The last attempt is over, so a dispatch that still takes steps of its own has attempts left. */
  lemma AttemptsLeft(s: State, t: ThreadId)
    requires Inv(s) && HasActorHere(s, t)
    ensures s.dispatches[t].attempt < 2
  {
    assert MemoryOk(s, t);
  }

  lemma WorkLowersRank(s: State, a: Action)
    requires Enabled(s, a) && Inv(s) && IsWork(a)
    ensures At(s, a.t) && At(Apply(s, a), a.t)
    ensures Apply(s, a) == s || Rank(Apply(s, a).dispatches[a.t]) < Rank(s.dispatches[a.t])
  {
    StepKeepsInv(s, a);
    assert DispatchForward(s, Apply(s, a), a.t);
    match a
    case Obtain(t, step) => ObtainLowersRank(s, t, step);
    case Pass(t, step) => AttemptsLeft(s, t); PassLowersRank(s, t, step);
    case Handle(t, step) => HandleLowersRank(s, t, step);
    case Abandon(t, step) => AbandonLowersRank(s, t, step);
  }

  // ---------- how much all of them have before them ----------

  ghost function Total(ds: map<ThreadId, Dispatch>, ts: set<ThreadId>): nat
    requires ts <= ds.Keys
  {
    if ts == {} then 0 else
      var t :| t in ts;
      Rank(ds[t]) + Total(ds, ts - {t})
  }

  lemma {:induction false} TotalSplits(ds: map<ThreadId, Dispatch>, ts: set<ThreadId>, t: ThreadId)
    requires ts <= ds.Keys && t in ts
    ensures Total(ds, ts) == Rank(ds[t]) + Total(ds, ts - {t})
  {
    var u :| u in ts && Total(ds, ts) == Rank(ds[u]) + Total(ds, ts - {u});
    if u != t {
      TotalSplits(ds, ts - {u}, t);
      TotalSplits(ds, ts - {t}, u);
      assert ts - {u} - {t} == ts - {t} - {u};
    }
  }

  lemma {:induction false} TotalsAgree(ds: map<ThreadId, Dispatch>, ds': map<ThreadId, Dispatch>, ts: set<ThreadId>)
    requires ts <= ds.Keys && ts <= ds'.Keys && forall t | t in ts :: ds[t] == ds'[t]
    ensures Total(ds, ts) == Total(ds', ts)
  {
    if ts != {} {
      var t :| t in ts;
      TotalSplits(ds, ts, t);
      TotalSplits(ds', ts, t);
      TotalsAgree(ds, ds', ts - {t});
    }
  }

  ghost function Work(s: State): nat { Total(s.dispatches, s.dispatches.Keys) }

  /** A step of one dispatch that neither arrives nor calls leaves the other dispatches as they are. */
  lemma WorkTouchesOne(s: State, a: Action)
    requires Enabled(s, a) && IsWork(a) && At(s, a.t)
    ensures Apply(s, a).dispatches.Keys == s.dispatches.Keys && Apply(s, a).mu == s.mu
    ensures forall u | At(s, u) && u != a.t :: Apply(s, a).dispatches[u] == s.dispatches[u]
  {
  }

  lemma WorkGetsLess(s: State, a: Action)
    requires Enabled(s, a) && Inv(s) && IsWork(a) && Apply(s, a) != s
    ensures Work(Apply(s, a)) < Work(s) && Apply(s, a).mu == s.mu
  {
    WorkLowersRank(s, a);
    WorkTouchesOne(s, a);
    var ds, ds' := s.dispatches, Apply(s, a).dispatches;
    TotalSplits(ds, ds.Keys, a.t);
    TotalSplits(ds', ds'.Keys, a.t);
    TotalsAgree(ds, ds', ds.Keys - {a.t});
  }

  // ---------- runs of such steps ----------

  /** Every step of the run changes something, and is work of a dispatch that is there already. */
  ghost predicate OnlyWorks(s: State, run: seq<Action>)
    requires Feasible(s, run)
    decreases |run|
  {
    run != [] ==> IsWork(run[0]) && Apply(s, run[0]) != s && OnlyWorks(Apply(s, run[0]), run[1..])
  }

  /**
   * However their steps are interleaved, and whatever is cancelled or fails, dispatches that make no further calls take at
   * most as many steps as they have work before them.
   */
  lemma {:induction false} WorkIsBounded(s: State, run: seq<Action>)
    requires Inv(s) && Feasible(s, run) && OnlyWorks(s, run)
    ensures |run| + Work(Run(s, run)) <= Work(s)
    decreases |run|
  {
    if run != [] {
      StepKeepsInv(s, run[0]);
      WorkGetsLess(s, run[0]);
      WorkIsBounded(Apply(s, run[0]), run[1..]);
    }
  }

  /** Every step of the run is one of those that progress is about. */
  ghost predicate OnlyAdvances(s: State, run: seq<Action>)
    requires Feasible(s, run)
    decreases |run|
  {
    run != [] ==> Advances(s, run[0]) && OnlyAdvances(Apply(s, run[0]), run[1..])
  }

  lemma ScanEndsOnce(s: State, a: Action)
    requires Enabled(s, a) && a.Evict? && a.evict.RemoveIdle? && s.mu.Some?
    ensures Apply(s, a).mu.None? && Work(Apply(s, a)) == Work(s)
  {
    assert Apply(s, a).dispatches == s.dispatches;
  }

  lemma {:induction false} RunThatEnds(below: (ObjectID, ObjectID) -> bool, s: State) returns (run: seq<Action>)
    requires IsStrictOrder(below) && Inv(s) && forall t :: NestingOk(below, s, t)
    ensures Feasible(s, run) && OnlyAdvances(s, run)
    ensures forall t :: !Unfinished(Run(s, run), t)
    decreases Work(s) + if s.mu.Some? then 1 else 0
  {
    if forall t :: !Unfinished(s, t) {
      run := [];
    } else {
      var t :| Unfinished(s, t);
      SomethingAdvances(below, s, t);
      var a :| Advances(s, a);
      if a.Evict? { ScanEndsOnce(s, a); } else { WorkGetsLess(s, a); }
      StepKeepsInv(s, a);
      StepKeepsNesting(below, s, a);
      var rest := RunThatEnds(below, Apply(s, a));
      run := [a] + rest;
      assert run[0] == a && run[1..] == rest;
    }
  }

  /**
   * All dispatches can end: if stub calls only ever went up some strict order on identities, every reachable state has a
   * continuation, without a cancellation and without a new call, after which every dispatch is done.
   */
  lemma DispatchesCanEnd(below: (ObjectID, ObjectID) -> bool, manifest: Manifests.Manifest, run: seq<Action>)
    requires IsStrictOrder(below)
    requires Feasible(Init(manifest), run) && CallsGoUp(below, Init(manifest), run)
    ensures exists more ::
              && Feasible(Run(Init(manifest), run), more) && OnlyAdvances(Run(Init(manifest), run), more)
              && forall t :: !Unfinished(Run(Run(Init(manifest), run), more), t)
  {
    RunKeepsNesting(below, Init(manifest), run);
    var more := RunThatEnds(below, Run(Init(manifest), run));
  }
}
