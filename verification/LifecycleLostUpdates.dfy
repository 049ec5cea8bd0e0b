/** Both conditions for serialised handlers are needed: two runs that lose an increment. */
module LifecycleLostUpdates {
  import opened Wrappers
  import opened Lifecycle
  import opened LifecycleSerial
  import opened LifecycleIncrements
  import opened LifecycleScenarios

  /** A run in which what is not allowed does not happen to `A`. */
  ghost predicate IsCalm(s: State, run: seq<Action>, evicting: bool, walking: bool)
    requires Feasible(s, run)
  {
    (evicting || NobodyEvicts(s, run, A)) && (walking || NobodyWalksAway(s, run, A))
  }

  /** Dispatch 1 has written, and dispatch 0 has written over it what it had read before. */
  const LOST := [Write(1, A, 0), Write(0, A, 0)]

  /** There is such a run from `w` after which two increments have been written and the counter is 1. */
  ghost predicate CanLose(w: World<int>, evicting: bool, walking: bool) {
    exists run ::
      && Feasible(w.s, run) && IsCalm(w.s, run, evicting, walking)
      && WorldRun(COUNTER, w, run).order == LOST && Value(COUNTER, WorldRun(COUNTER, w, run), A) == 1
  }

  lemma LosesAfter(w: World<int>, a: Action, evicting: bool, walking: bool)
    requires Enabled(w.s, a) && CanLose(WorldAfter(COUNTER, w, a), evicting, walking)
    requires (evicting || !Evicts(w.s, a, A)) && (walking || !WalksAway(w.s, a, A))
    ensures CanLose(w, evicting, walking)
  {
    var w' := WorldAfter(COUNTER, w, a);
    OrderGrows(COUNTER, w, a);
    var more :| Feasible(w'.s, more) && IsCalm(w'.s, more, evicting, walking)
                && WorldRun(COUNTER, w', more).order == LOST && Value(COUNTER, WorldRun(COUNTER, w', more), A) == 1;
    var run := [a] + more;
    assert run[0] == a && run[1..] == more;
    assert WorldRun(COUNTER, w, run) == WorldRun(COUNTER, w', more);
  }

  lemma SilentStepsAreCalm(s: State, a: Action)
    requires Enabled(s, a) && IsSilent(a)
    ensures !Evicts(s, a, A) && !WalksAway(s, a, A)
  {
  }

  lemma {:induction false} LosesAfterRun(w: World<int>, run: seq<Action>, evicting: bool, walking: bool)
    requires Feasible(w.s, run) && forall a | a in run :: IsSilent(a)
    requires CanLose(w.(s := Run(w.s, run)), evicting, walking)
    ensures CanLose(w, evicting, walking)
    decreases |run|
  {
    if run == [] {
      assert w.(s := Run(w.s, run)) == w;
    } else {
      assert run[0] in run;
      SilentStepsAreCalm(w.s, run[0]);
      assert WorldAfter(COUNTER, w, run[0]) == w.(s := Apply(w.s, run[0]));
      LosesAfterRun(w.(s := Apply(w.s, run[0])), run[1..], evicting, walking);
      LosesAfter(w, run[0], evicting, walking);
    }
  }

  lemma LosesAfterSilently(w: World<int>, s': State, evicting: bool, walking: bool)
    requires Reaches(w.s, s') && CanLose(w.(s := s'), evicting, walking)
    ensures CanLose(w, evicting, walking)
  {
    var run :| Feasible(w.s, run) && Run(w.s, run) == s' && forall a | a in run :: IsSilent(a);
    LosesAfterRun(w, run, evicting, walking);
  }

  /** A dispatch of `A` on its first attempt whose handler has been invoked. */
  function Invoked(pc: Pc, promise: Promise): Dispatch {
    Newcomer(A, pc, 1).(promise := promise)
  }

  /** Actor 0 of `A` is in the manager, and the dispatches are as given. */
  function OneActor(gate: Option<ThreadId>, active: int, dispatches: map<ThreadId, Dispatch>): State {
    State(BOTH, map[A := 0], map[], map[0 := Resolved(A, Got(0))], map[0 := Actor(A, gate, false, active, Live)],
          dispatches, map[], None, [ActorStart(A)], map[])
  }

  /** The first handler of `A` has read 0 and waits. */
  function FirstWaits(): World<int> {
    World(OneActor(Some(0), 1, map[0 := Invoked(Inside(0, Detecting), Pending)]), map[], map[0 := Read(0, 0)], [])
  }

  lemma FirstReads(evicting: bool, walking: bool)
    requires CanLose(FirstWaits(), evicting, walking)
    ensures CanLose(Beginning(BOTH), evicting, walking)
  {
    var w0: World<int> := Beginning(BOTH);
    var s1 := OneActor(Some(0), 1, map[0 := Invoked(Inside(0, Invoking), NoPromise)]);
    FirstReading();
    LosesAfter(w0.(s := s1), Handle(0, FinishHandler(Pending)), evicting, walking);
    FirstIsBusy();
    LosesAfterSilently(w0, s1, evicting, walking);
  }

  lemma FirstIsBusy()
    ensures Reaches(Init(BOTH), OneActor(Some(0), 1, map[0 := Invoked(Inside(0, Invoking), NoPromise)]))
  {
    BothAreServed();
    ReachesItself(Init(BOTH));
    StartsAndInvokes(Init(BOTH), Init(BOTH), 0, A, 0, 0);
    assert WithBusy(Init(BOTH), 0, A, 0, 0) == OneActor(Some(0), 1, map[0 := Invoked(Inside(0, Invoking), NoPromise)]);
  }

  lemma FirstReading()
    ensures var w0: World<int> := Beginning(BOTH);
            var w1 := w0.(s := OneActor(Some(0), 1, map[0 := Invoked(Inside(0, Invoking), NoPromise)]));
            var a := Handle(0, FinishHandler(Pending));
            Enabled(w1.s, a) && WorldAfter(COUNTER, w1, a) == FirstWaits()
  {
    var w0: World<int> := Beginning(BOTH);
    var w1 := w0.(s := OneActor(Some(0), 1, map[0 := Invoked(Inside(0, Invoking), NoPromise)]));
    var w2 := WorldAfter(COUNTER, w1, Handle(0, FinishHandler(Pending)));
    assert w2.read == map[0 := Read(0, 0)] && w2.s.dispatches == FirstWaits().s.dispatches;
  }

  /** The second handler writes at once, and then the first one writes on top of it. */
  lemma BothWrite(w: World<int>, evicting: bool, walking: bool)
    requires w.store == map[] && w.order == [] && w.read == map[0 := Read(0, 0)]
    requires At(w.s, 0) && w.s.dispatches[0].promise.Pending? && w.s.dispatches[0].child.None? && w.s.dispatches[0].id == A
    requires At(w.s, 1) && w.s.dispatches[1].pc.Inside? && w.s.dispatches[1].pc.phase.Invoking?
    requires w.s.dispatches[1].child.None? && w.s.dispatches[1].id == A
    ensures CanLose(w, evicting, walking)
  {
    var first, second := Handle(1, FinishHandler(NoPromise)), Handle(0, Settle(Fulfilled));
    SecondWrites(w);
    var w1 := WorldAfter(COUNTER, w, first);
    FirstWritesOver(w1);
    var w2 := WorldAfter(COUNTER, w1, second);
    assert Feasible(w2.s, []) && IsCalm(w2.s, [], evicting, walking) && WorldRun(COUNTER, w2, []) == w2;
    LosesAfter(w1, second, evicting, walking);
    LosesAfter(w, first, evicting, walking);
  }

  lemma SecondWrites(w: World<int>)
    requires w.store == map[] && w.order == [] && At(w.s, 1)
    requires w.s.dispatches[1].pc.Inside? && w.s.dispatches[1].pc.phase.Invoking?
    requires w.s.dispatches[1].child.None? && w.s.dispatches[1].id == A
    ensures var a := Handle(1, FinishHandler(NoPromise));
            && Enabled(w.s, a) && !Evicts(w.s, a, A) && !WalksAway(w.s, a, A)
            && var w' := WorldAfter(COUNTER, w, a);
               && w'.order == [Write(1, A, 0)] && w'.read == w.read
               && (At(w.s, 0) ==> At(w'.s, 0) && w'.s.dispatches[0] == w.s.dispatches[0])
  {
  }

  lemma FirstWritesOver(w: World<int>)
    requires w.order == [Write(1, A, 0)] && w.read == map[0 := Read(0, 0)] && At(w.s, 0)
    requires w.s.dispatches[0].promise.Pending? && w.s.dispatches[0].child.None? && w.s.dispatches[0].id == A
    ensures var a := Handle(0, Settle(Fulfilled));
            && Enabled(w.s, a) && !Evicts(w.s, a, A) && !WalksAway(w.s, a, A)
            && var w' := WorldAfter(COUNTER, w, a);
               w'.order == LOST && Value(COUNTER, w', A) == 1
  {
  }

  // ---------- a dispatch that walks away ----------

  /** The first dispatch leaves at promise detection, which does not poison the actor. */
  lemma FirstWalksAway()
    requires CanLose(FirstWaits().(s := OneActor(None, 0, map[0 := Invoked(Done(Failure(Context)), Pending)])), false, true)
    ensures CanLose(FirstWaits(), false, true)
  {
    var s1 := OneActor(Some(0), 1, map[0 := Invoked(Inside(0, Releasing(Failure(Context))), Pending)]);
    var s3 := OneActor(None, 0, map[0 := Invoked(Done(Failure(Context)), Pending)]);
    FirstGoes();
    LosesAfterSilently(FirstWaits().(s := s1), s3, false, true);
    FirstStopsWaiting();
    LosesAfter(FirstWaits(), Handle(0, FailDetect(Context)), false, true);
  }

  lemma FirstStopsWaiting()
    ensures var w, a := FirstWaits(), Handle(0, FailDetect(Context));
            var s1 := OneActor(Some(0), 1, map[0 := Invoked(Inside(0, Releasing(Failure(Context))), Pending)]);
            Enabled(w.s, a) && WorldAfter(COUNTER, w, a) == w.(s := s1) && !Evicts(w.s, a, A)
  {
    var w, a := FirstWaits(), Handle(0, FailDetect(Context));
    var s1 := OneActor(Some(0), 1, map[0 := Invoked(Inside(0, Releasing(Failure(Context))), Pending)]);
    assert Apply(w.s, a).dispatches == s1.dispatches;
  }

  lemma FirstGoes()
    ensures Reaches(OneActor(Some(0), 1, map[0 := Invoked(Inside(0, Releasing(Failure(Context))), Pending)]),
                    OneActor(None, 0, map[0 := Invoked(Done(Failure(Context)), Pending)]))
  {
    var s1 := OneActor(Some(0), 1, map[0 := Invoked(Inside(0, Releasing(Failure(Context))), Pending)]);
    var s2 := OneActor(None, 1, map[0 := Invoked(Leaving(0, Failure(Context)), Pending)]);
    FirstReleases();
    FirstLeaves();
    ReachesItself(s1);
    ReachesNext(s1, s1, Pass(0, Release));
    ReachesNext(s1, s2, Pass(0, Leave));
  }

  lemma FirstReleases()
    ensures var s1 := OneActor(Some(0), 1, map[0 := Invoked(Inside(0, Releasing(Failure(Context))), Pending)]);
            var s2 := OneActor(None, 1, map[0 := Invoked(Leaving(0, Failure(Context)), Pending)]);
            Enabled(s1, Pass(0, Release)) && Apply(s1, Pass(0, Release)) == s2
  {
    var s1 := OneActor(Some(0), 1, map[0 := Invoked(Inside(0, Releasing(Failure(Context))), Pending)]);
    var s2 := OneActor(None, 1, map[0 := Invoked(Leaving(0, Failure(Context)), Pending)]);
    assert Apply(s1, Pass(0, Release)).dispatches == s2.dispatches && Apply(s1, Pass(0, Release)).heap == s2.heap;
  }

  lemma FirstLeaves()
    ensures var s2 := OneActor(None, 1, map[0 := Invoked(Leaving(0, Failure(Context)), Pending)]);
            var s3 := OneActor(None, 0, map[0 := Invoked(Done(Failure(Context)), Pending)]);
            Enabled(s2, Pass(0, Leave)) && Apply(s2, Pass(0, Leave)) == s3
  {
    var s2 := OneActor(None, 1, map[0 := Invoked(Leaving(0, Failure(Context)), Pending)]);
    var s3 := OneActor(None, 0, map[0 := Invoked(Done(Failure(Context)), Pending)]);
    assert Apply(s2, Pass(0, Leave)).dispatches == s3.dispatches && Apply(s2, Pass(0, Leave)).heap == s3.heap;
  }

  /** The second dispatch finds the actor and invokes its handler. */
  lemma SecondArrives()
    ensures var gone := Invoked(Done(Failure(Context)), Pending);
            Reaches(OneActor(None, 0, map[0 := gone]), OneActor(None, 0, map[0 := gone, 1 := Newcomer(A, Entering(0), 0)]))
  {
    var gone := Invoked(Done(Failure(Context)), Pending);
    var s0 := OneActor(None, 0, map[0 := gone]);
    var s1 := OneActor(None, 0, map[0 := gone, 1 := Newcomer(A, Lookup, 0)]);
    var s2 := OneActor(None, 0, map[0 := gone, 1 := Newcomer(A, Entering(0), 0)]);
    BothAreServed();
    ReachesItself(s0);
    ReachesNext(s0, s0, Obtain(1, Arrive(A)));
    assert Apply(s0, Obtain(1, Arrive(A))).dispatches == s1.dispatches;
    ReachesNext(s0, s1, Obtain(1, LookUp(1)));
    assert Apply(s1, Obtain(1, LookUp(1))).dispatches == s2.dispatches;
  }

  lemma SecondInvokes(s: State)
    ensures var gone := Invoked(Done(Failure(Context)), Pending);
            Reaches(s, OneActor(None, 0, map[0 := gone, 1 := Newcomer(A, Entering(0), 0)])) ==>
            Reaches(s, OneActor(Some(1), 1, map[0 := gone, 1 := Invoked(Inside(0, Invoking), NoPromise)]))
  {
    var gone := Invoked(Done(Failure(Context)), Pending);
    var s2 := OneActor(None, 0, map[0 := gone, 1 := Newcomer(A, Entering(0), 0)]);
    if Reaches(s, s2) {
      var before := OneActor(None, 0, map[0 := gone]).(actors := map[], calls := map[], heap := map[], log := []);
      assert WithEntering(before, 1, A, 0, 0) == s2;
      GoesToGate(s, before, 1, A, 0, 0);
      TakesGate(s, before, 1, A, 0, 0);
      Invokes(s, before, 1, A, 0, 0);
      assert WithBusy(before, 1, A, 0, 0) == OneActor(Some(1), 1, map[0 := gone, 1 := Invoked(Inside(0, Invoking), NoPromise)]);
    }
  }

  /**
   * Walking away loses an update: a run in which nobody evicts anybody under a dispatch that may run a handler, and after
   * which two increments have been written and the counter is 1.
   */
  lemma WalkingAwayLosesAnUpdate()
    ensures CanLose(Beginning(BOTH), false, true)
  {
    var gone := Invoked(Done(Failure(Context)), Pending);
    var s1 := OneActor(None, 0, map[0 := gone]);
    var s2 := OneActor(Some(1), 1, map[0 := gone, 1 := Invoked(Inside(0, Invoking), NoPromise)]);
    var w := FirstWaits().(s := s1);
    BothWrite(w.(s := s2), false, true);
    SecondArrives();
    SecondInvokes(s1);
    LosesAfterSilently(w, s2, false, true);
    FirstWalksAway();
    FirstReads(false, true);
  }

  // ---------- an actor that is taken out ----------

  /** Actor 0 of `A` has been taken out of the manager with its first handler still waited for. */
  function Evicted(): State {
    FirstWaits().s.(actors := map[], heap := map[0 := Actor(A, Some(0), false, 1, Removed(BySweep(9)))],
                    sweeps := map[9 := Sweeping(false, [0], false)])
  }

  lemma ActorIsEvicted()
    requires CanLose(FirstWaits().(s := Evicted()), true, false)
    ensures CanLose(FirstWaits(), true, false)
  {
    ActorGoes();
    LosesAfter(FirstWaits().(s := Asked()), Evict(9, RemoveRequested), true, false);
    EvictionIsAsked();
    LosesAfter(FirstWaits(), Evict(9, RequestEvict(A)), true, false);
  }

  function Asked(): State { FirstWaits().s.(sweeps := map[9 := EvictRequested(A)]) }

  lemma EvictionIsAsked()
    ensures var w, a := FirstWaits(), Evict(9, RequestEvict(A));
            Enabled(w.s, a) && WorldAfter(COUNTER, w, a) == w.(s := Asked()) && !WalksAway(w.s, a, A)
  {
    assert Apply(FirstWaits().s, Evict(9, RequestEvict(A))).sweeps == Asked().sweeps;
  }

  lemma ActorGoes()
    ensures Enabled(Asked(), Evict(9, RemoveRequested)) && Apply(Asked(), Evict(9, RemoveRequested)) == Evicted()
  {
    var got := Apply(Asked(), Evict(9, RemoveRequested));
    assert got.actors == map[] && got.heap == Evicted().heap && got.sweeps == Evicted().sweeps;
  }

  /** The second dispatch starts another actor and invokes its handler. */
  lemma SecondStarts()
    ensures var s3 := WithBusy(Evicted(), 1, A, 1, 1);
            && Reaches(Evicted(), s3)
            && s3.dispatches == map[0 := Invoked(Inside(0, Detecting), Pending), 1 := Invoked(Inside(1, Invoking), NoPromise)]
  {
    BothAreServed();
    ReachesItself(Evicted());
    StartsAndInvokes(Evicted(), Evicted(), 1, A, 1, 1);
  }

  /**
   * Evicting loses an update: a run in which nobody walks away from a pending handler, and after which two increments have
   * been written and the counter is 1.
   */
  lemma EvictionLosesAnUpdate()
    ensures CanLose(Beginning(BOTH), true, false)
  {
    var w := FirstWaits().(s := Evicted());
    var s3 := WithBusy(Evicted(), 1, A, 1, 1);
    SecondStarts();
    BothWrite(w.(s := s3), true, false);
    LosesAfterSilently(w, s3, true, false);
    ActorIsEvicted();
    FirstReads(true, false);
  }
}
