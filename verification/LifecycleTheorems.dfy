/** What the actor protocol promises, in every reachable state and over every run. */
module LifecycleTheorems {
  import opened Identity
  import opened Lifecycle
  import opened LifecycleInvariant
  import opened LifecycleHistory
  import opened LifecycleAdmission
  import Manifests

  // ---------- single flight ----------

  predicate Starts(s: State, t: ThreadId) { At(s, t) && IsStarter(s.dispatches[t].pc) }

  /**
   * An identity that is being started has no actor in the manager, and its starter is the only dispatch that starts
   * it; so whoever publishes finds no actor to displace.
   */
  lemma StartsAreSingleFlight(manifest: Manifests.Manifest, run: seq<Action>, t: ThreadId, u: ThreadId)
    requires Feasible(Init(manifest), run)
    ensures var s := Run(Init(manifest), run);
            && (forall id | id in s.starts :: id !in s.actors)
            && (Starts(s, t) && Starts(s, u) && s.dispatches[t].id == s.dispatches[u].id ==> t == u)
            && (Starts(s, t) ==> s.dispatches[t].id !in s.actors)
  {
    ReachableStatesHold(manifest, run);
    var s := Run(Init(manifest), run);
    forall id | id in s.starts ensures id !in s.actors { assert IdOk(s, id); }
    assert StarterOk(s, t) && StarterOk(s, u);
    if Starts(s, t) { assert IdOk(s, s.dispatches[t].id); }
  }

  /** Everyone who waits for a start call goes, whenever it wakes, where the starter went when it published. */
  lemma {:induction false} WaitersGetTheStartersResult(s: State, t: ThreadId, run: seq<Action>, u: ThreadId)
    requires Inv(s) && CanObtain(s, t, Publish)
    requires Feasible(Apply(s, Obtain(t, Publish)), run)
    requires var s2 := Run(Apply(s, Obtain(t, Publish)), run);
             CanObtain(s2, u, Wake) && s2.dispatches[u].pc.call == s.dispatches[t].pc.call
    ensures var s1 := Apply(s, Obtain(t, Publish));
            Apply(Run(s1, run), Obtain(u, Wake)).dispatches[u].pc == s1.dispatches[t].pc
  {
    var s1 := Apply(s, Obtain(t, Publish));
    StepKeepsInv(s, Obtain(t, Publish));
    ResolvedCallsStay(s1, run, s.dispatches[t].pc.call);
  }

  lemma {:induction false} ResolvedCallsStay(s: State, run: seq<Action>, c: CallRef)
    requires Inv(s) && Feasible(s, run) && c in s.calls && s.calls[c].Resolved?
    ensures c in Run(s, run).calls && Run(s, run).calls[c] == s.calls[c]
    decreases |run|
  {
    if run != [] {
      StepKeepsInv(s, run[0]);
      assert CallForward(s, Apply(s, run[0]), c);
      ResolvedCallsStay(Apply(s, run[0]), run[1..], c);
    }
  }

  /** The dispatch has made call `c` to start its identity, and has no actor to show for it. */
  predicate StartsInVain(s: State, t: ThreadId, c: CallRef) {
    && At(s, t) && IsStarter(s.dispatches[t].pc) && s.dispatches[t].pc.call == c
    && (s.dispatches[t].pc.StartReturned? ==> s.dispatches[t].pc.started.NotStarted?)
  }

  /** Call `c` of the dispatch has come to an actor, or to its end. */
  predicate HasStarted(s: State, t: ThreadId, c: CallRef) {
    || (c in s.calls && s.calls[c].Resolved?)
    || (At(s, t) && s.dispatches[t].pc.StartReturned? && s.dispatches[t].pc.call == c && s.dispatches[t].pc.started.Got?)
  }

  lemma StartStepsOn(s: State, a: Action, t: ThreadId, c: CallRef)
    requires Inv(s) && Enabled(s, a)
    ensures HasStarted(s, t, c) ==> HasStarted(Apply(s, a), t, c)
    ensures StartsInVain(s, t, c) ==> StartsInVain(Apply(s, a), t, c) || HasStarted(Apply(s, a), t, c)
  {
    StepKeepsInv(s, a);
    assert CallForward(s, Apply(s, a), c);
    if a.Evict? || a.t != t {
      StepTouchesOne(s, a, t);
    }
  }

  lemma {:induction false} StartedForGood(s: State, run: seq<Action>, t: ThreadId, c: CallRef)
    requires Inv(s) && Feasible(s, run) && HasStarted(s, t, c)
    ensures !StartsInVain(Run(s, run), t, c)
    decreases |run|
  {
    if run == [] {
      assert StarterOk(s, t);
    } else {
      StepKeepsInv(s, run[0]);
      StartStepsOn(s, run[0], t, c);
      StartedForGood(Apply(s, run[0]), run[1..], t, c);
    }
  }

  /** Throughout the run the identity has no actor in the manager, and none is started for it beyond those in `before`. */
  ghost predicate NeverGetsActor(s: State, run: seq<Action>, id: ObjectID, before: set<ActorRef>)
    requires Feasible(s, run)
    decreases |run|
  {
    && id !in s.actors && (forall r | r in s.heap && s.heap[r].id == id :: r in before)
    && (run != [] ==> NeverGetsActor(Apply(s, run[0]), run[1..], id, before))
  }

  /** While a dispatch starts its identity in vain, nobody else makes an actor for it. */
  lemma NobodyElseStarts(s: State, a: Action, t: ThreadId, c: CallRef, r: ActorRef)
    requires Inv(s) && Enabled(s, a) && StartsInVain(s, t, c) && StartsInVain(Apply(s, a), t, c)
    requires r in Apply(s, a).heap && Apply(s, a).heap[r].id == s.dispatches[t].id
    ensures r in s.heap && s.heap[r].id == s.dispatches[t].id
  {
    StepKeepsInv(s, a);
    assert ActorForward(s, Apply(s, a), r);
    assert StarterOk(s, t) && StarterOk(s, a.t);
    if r !in s.heap {
      ActorsComeFromStarts(s, a, r);
      assert false;
    }
  }

  lemma {:induction false} VainStartsGetNoActor(s: State, run: seq<Action>, t: ThreadId, c: CallRef, before: set<ActorRef>)
    requires Inv(s) && Feasible(s, run) && StartsInVain(s, t, c) && StartsInVain(Run(s, run), t, c)
    requires forall r | r in s.heap && s.heap[r].id == s.dispatches[t].id :: r in before
    ensures At(Run(s, run), t) && Run(s, run).dispatches[t].id == s.dispatches[t].id
    ensures NeverGetsActor(s, run, s.dispatches[t].id, before)
    decreases |run|
  {
    assert StarterOk(s, t) && IdOk(s, s.dispatches[t].id);
    if run != [] {
      var s' := Apply(s, run[0]);
      StepKeepsInv(s, run[0]);
      assert DispatchForward(s, s', t);
      StartStepsOn(s, run[0], t, c);
      if !StartsInVain(s', t, c) {
        StartedForGood(s', run[1..], t, c);
      }
      forall r | r in s'.heap && s'.heap[r].id == s'.dispatches[t].id ensures r in before {
        NobodyElseStarts(s, run[0], t, c, r);
      }
      VainStartsGetNoActor(s', run[1..], t, c, before);
    }
  }

  /**
   * A start that fails leaves nothing. From the lock section that claims it to the one that ends it, whatever happens
   * beside it, its identity gets no actor, in the manager or out of it; afterwards there is neither an actor nor a call of
   * the identity, the caller has the error, and whoever waits for the call finds the same error there.
   */
  lemma FailedStartLeavesNothing(s: State, t: ThreadId, c: CallRef, run: seq<Action>)
    requires Inv(s) && CanObtain(s, t, LookUp(c)) && Claims(s, t, LookUp(c))
    requires Feasible(Apply(s, Obtain(t, LookUp(c))), run)
    requires var s2 := Run(Apply(s, Obtain(t, LookUp(c))), run); StartsInVain(s2, t, c) && CanObtain(s2, t, Publish)
    ensures var id, s1 := s.dispatches[t].id, Apply(s, Obtain(t, LookUp(c)));
            var s2 := Run(s1, run);
            var error, s3 := s2.dispatches[t].pc.started.error, Apply(s2, Obtain(t, Publish));
            && NeverGetsActor(s1, run, id, set r | r in s.heap && s.heap[r].id == id)
            && id !in s3.actors && id !in s3.starts
            && s3.actors == s2.actors && s3.heap == s2.heap && s3.starts == s2.starts - {id}
            && s3.dispatches[t].pc == Done(Failure(error)) && s3.calls[c] == Resolved(id, NotStarted(error))
  {
    var s1 := Apply(s, Obtain(t, LookUp(c)));
    StepKeepsInv(s, Obtain(t, LookUp(c)));
    VainStartsGetNoActor(s1, run, t, c, set r | r in s.heap && s.heap[r].id == s.dispatches[t].id);
    RunKeepsInv(s1, run);
    assert StarterOk(Run(s1, run), t) && IdOk(Run(s1, run), s.dispatches[t].id);
  }

  // ---------- poison ----------

  /**
   * In every interleaving, a poisoned actor that is still in the manager has its gate held by the dispatch that is
   * between poisoning and removing it.
   */
  lemma PoisonedInManagerIsHeld(manifest: Manifests.Manifest, run: seq<Action>, id: ObjectID)
    requires Feasible(Init(manifest), run)
    requires id in Run(Init(manifest), run).actors
    ensures var s := Run(Init(manifest), run);
            var r := s.actors[id];
            && r in s.heap
            && (s.heap[r].poisoned ==>
                  && s.heap[r].gate.Some? && At(s, s.heap[r].gate.value)
                  && s.dispatches[s.heap[r].gate.value].pc == Inside(r, PoisonedPresent))
  {
    ReachableStatesHold(manifest, run);
    var s := Run(Init(manifest), run);
    assert IdOk(s, id) && ActorOk(s, s.actors[id]);
  }

  /**
   * A dispatch that found an actor poisoned never has it again: it is out of the manager, no start call hands it out,
   * and the dispatch is not at it.
   */
  lemma RetryNeverMeetsTheSameActor(manifest: Manifests.Manifest, run: seq<Action>, t: ThreadId, r: ActorRef)
    requires Feasible(Init(manifest), run)
    requires At(Run(Init(manifest), run), t) && r in Run(Init(manifest), run).dispatches[t].seen
    ensures var s := Run(Init(manifest), run);
            var d := s.dispatches[t];
            && r !in s.actors.Values
            && (HasActor(d.pc) ==> d.pc.actor != r)
            && (d.pc.WaitingForStart? ==> d.pc.call in s.calls
                                          && (s.calls[d.pc.call].Resolved? ==> s.calls[d.pc.call].result != Got(r)))
            && (d.pc.StartReturned? ==> d.pc.started != Got(r))
  {
    ReachableStatesHold(manifest, run);
    var s := Run(Init(manifest), run);
    assert MemoryOk(s, t) && StarterOk(s, t);
    assert IsRetired(s, r);
    forall id | id in s.actors ensures s.actors[id] != r { assert IdOk(s, id); }
  }

  /** Wherever the error of an exhausted retry budget shows up, the dispatch it names met two different poisoned actors. */
  lemma ExhaustionMeansTwoActors(manifest: Manifests.Manifest, run: seq<Action>, t: ThreadId, u: ThreadId)
    requires Feasible(Init(manifest), run)
    requires At(Run(Init(manifest), run), t)
    requires Run(Init(manifest), run).dispatches[t].pc == Done(Failure(Exhausted(u)))
    ensures SawTwo(Run(Init(manifest), run), u)
  {
    ReachableStatesHold(manifest, run);
    assert MemoryOk(Run(Init(manifest), run), t);
  }

  /** The step that starts a handler on actor `r`. */
  predicate Serves(s: State, a: Action, r: ActorRef)
    requires Enabled(s, a)
  {
    a.Pass? && a.pass.CheckPoison? && s.dispatches[a.t].pc.actor == r && !s.heap[r].poisoned
  }

  function TimesServed(s: State, run: seq<Action>, r: ActorRef): nat
    requires Feasible(s, run)
    decreases |run|
  {
    if run == [] then 0
    else (if Serves(s, run[0], r) then 1 else 0) + TimesServed(Apply(s, run[0]), run[1..], r)
  }

  /**
   * From the moment the polling loop gives up a promise because of a cancellation, no dispatch in any continuation of
   * the run invokes a handler on that actor.
   */
  lemma {:induction false} AbandonedActorNeverServes(s: State, t: ThreadId, r: ActorRef, run: seq<Action>)
    requires Inv(s) && At(s, t) && r in s.dispatches[t].abandoned
    requires Feasible(s, run)
    ensures TimesServed(s, run, r) == 0
    decreases |run|
  {
    if run != [] {
      var s' := Apply(s, run[0]);
      StepKeepsInv(s, run[0]);
      assert DispatchForward(s, s', t);
      assert MemoryOk(s, t) && VisitorOk(s, t) && VisitorOk(s, run[0].t);
      AbandonedActorNeverServes(s', t, r, run[1..]);
    }
  }

  /** In particular the actor whose pending promise a cancelled dispatch has just given up, whatever happens next. */
  lemma CancelledActorNeverServes(s: State, t: ThreadId, run: seq<Action>)
    requires Inv(s) && CanAbandon(s, t, CancelPoll)
    requires Feasible(Apply(s, Abandon(t, CancelPoll)), run)
    ensures TimesServed(Apply(s, Abandon(t, CancelPoll)), run, s.dispatches[t].pc.actor) == 0
  {
    var s' := Apply(s, Abandon(t, CancelPoll));
    StepKeepsInv(s, Abandon(t, CancelPoll));
    AbandonedActorNeverServes(s', t, s.dispatches[t].pc.actor, run);
  }

  /** The step in which a dispatch wins the compare-and-swap on actor `r`, so that it goes on to evict it. */
  predicate WinsPoisoning(s: State, a: Action, r: ActorRef)
    requires Enabled(s, a)
  {
    a.Abandon? && a.abandon.SetPoison? && AfterAbandon(s, a.t, SetPoison).dispatches[a.t].pc == Inside(r, PoisonedPresent)
  }

  function TimesWon(s: State, run: seq<Action>, r: ActorRef): nat
    requires Feasible(s, run)
    decreases |run|
  {
    if run == [] then 0
    else (if WinsPoisoning(s, run[0], r) then 1 else 0) + TimesWon(Apply(s, run[0]), run[1..], r)
  }

  lemma {:induction false} PoisonedIsWonNoMore(s: State, run: seq<Action>, r: ActorRef)
    requires Inv(s) && Feasible(s, run)
    ensures TimesWon(s, run, r) <= if r in s.heap && s.heap[r].poisoned then 0 else 1
    decreases |run|
  {
    if run != [] {
      var s' := Apply(s, run[0]);
      StepKeepsInv(s, run[0]);
      assert ActorForward(s, s', r);
      PoisonedIsWonNoMore(s', run[1..], r);
    }
  }

  /** Over any run at most one dispatch wins the compare-and-swap on an actor, so at most one evicts it as its own. */
  lemma OnePoisonerWins(manifest: Manifests.Manifest, run: seq<Action>, r: ActorRef)
    requires Feasible(Init(manifest), run)
    ensures TimesWon(Init(manifest), run, r) <= 1
  {
    PoisonedIsWonNoMore(Init(manifest), run, r);
  }

  // ---------- one invocation, no sentinel ----------

  /** The step in which dispatch `t` invokes a handler. */
  predicate Invokes(s: State, a: Action, t: ThreadId)
    requires Enabled(s, a)
  {
    a.Pass? && a.t == t && a.pass.CheckPoison? && !s.heap[s.dispatches[t].pc.actor].poisoned
  }

  function TimesInvoked(s: State, run: seq<Action>, t: ThreadId): nat
    requires Feasible(s, run)
    decreases |run|
  {
    if run == [] then 0
    else (if Invokes(s, run[0], t) then 1 else 0) + TimesInvoked(Apply(s, run[0]), run[1..], t)
  }

  function InvocationsSoFar(s: State, t: ThreadId): nat {
    if At(s, t) then s.dispatches[t].invocations else 0
  }

  lemma StepCountsInvocations(s: State, a: Action, t: ThreadId)
    requires Enabled(s, a)
    ensures InvocationsSoFar(Apply(s, a), t) == InvocationsSoFar(s, t) + (if Invokes(s, a, t) then 1 else 0)
  {
    if a.Evict? || a.t != t {
      StepTouchesOne(s, a, t);
    }
  }

  lemma {:induction false} RunCountsInvocations(s: State, run: seq<Action>, t: ThreadId)
    requires Feasible(s, run)
    ensures InvocationsSoFar(Run(s, run), t) == InvocationsSoFar(s, t) + TimesInvoked(s, run, t)
    decreases |run|
  {
    if run != [] {
      StepCountsInvocations(s, run[0], t);
      RunCountsInvocations(Apply(s, run[0]), run[1..], t);
    }
  }

  /** However often a dispatch retries, it invokes a handler at most once. */
  lemma HandlersRunAtMostOnce(manifest: Manifests.Manifest, run: seq<Action>, t: ThreadId)
    requires Feasible(Init(manifest), run)
    ensures TimesInvoked(Init(manifest), run, t) <= 1
  {
    ReachableStatesHold(manifest, run);
    RunCountsInvocations(Init(manifest), run, t);
    assert MemoryOk(Run(Init(manifest), run), t);
  }

  /**
   * The sentinel never leaves `Manager.Dispatch`, not even through nested calls: no dispatch ends with it, none of the
   * code that dispatches run is handed it, and a dispatch that has invoked a handler never sees it at all.
   */
  lemma SentinelNeverEscapes(manifest: Manifests.Manifest, run: seq<Action>, t: ThreadId)
    requires Feasible(Init(manifest), run)
    requires At(Run(Init(manifest), run), t)
    ensures var d := Run(Init(manifest), run).dispatches[t];
            && d.pc != Done(Failure(Poisoned))
            && Poisoned !in ThrownAt(Run(Init(manifest), run), d.id)
            && d.promise != Rejected(Poisoned)
            && (ReportsPoison(d.pc) ==> d.invocations == 0)
  {
    ReachableStatesHold(manifest, run);
    var s := Run(Init(manifest), run);
    assert MemoryOk(s, t) && ThrownOk(s, s.dispatches[t].id);
  }
}
