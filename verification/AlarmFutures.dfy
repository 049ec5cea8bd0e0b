/** Exactly when an alarm can still be dispatched, and how an alarm gets lost. */
module AlarmFutures {
  import opened Wrappers
  import opened AlarmTables
  import opened AlarmRuns
  import opened AlarmRunInvariant
  import opened AlarmRunTheorems
  import opened AlarmReach

  /** Some continuation dispatches the alarm of a `setAlarm` once more than it has been. */
  ghost predicate CanFire(s: State, token: Token) {
    exists more :: Feasible(s, more) && TimesFired(Run(s, more).fired, token) > TimesFired(s.fired, token)
  }

  predicate InWriters(s: State, token: Token) {
    exists w | w in s.writers :: s.writers[w].SetPending? && s.writers[w].token == token
  }

  predicate InEntries(entries: map<Hash, Entry>, token: Token) { exists h | h in entries :: entries[h].token == token }

  predicate InIndex(index: map<Hash, Numbered>, token: Token) { exists h | h in index :: index[h].token == token }

  /** When the comparison is over, the row of `h` in the index will stand for the alarm. */
  predicate StaysInIndex(s: State, h: Hash, token: Token)
    requires s.pass.Reconciling?
  {
    && h !in s.pass.removes
    && (if h in s.pass.fixes then s.pass.fixes[h].token == token else h in s.index && s.index[h].token == token)
  }

  /** The pass under way has the alarm before it. */
  predicate InPass(s: State, token: Token) {
    match s.pass
    case Idle => false
    case Scanning(_, _, found) => InEntries(found, token)
    case Scanned(found) => InEntries(found, token)
    case Reconciling(fixes, _) => exists h | h in fixes.Keys + s.index.Keys :: StaysInIndex(s, h, token)
    case Querying => InIndex(s.index, token)
    case Dispatching(due, _) => exists i | 0 <= i < |due| :: due[i].token == token
  }

  /** The object still has the alarm, or the call that set it is under way, or the pass has it before it. */
  predicate Ahead(s: State, token: Token) { InEntries(s.local, token) || InWriters(s, token) || InPass(s, token) }

  // ---------- an alarm that nothing has before it ----------

  predicate Lost(s: State, token: Token) { token < |s.sets| && !Ahead(s, token) }

  lemma CallKeepsLost(s: State, a: Action, token: Token)
    requires IsCall(a) && CanCall(s, a) && Lost(s, token)
    ensures Lost(AfterCall(s, a), token) && AfterCall(s, a).fired == s.fired
  {
    var s' := AfterCall(s, a);
    if a.SetIndex? {
      assert s.writers[a.w].token != token;
    }
    assert !InWriters(s', token) && !InEntries(s'.local, token);
    if s.pass.Reconciling? {
      forall h | h in s.pass.fixes.Keys + s'.index.Keys ensures !StaysInIndex(s', h, token) {
        assert h in s.pass.fixes.Keys + s.index.Keys ==> !StaysInIndex(s, h, token);
      }
    }
  }

  /** A comparison keeps an alarm only if the scan has found it: other rows are overwritten, relabelled or removed. */
  lemma ReadIndexKeepsLost(s: State, token: Token)
    requires s.pass.Scanned? && Lost(s, token)
    ensures Lost(AfterReconcile(s, ReadIndex), token)
  {
    var s' := AfterReconcile(s, ReadIndex);
    forall h | h in s'.pass.fixes.Keys + s'.index.Keys ensures !StaysInIndex(s', h, token) {
      if h in s.pass.found { assert s.pass.found[h].token != token; }
    }
  }

  lemma ReconcileKeepsLost(s: State, a: Action, token: Token)
    requires IsReconciling(a) && CanReconcile(s, a) && Lost(s, token)
    ensures Lost(AfterReconcile(s, a), token) && AfterReconcile(s, a).fired == s.fired
  {
    var s' := AfterReconcile(s, a);
    forall w | w in s'.writers && s'.writers[w].SetPending? ensures s'.writers[w].token != token {
      assert w in s.writers && s.writers[w].token == s'.writers[w].token;
    }
    if a.ReadIndex? {
      ReadIndexKeepsLost(s, token);
    } else if s.pass.Reconciling? {
      RepairKeepsLost(s, a, token);
    }
  }

  lemma RepairKeepsLost(s: State, a: Action, token: Token)
    requires (a.FixOne? || a.RemoveOne? || a.EndReconcile?) && CanReconcile(s, a) && Lost(s, token)
    ensures !InPass(AfterReconcile(s, a), token)
  {
    var s' := AfterReconcile(s, a);
    forall h | h in s.pass.fixes.Keys + s'.index.Keys ensures !StaysInIndex(s, h, token) {
      assert h in s.pass.fixes.Keys + s.index.Keys;
    }
    if !a.EndReconcile? {
      forall h | h in s'.pass.fixes.Keys + s'.index.Keys ensures !StaysInIndex(s', h, token) {
        assert !StaysInIndex(s, h, token);
      }
    } else {
      forall h | h in s'.index ensures s'.index[h].token != token { assert !StaysInIndex(s, h, token); }
    }
  }

  lemma FireKeepsLost(s: State, token: Token)
    requires CanDispatch(s, Fire) && Lost(s, token)
    ensures Lost(AfterDispatch(s, Fire), token)
    ensures TimesFired(AfterDispatch(s, Fire).fired, token) == TimesFired(s.fired, token)
  {
    var s' := AfterDispatch(s, Fire);
    assert s'.fired[..|s.fired|] == s.fired;
    forall i | 0 <= i < |s'.pass.due| ensures s'.pass.due[i].token != token {
      assert s'.pass.due[i] == s.pass.due[i + 1];
    }
  }

  lemma DispatchKeepsLost(s: State, a: Action, token: Token)
    requires IsDispatching(a) && !a.Fire? && CanDispatch(s, a) && Lost(s, token)
    ensures Lost(AfterDispatch(s, a), token) && AfterDispatch(s, a).fired == s.fired
  {
  }

  lemma StepKeepsLost(s: State, a: Action, token: Token)
    requires Enabled(s, a) && Lost(s, token)
    ensures Lost(Apply(s, a), token) && TimesFired(Apply(s, a).fired, token) == TimesFired(s.fired, token)
  {
    if IsCall(a) {
      CallKeepsLost(s, a, token);
    } else if IsReconciling(a) {
      ReconcileKeepsLost(s, a, token);
    } else if a.Fire? {
      FireKeepsLost(s, token);
    } else if IsDispatching(a) {
      DispatchKeepsLost(s, a, token);
    }
  }

  /** An alarm that is lost is never dispatched again, whatever happens. */
  lemma {:induction false} LostAlarmsNeverFire(s: State, run: seq<Action>, token: Token)
    requires Feasible(s, run) && Lost(s, token)
    ensures Lost(Run(s, run), token) && TimesFired(Run(s, run).fired, token) == TimesFired(s.fired, token)
    decreases |run|
  {
    if run != [] {
      StepKeepsLost(s, run[0], token);
      LostAlarmsNeverFire(Apply(s, run[0]), run[1..], token);
    }
  }

  // ---------- every other alarm can be dispatched ----------

  lemma FiresAfterRun(s: State, s': State, token: Token)
    requires Reaches(s, s', Anyhow) && TimesFired(s.fired, token) <= TimesFired(s'.fired, token) && CanFire(s', token)
    ensures CanFire(s, token)
  {
    var one :| Feasible(s, one) && Run(s, one) == s' && Obeys(Anyhow, s, one);
    var two :| Feasible(s', two) && TimesFired(Run(s', two).fired, token) > TimesFired(s'.fired, token);
    RunsAnyhow(s', two);
    RunsAppend(s, one, two, Anyhow);
  }

  lemma {:induction false} RunsAnyhow(s: State, run: seq<Action>)
    requires Feasible(s, run)
    ensures Obeys(Anyhow, s, run)
    decreases |run|
  {
    if run != [] {
      RunsAnyhow(Apply(s, run[0]), run[1..]);
    }
  }

  lemma StepNeverUnfires(s: State, a: Action, token: Token)
    requires Enabled(s, a)
    ensures TimesFired(s.fired, token) <= TimesFired(Apply(s, a).fired, token)
  {
    if a.Fire? {
      assert Apply(s, a).fired[..|s.fired|] == s.fired;
    }
  }

  lemma FiresAfterStep(s: State, a: Action, token: Token)
    requires Enabled(s, a) && CanFire(Apply(s, a), token)
    ensures CanFire(s, token)
  {
    ReachesByStep(s, a, Apply(s, a), Anyhow);
    StepNeverUnfires(s, a, token);
    FiresAfterRun(s, Apply(s, a), token);
  }

  function StepsToFire(clearing: Clearing): nat {
    match clearing
    case ClearingLocal => 2
    case ClearingIndex => 1
    case Cleared => 0
  }

  /** The pass works off its list until it comes to the alarm. */
  lemma {:induction false} ListedFires(s: State, token: Token, i: nat)
    requires s.pass.Dispatching? && i < |s.pass.due| && s.pass.due[i].token == token
    ensures CanFire(s, token)
    decreases i, StepsToFire(s.pass.clearing)
  {
    if !s.pass.clearing.Cleared? {
      var a := if s.pass.clearing.ClearingLocal? then ClearLocal else ClearIndex;
      ListedFires(Apply(s, a), token, i);
      FiresAfterStep(s, a, token);
    } else if i > 0 {
      assert Apply(s, Fire).pass.due[i - 1] == s.pass.due[i];
      ListedFires(Apply(s, Fire), token, i - 1);
      FiresAfterStep(s, Fire, token);
    } else {
      FirstFires(s, token);
    }
  }

  lemma FirstFires(s: State, token: Token)
    requires s.pass.Dispatching? && s.pass.clearing.Cleared? && s.pass.due != [] && s.pass.due[0].token == token
    ensures CanFire(s, token)
  {
    var more, s' := [Fire], Apply(s, Fire);
    assert more[1..] == [] && Run(s, more) == s';
    assert s'.fired[..|s.fired|] == s.fired;
  }

  lemma ListsOne(s: State, h: Hash)
    requires s.pass.Querying? && h in s.index && s.index.Keys == {h}
    ensures var list := [RecordOf(h, s.index[h].row)];
            CanQuery(s, list[0].dueAt, 0, list) && AfterQuery(s, list).pass.due == [Entry(list[0], s.index[h].token)]
  {
    var record := RecordOf(h, s.index[h].row);
    var list := [record];
    var records := Records(Rows(s.index));
    assert records == map[h := record];
    assert Due(records, record.dueAt) == {h};
    assert Listed(list, h) by { assert list[0].id.hash == h; }
  }

  /** All other rows are deleted, and then the query lists the alarm. */
  lemma {:induction false} IndexedFires(s: State, token: Token, h: Hash)
    requires s.pass.Querying? && h in s.index && s.index[h].token == token
    ensures CanFire(s, token)
    decreases s.index.Keys
  {
    if other :| other in s.index.Keys && other != h {
      var w := FreshNat(s.writers.Keys);
      var s1 := Apply(s, DeleteLocal(w, other));
      var s2 := Apply(s1, DeleteIndex(w));
      assert other !in s2.index && s2.index.Keys < s.index.Keys;
      IndexedFires(s2, token, h);
      FiresAfterStep(s1, DeleteIndex(w), token);
      FiresAfterStep(s, DeleteLocal(w, other), token);
    } else {
      var list := [RecordOf(h, s.index[h].row)];
      var a := QueryDue(list[0].dueAt, 0, list);
      ListsOne(s, h);
      ListedFires(Apply(s, a), token, 0);
      FiresAfterStep(s, a, token);
    }
  }

  /** The repairs are made, and the row stays. */
  lemma {:induction false} RepairedFires(s: State, token: Token, h: Hash)
    requires s.pass.Reconciling? && StaysInIndex(s, h, token)
    ensures CanFire(s, token)
    decreases s.pass.fixes.Keys, s.pass.removes
  {
    if s.pass.fixes != map[] {
      var x :| x in s.pass.fixes;
      var s' := Apply(s, FixOne(x));
      assert x !in s'.pass.fixes && s'.pass.fixes.Keys < s.pass.fixes.Keys;
      RepairedFires(s', token, h);
      FiresAfterStep(s, FixOne(x), token);
    } else if s.pass.removes != {} {
      var x :| x in s.pass.removes;
      RepairedFires(Apply(s, RemoveOne(x)), token, h);
      FiresAfterStep(s, RemoveOne(x), token);
    } else {
      IndexedFires(Apply(s, EndReconcile), token, h);
      FiresAfterStep(s, EndReconcile, token);
    }
  }

  lemma ComparedFires(s: State, token: Token, h: Hash)
    requires s.pass.Scanned? && h in s.pass.found && s.pass.found[h].token == token
    ensures CanFire(s, token)
  {
    RepairedFires(Apply(s, ReadIndex), token, h);
    FiresAfterStep(s, ReadIndex, token);
  }

  /** The other files have no alarm any more, and the scan goes through them. */
  lemma {:induction false} FoundFires(s: State, token: Token, h: Hash)
    requires s.pass.Scanning? && s.local == map[] && h in s.pass.found && s.pass.found[h].token == token
    ensures CanFire(s, token)
    decreases s.pass.todo - s.pass.visited
  {
    if x :| x in s.pass.todo && x !in s.pass.visited {
      var s' := Apply(s, ScanFile(x));
      assert s'.pass.todo - s'.pass.visited < s.pass.todo - s.pass.visited by { assert x in s.pass.todo - s.pass.visited; }
      FoundFires(s', token, h);
      FiresAfterStep(s, ScanFile(x), token);
    } else {
      ComparedFires(Apply(s, EndScan), token, h);
      FiresAfterStep(s, EndScan, token);
    }
  }

  lemma DeletesOne(s: State, h: Hash)
    requires h in s.local
    ensures Reaches(s, s.(local := s.local - {h}), Anyhow)
  {
    var w := FreshNat(s.writers.Keys);
    var s1 := s.(local := s.local - {h}, writers := s.writers[w := DeletePending(h)]);
    var s2 := s.(local := s.local - {h});
    assert s1.writers - {w} == s.writers;
    ReachesByStep(s, DeleteLocal(w, h), s1, Anyhow);
    ReachesByStep(s1, FailWriter(w), s2, Anyhow);
    ReachesOn(s, s1, s2, Anyhow);
  }

  /** Every object deletes its alarm, and no call gets as far as the index. */
  lemma {:induction false} DeletesAll(s: State)
    ensures Reaches(s, s.(local := map[]), Anyhow)
    decreases s.local.Keys
  {
    if s.local == map[] {
      ReachesItself(s, Anyhow);
    } else {
      var h :| h in s.local;
      var s1 := s.(local := s.local - {h});
      assert h !in s1.local && s1.local.Keys < s.local.Keys;
      DeletesOne(s, h);
      DeletesAll(s1);
      ReachesOn(s, s1, s.(local := map[]), Anyhow);
    }
  }

  lemma ScannedFires(s: State, token: Token, h: Hash)
    requires s.pass.Scanning? && h in s.pass.found && s.pass.found[h].token == token
    ensures CanFire(s, token)
  {
    var s1 := s.(local := map[]);
    DeletesAll(s);
    FoundFires(s1, token, h);
    FiresAfterRun(s, s1, token);
  }

  /** The next pass finds the alarm in the object's own database. */
  lemma LocalFires(s: State, token: Token, h: Hash)
    requires s.pass.Idle? && h in s.local && s.local[h].token == token
    ensures CanFire(s, token)
  {
    var s1 := Apply(s, BeginPass);
    ScannedFires(Apply(s1, ScanFile(h)), token, h);
    FiresAfterStep(s1, ScanFile(h), token);
    FiresAfterStep(s, BeginPass, token);
  }

  /** The call writes its row between the comparison and the query. */
  lemma {:induction false} PendingFires(s: State, token: Token, w: nat)
    requires s.pass.Reconciling? && s.pass.fixes == map[]
    requires w in s.writers && s.writers[w].SetPending? && s.writers[w].token == token
    ensures CanFire(s, token)
    decreases s.pass.removes
  {
    if s.pass.removes != {} {
      var x :| x in s.pass.removes;
      PendingFires(Apply(s, RemoveOne(x)), token, w);
      FiresAfterStep(s, RemoveOne(x), token);
    } else {
      var s1 := Apply(s, EndReconcile);
      IndexedFires(Apply(s1, SetIndex(w)), token, s.writers[w].record.id.hash);
      FiresAfterStep(s1, SetIndex(w), token);
      FiresAfterStep(s, EndReconcile, token);
    }
  }

  lemma CalledFires(s: State, token: Token, w: nat)
    requires s.pass.Idle? && w in s.writers && s.writers[w].SetPending? && s.writers[w].token == token
    ensures CanFire(s, token)
  {
    var s1 := s.(local := map[]);
    var s2 := Apply(s1, BeginPass);
    var s3 := Apply(s2, EndScan);
    assert Fixes(map[], s3.index) == map[];
    PendingFires(Apply(s3, ReadIndex), token, w);
    FiresAfterStep(s3, ReadIndex, token);
    FiresAfterStep(s2, EndScan, token);
    FiresAfterStep(s1, BeginPass, token);
    DeletesAll(s);
    FiresAfterRun(s, s1, token);
  }

  lemma PassFires(s: State, token: Token)
    requires InPass(s, token)
    ensures CanFire(s, token)
  {
    match s.pass
    case Scanning(_, _, found) => var h :| h in found && found[h].token == token; ScannedFires(s, token, h);
    case Scanned(found) => var h :| h in found && found[h].token == token; ComparedFires(s, token, h);
    case Reconciling(fixes, _) =>
      var h :| h in fixes.Keys + s.index.Keys && StaysInIndex(s, h, token);
      RepairedFires(s, token, h);
    case Querying => var h :| h in s.index && s.index[h].token == token; IndexedFires(s, token, h);
    case Dispatching(due, _) => var i :| 0 <= i < |due| && due[i].token == token; ListedFires(s, token, i);
  }

  lemma CallOrTableFires(s: State, token: Token)
    requires s.pass.Idle? && (InEntries(s.local, token) || InWriters(s, token))
    ensures CanFire(s, token)
  {
    if InWriters(s, token) {
      var w :| w in s.writers && s.writers[w].SetPending? && s.writers[w].token == token;
      CalledFires(s, token, w);
    } else {
      var h :| h in s.local && s.local[h].token == token;
      LocalFires(s, token, h);
    }
  }

  /**
   * In every state, an alarm can still be dispatched if and only if its object still has it, or its `setAlarm` is still
   * under way, or the pass has it before it.
   */
  lemma CanFireIffAhead(s: State, token: Token)
    requires token < |s.sets|
    ensures CanFire(s, token) <==> Ahead(s, token)
  {
    if InPass(s, token) {
      PassFires(s, token);
    } else if Ahead(s, token) {
      if s.pass.Idle? {
        CallOrTableFires(s, token);
      } else {
        CallOrTableFires(Apply(s, FailPass), token);
        FiresAfterStep(s, FailPass, token);
      }
    } else if CanFire(s, token) {
      var more :| Feasible(s, more) && TimesFired(Run(s, more).fired, token) > TimesFired(s.fired, token);
      LostAlarmsNeverFire(s, more, token);
    }
  }

  /**
   * Between two passes, an alarm that has been dispatched can be dispatched once more if and only if the call of `setAlarm`
   * that set it is still under way, and has not written the index.
   */
  lemma RepeatsIffStillPending(run: seq<Action>, token: Token)
    requires Feasible(START, run) && Run(START, run).pass.Idle? && Fired(Run(START, run), token)
    ensures CanFire(Run(START, run), token) <==> InWriters(Run(START, run), token)
  {
    var s := Run(START, run);
    RunIsSound(START, run);
    var i :| 0 <= i < |s.fired| && s.fired[i].token == token;
    assert Issued(s, s.fired[i].token, s.fired[i].record.id.hash);
    CanFireIffAhead(s, token);
  }

  // ---------- how an alarm gets lost ----------

  predicate IsLocal(s: State, token: Token, h: Hash) { h in s.local && s.local[h].token == token }

  /** The pass has cleared the alarm and has not dispatched it yet. */
  predicate IsBeingFired(s: State, token: Token) {
    s.pass.Dispatching? && !s.pass.clearing.ClearingLocal? && s.pass.due != [] && s.pass.due[0].token == token
  }

  /** The object sets another alarm instead, or deletes it. */
  predicate Revokes(s: State, a: Action, token: Token) {
    || (a.SetLocal? && IsLocal(s, token, a.record.id.hash))
    || (a.DeleteLocal? && IsLocal(s, token, a.hash))
  }

  /** The pass stops between the clear and the dispatch. */
  predicate StopsBetween(s: State, a: Action, token: Token) { (a.FailPass? || a.Crash?) && IsBeingFired(s, token) }

  /** The pass clears the alarm on behalf of another alarm of the object, which it had listed before this one was set. */
  predicate ClearsAnother(s: State, a: Action, token: Token) {
    && a.ClearLocal? && s.pass.Dispatching? && s.pass.due != []
    && IsLocal(s, token, s.pass.due[0].record.id.hash) && s.pass.due[0].token != token
  }

  ghost predicate NeverLoses(s: State, run: seq<Action>, token: Token)
    requires Feasible(s, run)
    decreases |run|
  {
    run != [] ==>
      && !Revokes(s, run[0], token) && !StopsBetween(s, run[0], token) && !ClearsAnother(s, run[0], token)
      && NeverLoses(Apply(s, run[0]), run[1..], token)
  }

  /** The alarm is where it leads to its dispatch without fail, or has been dispatched. */
  predicate Safe(s: State, token: Token) { InEntries(s.local, token) || IsBeingFired(s, token) || Fired(s, token) }

  lemma StepKeepsSafe(s: State, a: Action, token: Token)
    requires Enabled(s, a) && Safe(s, token)
    requires !Revokes(s, a, token) && !StopsBetween(s, a, token) && !ClearsAnother(s, a, token)
    ensures Safe(Apply(s, a), token)
  {
    var s' := Apply(s, a);
    if Fired(s, token) {
      var i :| 0 <= i < |s.fired| && s.fired[i].token == token;
      assert s'.fired[i].token == token;
    } else if IsBeingFired(s, token) {
      if a.Fire? { assert s'.fired[|s.fired|].token == token; }
    } else {
      var h :| h in s.local && s.local[h].token == token;
      assert IsLocal(s, token, h);
      assert IsLocal(s', token, h) || IsBeingFired(s', token);
    }
  }

  lemma {:induction false} RunKeepsSafe(s: State, run: seq<Action>, token: Token)
    requires Feasible(s, run) && Safe(s, token) && NeverLoses(s, run, token)
    ensures Safe(Run(s, run), token)
    decreases |run|
  {
    if run != [] {
      StepKeepsSafe(s, run[0], token);
      RunKeepsSafe(Apply(s, run[0]), run[1..], token);
    }
  }

  /**
   * However calls and passes fail, crash and interleave, an alarm that was set has been dispatched or can still be, unless
   * its object revoked it, or a pass stopped between its clear and its dispatch, or it was set between the query and the
   * clear for an earlier alarm of the object.
   */
  lemma {:induction false} AlarmsFireUnlessLost(s: State, set_: Action, run: seq<Action>)
    requires set_.SetLocal? && Enabled(s, set_) && Feasible(Apply(s, set_), run)
    requires NeverLoses(Apply(s, set_), run, |s.sets|)
    ensures Fired(Run(Apply(s, set_), run), |s.sets|) || CanFire(Run(Apply(s, set_), run), |s.sets|)
  {
    var s1 := Apply(s, set_);
    assert IsLocal(s1, |s.sets|, set_.record.id.hash);
    RunKeepsSafe(s1, run, |s.sets|);
    RunNeverForgetsCalls(s1, run);
    CanFireIffAhead(Run(s1, run), |s.sets|);
  }

  lemma {:induction false} RunNeverForgetsCalls(s: State, run: seq<Action>)
    requires Feasible(s, run)
    ensures |s.sets| <= |Run(s, run).sets|
    decreases |run|
  {
    if run != [] {
      RunNeverForgetsCalls(Apply(s, run[0]), run[1..]);
    }
  }
}
