/** Three concrete runs: an alarm that is dispatched twice, and two alarms that are never dispatched. */
module AlarmScenarios {
  import opened Identity
  import opened AlarmTables
  import opened AlarmRuns
  import opened AlarmReach
  import opened AlarmRunTheorems
  import opened AlarmFutures

  const H := "hash"
  const ALARM := AlarmRecord(ObjectID("COUNTER", "one", H), 0)
  const E := Entry(ALARM, 0)
  const FOUND: map<Hash, Entry> := map[H := E]
  const NONE: map<Hash, Entry> := map[]

  /** One call `setAlarm` has been made, and the two tables either have its alarm or nothing. */
  function At(local: bool, index: bool, writers: map<nat, Writer>, pass: Pass, fired: seq<Entry>): State {
    State(if local then FOUND else NONE, if index then map[H := Numbered(RowOf(ALARM), 0)] else map[],
          writers, pass, [H], fired)
  }

  const NOBODY: map<nat, Writer> := map[]
  const SLOW: map<nat, Writer> := map[0 := SetPending(ALARM, 0, true)]

  // ---------- pieces of a pass ----------

  lemma QueryLists(local: bool, writers: map<nat, Writer>, fired: seq<Entry>, m: Manner)
    ensures Reaches(At(local, true, writers, Querying, fired),
                    At(local, true, writers, Dispatching([E], ClearingLocal), fired), m)
  {
    var s := At(local, true, writers, Querying, fired);
    var records := Records(Rows(s.index));
    assert records == map[H := ALARM];
    assert Due(records, 0) == {H};
    var list := [ALARM];
    assert Listed(list, H) by { assert list[0].id.hash == H; }
    assert IsSelection(records, 0, 0, list);
    var due := AfterQuery(s, list).pass.due;
    assert due == [E];
    ReachesByStep(s, QueryDue(0, 0, list), At(local, true, writers, Dispatching([E], ClearingLocal), fired), m);
  }

  /** The listed alarm is cleared and dispatched, and the pass ends. */
  lemma DispatchesListed(local: bool, writers: map<nat, Writer>, fired: seq<Entry>)
    ensures Reaches(At(local, true, writers, Dispatching([E], ClearingLocal), fired),
                    At(false, false, writers, Idle, fired + [E]), Anyhow)
  {
    var s0 := At(local, true, writers, Dispatching([E], ClearingLocal), fired);
    var s1 := At(false, true, writers, Dispatching([E], ClearingIndex), fired);
    var s2 := At(false, false, writers, Dispatching([E], Cleared), fired);
    var s3 := At(false, false, writers, Dispatching([], ClearingLocal), fired + [E]);
    var s4 := At(false, false, writers, Idle, fired + [E]);
    assert Steps(s0, ClearLocal, s1) by { assert s0.local - {H} == NONE; }
    assert Steps(s1, ClearIndex, s2) by { assert s1.index - {H} == map[]; }
    assert Steps(s2, Fire, s3) by { assert [E][1..] == []; }
    ReachesByThree(s0, ClearLocal, s1, ClearIndex, s2, Fire, s3, Anyhow);
    ReachesByStep(s3, EndPass, s4, Anyhow);
    ReachesOn(s0, s3, s4, Anyhow);
  }

  /** A pass finds the alarm in the object's own database. */
  lemma ScanFinds(index: bool, before: map<nat, Writer>, writers: map<nat, Writer>, m: Manner)
    requires writers == (map w | w in before :: Overlapped(before[w]))
    requires Allows(m, At(true, index, before, Idle, []), BeginPass)
    ensures Reaches(At(true, index, before, Idle, []), At(true, index, writers, Scanned(FOUND), []), m)
  {
    var s0 := At(true, index, before, Idle, []);
    var s1 := At(true, index, writers, Scanning({H}, {}, NONE), []);
    var s2 := At(true, index, writers, Scanning({H}, {H}, FOUND), []);
    var s3 := At(true, index, writers, Scanned(FOUND), []);
    assert Steps(s0, BeginPass, s1) by { assert s0.local.Keys == {H}; }
    assert Steps(s1, ScanFile(H), s2) by { assert {} + {H} == {H}; }
    assert Steps(s2, EndScan, s3);
    ReachesByThree(s0, BeginPass, s1, ScanFile(H), s2, EndScan, s3, m);
  }

  /** A pass that finds no alarm anywhere. */
  lemma ScanFindsNothing(index: bool, writers: map<nat, Writer>, fired: seq<Entry>, m: Manner)
    requires writers == (map w | w in writers :: Overlapped(writers[w]))
    requires m.Anyhow? || writers == NOBODY
    ensures Reaches(At(false, index, writers, Idle, fired), At(false, index, writers, Scanned(NONE), fired), m)
  {
    var s0 := At(false, index, writers, Idle, fired);
    var s1 := At(false, index, writers, Scanning({}, {}, NONE), fired);
    var s2 := At(false, index, writers, Scanned(NONE), fired);
    assert Steps(s0, BeginPass, s1) by { assert s0.local.Keys == {}; }
    assert Steps(s1, EndScan, s2);
    ReachesByStep(s0, BeginPass, s1, m);
    ReachesByStep(s1, EndScan, s2, m);
    ReachesOn(s0, s1, s2, m);
  }

  // ---------- an alarm that is dispatched twice ----------

  lemma FirstPassBegins()
    ensures Reaches(START, At(true, false, SLOW, Scanned(FOUND), []), Anyhow)
  {
    var waiting := map[0 := SetPending(ALARM, 0, false)];
    var s1 := At(true, false, waiting, Idle, []);
    assert Steps(START, SetLocal(0, ALARM), s1) by { assert [] + [H] == [H]; }
    ReachesByStep(START, SetLocal(0, ALARM), s1, Anyhow);
    assert !Straddles(s1, BeginPass, 0);
    ScanFinds(false, waiting, SLOW, Anyhow);
    ReachesOn(START, s1, At(true, false, SLOW, Scanned(FOUND), []), Anyhow);
  }

  lemma FirstPassRepairs()
    ensures Reaches(At(true, false, SLOW, Scanned(FOUND), []), At(true, true, SLOW, Querying, []), Anyhow)
  {
    var s0 := At(true, false, SLOW, Scanned(FOUND), []);
    var s1 := At(true, false, SLOW, Reconciling(FOUND, {}), []);
    var s2 := At(true, true, SLOW, Reconciling(NONE, {}), []);
    var s3 := At(true, true, SLOW, Querying, []);
    assert Steps(s0, ReadIndex, s1) by {
      assert Fixes(FOUND, s0.index) == FOUND;
      assert Stale(Locals(FOUND), Rows(s0.index)) == {};
    }
    assert Steps(s1, FixOne(H), s2) by { assert FOUND - {H} == NONE; }
    assert Steps(s2, EndReconcile, s3);
    ReachesByThree(s0, ReadIndex, s1, FixOne(H), s2, EndReconcile, s3, Anyhow);
  }

  /** The slow call writes its row into the index after the second pass has compared the tables. */
  lemma SecondPassIsMisled()
    ensures Reaches(At(false, false, SLOW, Scanned(NONE), [E]), At(false, true, NOBODY, Querying, [E]), Anyhow)
  {
    var s0 := At(false, false, SLOW, Scanned(NONE), [E]);
    var s1 := At(false, false, SLOW, Reconciling(NONE, {}), [E]);
    var s2 := At(false, false, SLOW, Querying, [E]);
    var s3 := At(false, true, NOBODY, Querying, [E]);
    assert Steps(s0, ReadIndex, s1) by {
      assert Fixes(NONE, s0.index) == NONE;
      assert Stale(Locals(NONE), Rows(s0.index)) == {};
    }
    assert Steps(s1, EndReconcile, s2);
    assert Steps(s2, SetIndex(0), s3) by { assert SLOW - {0} == NOBODY; }
    ReachesByThree(s0, ReadIndex, s1, EndReconcile, s2, SetIndex(0), s3, Anyhow);
  }

  lemma FiresOnce()
    ensures Reaches(START, At(false, false, SLOW, Idle, [E]), Anyhow)
  {
    var a, b := At(true, false, SLOW, Scanned(FOUND), []), At(true, true, SLOW, Querying, []);
    var c, d := At(true, true, SLOW, Dispatching([E], ClearingLocal), []), At(false, false, SLOW, Idle, [E]);
    FirstPassBegins();
    FirstPassRepairs();
    ReachesOn(START, a, b, Anyhow);
    QueryLists(true, SLOW, [], Anyhow);
    ReachesOn(START, b, c, Anyhow);
    DispatchesListed(true, SLOW, []);
    assert [] + [E] == [E];
    ReachesOn(START, c, d, Anyhow);
  }

  lemma FiresAgain()
    ensures Reaches(At(false, false, SLOW, Idle, [E]), At(false, false, NOBODY, Idle, [E, E]), Anyhow)
  {
    var d, e, f := At(false, false, SLOW, Idle, [E]), At(false, false, SLOW, Scanned(NONE), [E]),
                   At(false, true, NOBODY, Querying, [E]);
    var g, z := At(false, true, NOBODY, Dispatching([E], ClearingLocal), [E]), At(false, false, NOBODY, Idle, [E, E]);
    ScanFindsNothing(false, SLOW, [E], Anyhow);
    SecondPassIsMisled();
    ReachesOn(d, e, f, Anyhow);
    QueryLists(false, NOBODY, [E], Anyhow);
    ReachesOn(d, f, g, Anyhow);
    DispatchesListed(false, NOBODY, [E]);
    assert [E] + [E] == [E, E];
    ReachesOn(d, g, z, Anyhow);
  }

  /** Without the assumption on straddling the guarantee fails: one call of `setAlarm`, two dispatches. */
  lemma StraddlingFiresTwice()
    ensures exists run :: Feasible(START, run) && |Run(START, run).sets| == 1 && Run(START, run).fired == [E, E]
    ensures exists run :: Feasible(START, run) && TimesFired(Run(START, run).fired, 0) > 1
  {
    var d, z := At(false, false, SLOW, Idle, [E]), At(false, false, NOBODY, Idle, [E, E]);
    FiresOnce();
    FiresAgain();
    ReachesOn(START, d, z, Anyhow);
    var run :| Feasible(START, run) && Run(START, run) == z;
    TwiceIsTwo(z.fired, 0, 1);
  }

  // ---------- an alarm that is never dispatched ----------

  lemma SetAlarmCompletes(m: Manner)
    ensures Reaches(START, At(true, true, NOBODY, Idle, []), m)
  {
    var waiting := map[0 := SetPending(ALARM, 0, false)];
    var s1 := At(true, false, waiting, Idle, []);
    var s2 := At(true, true, NOBODY, Idle, []);
    assert Steps(START, SetLocal(0, ALARM), s1) by { assert [] + [H] == [H]; }
    assert Steps(s1, SetIndex(0), s2) by { assert waiting - {0} == NOBODY; }
    ReachesByStep(START, SetLocal(0, ALARM), s1, m);
    ReachesByStep(s1, SetIndex(0), s2, m);
    ReachesOn(START, s1, s2, m);
  }

  lemma PassAgrees(m: Manner)
    ensures Reaches(At(true, true, NOBODY, Scanned(FOUND), []), At(true, true, NOBODY, Querying, []), m)
  {
    var s0 := At(true, true, NOBODY, Scanned(FOUND), []);
    var s1 := At(true, true, NOBODY, Reconciling(NONE, {}), []);
    var s2 := At(true, true, NOBODY, Querying, []);
    assert Steps(s0, ReadIndex, s1) by {
      assert Fixes(FOUND, s0.index) == NONE;
      assert Stale(Locals(FOUND), Rows(s0.index)) == {};
      assert Relabelled(s0.index, FOUND) == s0.index;
    }
    assert Steps(s1, EndReconcile, s2);
    ReachesByStep(s0, ReadIndex, s1, m);
    ReachesByStep(s1, EndReconcile, s2, m);
    ReachesOn(s0, s1, s2, m);
  }

  lemma AlarmIsListed(m: Manner)
    ensures Reaches(START, At(true, true, NOBODY, Dispatching([E], ClearingLocal), []), m)
  {
    var a, b, c, d := At(true, true, NOBODY, Idle, []), At(true, true, NOBODY, Scanned(FOUND), []),
                      At(true, true, NOBODY, Querying, []), At(true, true, NOBODY, Dispatching([E], ClearingLocal), []);
    SetAlarmCompletes(m);
    ScanFinds(true, NOBODY, NOBODY, m);
    ReachesOn(START, a, b, m);
    PassAgrees(m);
    ReachesOn(START, b, c, m);
    QueryLists(true, NOBODY, [], m);
    ReachesOn(START, c, d, m);
  }

  lemma CrashAfterClear()
    ensures Reaches(At(true, true, NOBODY, Dispatching([E], ClearingLocal), []), At(false, true, NOBODY, Idle, []), Tidy(0))
  {
    var s0 := At(true, true, NOBODY, Dispatching([E], ClearingLocal), []);
    var s1 := At(false, true, NOBODY, Dispatching([E], ClearingIndex), []);
    var s2 := At(false, true, NOBODY, Idle, []);
    assert Steps(s0, ClearLocal, s1) by { assert s0.local - {H} == NONE; }
    ReachesByStep(s0, ClearLocal, s1, Tidy(0));
    ReachesByStep(s1, Crash, s2, Tidy(0));
    ReachesOn(s0, s1, s2, Tidy(0));
  }

  lemma NextPassRemoves()
    ensures Reaches(At(false, true, NOBODY, Scanned(NONE), []), At(false, false, NOBODY, Querying, []), Tidy(0))
  {
    var s0 := At(false, true, NOBODY, Scanned(NONE), []);
    var s1 := At(false, true, NOBODY, Reconciling(NONE, {H}), []);
    var s2 := At(false, false, NOBODY, Reconciling(NONE, {}), []);
    var s3 := At(false, false, NOBODY, Querying, []);
    assert Steps(s0, ReadIndex, s1) by {
      assert Fixes(NONE, s0.index) == NONE;
      assert Stale(Locals(NONE), Rows(s0.index)) == {H};
      assert Relabelled(s0.index, NONE) == s0.index;
    }
    assert Steps(s1, RemoveOne(H), s2) by { assert s1.index - {H} == map[]; assert {H} - {H} == {}; }
    assert Steps(s2, EndReconcile, s3);
    ReachesByThree(s0, ReadIndex, s1, RemoveOne(H), s2, EndReconcile, s3, Tidy(0));
  }

  lemma NextPassForgets()
    ensures Reaches(At(false, true, NOBODY, Idle, []), At(false, false, NOBODY, Querying, []), Tidy(0))
  {
    ScanFindsNothing(true, NOBODY, [], Tidy(0));
    NextPassRemoves();
    ReachesOn(At(false, true, NOBODY, Idle, []), At(false, true, NOBODY, Scanned(NONE), []),
              At(false, false, NOBODY, Querying, []), Tidy(0));
  }

  /**
   * At most once is not exactly once. A crash after the clear, in an otherwise orderly run, loses the alarm: the next
   * pass removes its row, and then it is nowhere any more, has never been dispatched, and never will be.
   */
  lemma CrashLosesAlarm()
    ensures exists run :: Feasible(START, run) && NoStraddling(START, run, 0)
                          && Run(START, run) == At(false, false, NOBODY, Querying, []) && !CanFire(Run(START, run), 0)
  {
    var d, e, z := At(true, true, NOBODY, Dispatching([E], ClearingLocal), []), At(false, true, NOBODY, Idle, []),
                   At(false, false, NOBODY, Querying, []);
    AlarmIsListed(Tidy(0));
    CrashAfterClear();
    ReachesOn(START, d, e, Tidy(0));
    NextPassForgets();
    ReachesOn(START, e, z, Tidy(0));
    var run :| Feasible(START, run) && Run(START, run) == z && Obeys(Tidy(0), START, run);
    TidyRunsDoNotStraddle(START, run, 0);
    CanFireIffAhead(z, 0);
  }

  // ---------- an alarm that is lost without any mishap ----------

  const LATER := AlarmRecord(ObjectID("COUNTER", "one", H), 1)
  const F := Entry(LATER, 1)
  const BOTH_SET := [H, H]

  /** The alarm is set anew between the query and the clear of the first one. */
  function Reset(local: bool, index: bool, writers: map<nat, Writer>, pass: Pass, fired: seq<Entry>): State {
    State(if local then map[H := F] else NONE, if index then map[H := Numbered(RowOf(LATER), 1)] else map[],
          writers, pass, BOTH_SET, fired)
  }

  lemma SetsAnew()
    ensures Reaches(At(true, true, NOBODY, Dispatching([E], ClearingLocal), []),
                    Reset(true, true, NOBODY, Dispatching([E], ClearingLocal), []), Orderly)
  {
    var pass := Dispatching([E], ClearingLocal);
    var waiting := map[0 := SetPending(LATER, 1, true)];
    var s0, s2 := At(true, true, NOBODY, pass, []), Reset(true, true, NOBODY, pass, []);
    var s1 := State(map[H := F], s0.index, waiting, pass, BOTH_SET, []);
    assert Steps(s0, SetLocal(0, LATER), s1) by { assert [H] + [H] == BOTH_SET; }
    assert Steps(s1, SetIndex(0), s2) by { assert waiting - {0} == NOBODY; }
    ReachesByStep(s0, SetLocal(0, LATER), s1, Orderly);
    ReachesByStep(s1, SetIndex(0), s2, Orderly);
    ReachesOn(s0, s1, s2, Orderly);
  }

  lemma ClearSteps()
    ensures var s0 := Reset(true, true, NOBODY, Dispatching([E], ClearingLocal), []);
            var s1 := Reset(false, true, NOBODY, Dispatching([E], ClearingIndex), []);
            var s2 := Reset(false, false, NOBODY, Dispatching([E], Cleared), []);
            var s3 := Reset(false, false, NOBODY, Dispatching([], ClearingLocal), [E]);
            Steps(s0, ClearLocal, s1) && Steps(s1, ClearIndex, s2) && Steps(s2, Fire, s3)
  {
    assert map[H := F] - {H} == NONE;
    assert map[H := Numbered(RowOf(LATER), 1)] - {H} == map[];
    assert [E][1..] == [] && [] + [E] == [E];
  }

  lemma ClearsTheNewOne()
    ensures Reaches(Reset(true, true, NOBODY, Dispatching([E], ClearingLocal), []), Reset(false, false, NOBODY, Idle, [E]),
                    Orderly)
  {
    var s0 := Reset(true, true, NOBODY, Dispatching([E], ClearingLocal), []);
    var s1 := Reset(false, true, NOBODY, Dispatching([E], ClearingIndex), []);
    var s2 := Reset(false, false, NOBODY, Dispatching([E], Cleared), []);
    var s3 := Reset(false, false, NOBODY, Dispatching([], ClearingLocal), [E]);
    var s4 := Reset(false, false, NOBODY, Idle, [E]);
    ClearSteps();
    ReachesByThree(s0, ClearLocal, s1, ClearIndex, s2, Fire, s3, Orderly);
    ReachesByStep(s3, EndPass, s4, Orderly);
    ReachesOn(s0, s3, s4, Orderly);
  }

  /**
   * No failure, no crash, no delete and no straddling is needed. An alarm set between the query and the clear of a pass is
   * cleared with the one that had been listed: that one is dispatched, and the new one never is.
   */
  lemma ResetDuringPassLosesAlarm()
    ensures exists run :: Feasible(START, run) && Obeys(Orderly, START, run)
                          && Run(START, run) == Reset(false, false, NOBODY, Idle, [E]) && !CanFire(Run(START, run), 1)
  {
    var a, b, z := At(true, true, NOBODY, Dispatching([E], ClearingLocal), []),
                   Reset(true, true, NOBODY, Dispatching([E], ClearingLocal), []), Reset(false, false, NOBODY, Idle, [E]);
    AlarmIsListed(Orderly);
    SetsAnew();
    ReachesOn(START, a, b, Orderly);
    ClearsTheNewOne();
    ReachesOn(START, b, z, Orderly);
    CanFireIffAhead(z, 1);
  }
}
