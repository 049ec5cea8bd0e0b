/** A reconciliation in the alarm machine that nobody disturbs does what the reconcile loop of the tables does. */
module AlarmQuietPasses {
  import opened AlarmTables
  import opened AlarmRuns

  predicate OnlyReconciles(run: seq<Action>) { forall a | a in run :: IsReconciling(a) }

  /** The object and the index agree about `h`, as the machine has them. */
  predicate Agrees(s: State, h: Hash) { SameRow(Rows(s.index), IndexOf(Locals(s.local)), h) }

  /** How far an undisturbed reconciliation has come. */
  ghost predicate QuietOk(s: State) {
    match s.pass
    case Idle => true
    case Scanning(todo, visited, found) =>
      todo == s.local.Keys && forall h :: SameEntry(found, s.local, h) || (h !in found && h !in visited)
    case Scanned(found) => found == s.local
    case Reconciling(fixes, removes) =>
      && (forall h | h in fixes :: SameEntry(fixes, s.local, h))
      && removes !! s.local.Keys
      && (forall h | h !in fixes && h !in removes :: Agrees(s, h))
    case Querying => forall h :: Agrees(s, h)
    case Dispatching(_, _) => false
  }

  predicate SameEntry(one: map<Hash, Entry>, other: map<Hash, Entry>, h: Hash) {
    (h in one <==> h in other) && (h in one ==> one[h] == other[h])
  }

  lemma ScanStaysQuiet(s: State, a: Action)
    requires QuietOk(s) && (a.BeginPass? || a.ScanFile? || a.EndScan?) && CanReconcile(s, a)
    ensures QuietOk(AfterReconcile(s, a)) && AfterReconcile(s, a).local == s.local
  {
    if a.EndScan? {
      forall h ensures SameEntry(s.pass.found, s.local, h) {
        assert SameEntry(s.pass.found, s.local, h) || (h !in s.pass.found && h !in s.pass.visited);
      }
      forall h | h in s.pass.found ensures s.pass.found[h] == s.local[h] { assert SameEntry(s.pass.found, s.local, h); }
      assert forall h :: h in s.pass.found <==> h in s.local;
      assert s.pass.found == s.local;
    } else if a.ScanFile? {
      var s' := AfterReconcile(s, a);
      forall h ensures SameEntry(s'.pass.found, s.local, h) || (h !in s'.pass.found && h !in s'.pass.visited) {
        assert SameEntry(s.pass.found, s.local, h) || (h !in s.pass.found && h !in s.pass.visited);
      }
    }
  }

  lemma ComparisonStaysQuiet(s: State)
    requires QuietOk(s) && CanReconcile(s, ReadIndex)
    ensures QuietOk(AfterReconcile(s, ReadIndex)) && AfterReconcile(s, ReadIndex).local == s.local
  {
    var s' := AfterReconcile(s, ReadIndex);
    forall h | h !in s'.pass.fixes && h !in s'.pass.removes ensures Agrees(s', h) {
      if h in s.local {
        assert !Differs(Locals(s.local), Rows(s.index), h);
      }
    }
  }

  lemma RepairStaysQuiet(s: State, a: Action)
    requires QuietOk(s) && (a.FixOne? || a.RemoveOne? || a.EndReconcile?) && CanReconcile(s, a)
    ensures QuietOk(AfterReconcile(s, a)) && AfterReconcile(s, a).local == s.local
  {
    var s' := AfterReconcile(s, a);
    if s'.pass.Reconciling? {
      forall h | h !in s'.pass.fixes && h !in s'.pass.removes ensures Agrees(s', h) {
        if h != a.hash {
          assert Agrees(s, h);
        } else if a.FixOne? {
          assert SameEntry(s.pass.fixes, s.local, h);
        }
      }
    }
  }

  lemma {:induction false} QuietRun(s: State, run: seq<Action>)
    requires QuietOk(s) && Feasible(s, run) && OnlyReconciles(run)
    ensures QuietOk(Run(s, run)) && Run(s, run).local == s.local && Run(s, run).fired == s.fired
    decreases |run|
  {
    if run != [] {
      var a := run[0];
      assert a in run;
      if a.ReadIndex? {
        ComparisonStaysQuiet(s);
      } else if a.FixOne? || a.RemoveOne? || a.EndReconcile? {
        RepairStaysQuiet(s, a);
      } else {
        ScanStaysQuiet(s, a);
      }
      assert forall b | b in run[1..] :: b in run;
      QuietRun(Apply(s, a), run[1..]);
    }
  }

  /**
   * From any two tables, an undisturbed reconciliation that gets as far as the query, whatever order it visits files and
   * rows in, has made the index agree with the objects and has touched no object and dispatched nothing.
   */
  lemma QuietReconciliationAgrees(s: State, run: seq<Action>)
    requires s.pass.Idle? && Feasible(s, run) && OnlyReconciles(run) && Run(s, run).pass.Querying?
    ensures var s' := Run(s, run);
            Rows(s'.index) == IndexOf(Locals(s.local)) && s'.local == s.local && s'.fired == s.fired
  {
    QuietRun(s, run);
    var s' := Run(s, run);
    var rows, right := Rows(s'.index), IndexOf(Locals(s.local));
    forall h ensures (h in rows <==> h in right) && (h in rows ==> rows[h] == right[h]) { assert Agrees(s', h); }
  }
}
