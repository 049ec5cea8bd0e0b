/** What holds over every run of the alarm machine, crashes included. */
module AlarmRunTheorems {
  import opened AlarmTables
  import opened AlarmRuns
  import opened AlarmRunInvariant

  // ---------- at most one dispatch for each setAlarm ----------

  /** How often the alarm of a `setAlarm` has been dispatched. */
  function TimesFired(fired: seq<Entry>, token: Token): nat {
    if fired == [] then 0
    else TimesFired(fired[..|fired| - 1], token) + if fired[|fired| - 1].token == token then 1 else 0
  }

  lemma {:induction false} NeverFiredIsZero(s: State, fired: seq<Entry>, token: Token)
    requires fired <= s.fired && !Fired(s, token)
    ensures TimesFired(fired, token) == 0
    decreases |fired|
  {
    if fired != [] {
      assert fired[|fired| - 1] == s.fired[|fired| - 1];
      NeverFiredIsZero(s, fired[..|fired| - 1], token);
    }
  }

  /** A step dispatches an alarm only if it has not been dispatched before. */
  lemma StepFiresFresh(s: State, a: Action, token: Token)
    requires Inv(s, token) && Enabled(s, a)
    ensures TimesFired(Apply(s, a).fired, token) == TimesFired(s.fired, token)
            || (!Fired(s, token) && TimesFired(Apply(s, a).fired, token) == 1)
    ensures Fired(s, token) ==> Fired(Apply(s, a), token)
  {
    var s' := Apply(s, a);
    if a.Fire? {
      assert s'.fired[..|s.fired|] == s.fired;
      if Fired(s, token) {
        var i :| 0 <= i < |s.fired| && s.fired[i].token == token;
        assert s'.fired[i].token == token;
      } else {
        NeverFiredIsZero(s, s.fired, token);
      }
    } else {
      assert s'.fired == s.fired;
    }
  }

  lemma {:induction false} RunFiresOnce(s: State, run: seq<Action>, token: Token)
    requires Inv(s, token) && Feasible(s, run) && NoStraddling(s, run, token)
    ensures Fired(s, token) ==> TimesFired(Run(s, run).fired, token) == TimesFired(s.fired, token)
    ensures !Fired(s, token) ==> TimesFired(Run(s, run).fired, token) <= 1
    decreases |run|
  {
    if run == [] {
      if !Fired(s, token) { NeverFiredIsZero(s, s.fired, token); }
    } else {
      var s' := Apply(s, run[0]);
      StepKeepsInv(s, run[0], token);
      StepFiresFresh(s, run[0], token);
      RunFiresOnce(s', run[1..], token);
      if !Fired(s, token) && Fired(s', token) { FirstTimeIsOnce(s, run[0], token); }
    }
  }

  lemma FirstTimeIsOnce(s: State, a: Action, token: Token)
    requires Enabled(s, a) && !Fired(s, token)
    ensures TimesFired(Apply(s, a).fired, token) <= 1
  {
    var s' := Apply(s, a);
    NeverFiredIsZero(s, s.fired, token);
    if a.Fire? {
      assert s'.fired[..|s.fired|] == s.fired;
    } else {
      assert s'.fired == s.fired;
    }
  }

  /**
   * In every run, however calls and passes fail or crash, and whatever other calls do: the alarm of a `setAlarm` that does
   * not itself straddle two passes is dispatched at most once.
   */
  lemma SetAlarmFiresAtMostOnce(run: seq<Action>, token: Token)
    requires Feasible(START, run) && NoStraddling(START, run, token)
    ensures TimesFired(Run(START, run).fired, token) <= 1
  {
    RunFiresOnce(START, run, token);
  }

  // ---------- dispatches of an object against alarms set for it ----------

  /** How many of the first `n` dispatched alarms belong to an object. */
  function Dispatches(fired: seq<Entry>, h: Hash, n: nat): nat
    requires n <= |fired|
  {
    if n == 0 then 0 else Dispatches(fired, h, n - 1) + if fired[n - 1].record.id.hash == h then 1 else 0
  }

  /** How many of the first `n` calls of `setAlarm` are for an object. */
  function SetAlarms(sets: seq<Hash>, h: Hash, n: nat): nat
    requires n <= |sets|
  {
    if n == 0 then 0 else SetAlarms(sets, h, n - 1) + if sets[n - 1] == h then 1 else 0
  }

  function FiredTokens(fired: seq<Entry>, h: Hash, n: nat): set<Token>
    requires n <= |fired|
  {
    set i | 0 <= i < n && fired[i].record.id.hash == h :: fired[i].token
  }

  function SetTokens(sets: seq<Hash>, h: Hash, n: nat): set<Token>
    requires n <= |sets|
  {
    set i | 0 <= i < n && sets[i] == h
  }

  lemma {:induction false} DispatchesAreTokens(fired: seq<Entry>, h: Hash, n: nat)
    requires n <= |fired|
    requires forall i, j | 0 <= i < j < |fired| && fired[j].record.id.hash == h :: fired[i].token != fired[j].token
    ensures |FiredTokens(fired, h, n)| == Dispatches(fired, h, n)
  {
    if n != 0 {
      DispatchesAreTokens(fired, h, n - 1);
      var last := fired[n - 1];
      if last.record.id.hash == h {
        assert FiredTokens(fired, h, n) == FiredTokens(fired, h, n - 1) + {last.token};
      } else {
        assert FiredTokens(fired, h, n) == FiredTokens(fired, h, n - 1);
      }
    }
  }

  lemma {:induction false} SetAlarmsAreTokens(sets: seq<Hash>, h: Hash, n: nat)
    requires n <= |sets|
    ensures |SetTokens(sets, h, n)| == SetAlarms(sets, h, n)
  {
    if n != 0 {
      SetAlarmsAreTokens(sets, h, n - 1);
      if sets[n - 1] == h {
        assert SetTokens(sets, h, n) == SetTokens(sets, h, n - 1) + {n - 1};
      } else {
        assert SetTokens(sets, h, n) == SetTokens(sets, h, n - 1);
      }
    }
  }

  lemma SmallerSet(a: set<Token>, b: set<Token>)
    requires a <= b
    ensures |a| <= |b|
  {
    assert |b - a| == |b| - |a|;
  }

  lemma {:induction false} TwiceIsTwo(fired: seq<Entry>, i: nat, j: nat)
    requires i < j < |fired| && fired[i].token == fired[j].token
    ensures TimesFired(fired, fired[j].token) >= 2
    decreases |fired|
  {
    var front := fired[..|fired| - 1];
    if j < |front| {
      TwiceIsTwo(front, i, j);
    } else {
      OnceIsOne(front, i);
    }
  }

  lemma {:induction false} OnceIsOne(fired: seq<Entry>, i: nat)
    requires i < |fired|
    ensures TimesFired(fired, fired[i].token) >= 1
    decreases |fired|
  {
    if i < |fired| - 1 {
      OnceIsOne(fired[..|fired| - 1], i);
    }
  }

  /**
   * So if none of an object's own `setAlarm` calls straddles two passes, the object has at most as many alarms dispatched
   * as were set for it.
   */
  lemma AlarmsFireAtMostOnce(run: seq<Action>, h: Hash)
    requires Feasible(START, run)
    requires forall t: Token | t < |Run(START, run).sets| && Run(START, run).sets[t] == h :: NoStraddling(START, run, t)
    ensures var s := Run(START, run);
            Dispatches(s.fired, h, |s.fired|) <= SetAlarms(s.sets, h, |s.sets|)
  {
    var s := Run(START, run);
    RunIsSound(START, run);
    forall i, j | 0 <= i < j < |s.fired| && s.fired[j].record.id.hash == h ensures s.fired[i].token != s.fired[j].token {
      assert Issued(s, s.fired[j].token, h);
      SetAlarmFiresAtMostOnce(run, s.fired[j].token);
      if s.fired[i].token == s.fired[j].token { TwiceIsTwo(s.fired, i, j); }
    }
    DispatchesAreTokens(s.fired, h, |s.fired|);
    SetAlarmsAreTokens(s.sets, h, |s.sets|);
    forall t | t in FiredTokens(s.fired, h, |s.fired|) ensures t in SetTokens(s.sets, h, |s.sets|) {
      var i :| 0 <= i < |s.fired| && s.fired[i].record.id.hash == h && s.fired[i].token == t;
      assert Issued(s, s.fired[i].token, h);
    }
    SmallerSet(FiredTokens(s.fired, h, |s.fired|), SetTokens(s.sets, h, |s.sets|));
  }

  // ---------- how an alarm can vanish ----------

  /** The step sets the object's alarm anew, deletes it, or clears it on behalf of a dispatch. */
  predicate Takes(s: State, a: Action, h: Hash) {
    || (a.SetLocal? && a.record.id.hash == h)
    || (a.DeleteLocal? && a.hash == h)
    || (a.ClearLocal? && s.pass.Dispatching? && s.pass.due != [] && s.pass.due[0].record.id.hash == h)
  }

  function One(yes: bool): nat { if yes then 1 else 0 }

  /** How often a step of the run takes an alarm that the object has: overwritten, deleted or cleared for a dispatch. */
  ghost function TimesTaken(s: State, run: seq<Action>, h: Hash): nat
    requires Feasible(s, run)
    decreases |run|
  {
    if run == [] then 0 else One(h in s.local && Takes(s, run[0], h)) + TimesTaken(Apply(s, run[0]), run[1..], h)
  }

  lemma StepConservesAlarms(s: State, a: Action, h: Hash)
    requires Enabled(s, a)
    ensures var s' := Apply(s, a);
            SetAlarms(s'.sets, h, |s'.sets|) + One(h in s.local)
            == SetAlarms(s.sets, h, |s.sets|) + One(h in s.local && Takes(s, a, h)) + One(h in s'.local)
  {
    var s' := Apply(s, a);
    if a.SetLocal? {
      assert s'.sets == s.sets + [a.record.id.hash];
      SameSetAlarms(s.sets, s'.sets, h, |s.sets|);
    } else {
      assert s'.sets == s.sets;
    }
  }

  lemma {:induction false} SameSetAlarms(sets: seq<Hash>, more: seq<Hash>, h: Hash, n: nat)
    requires n <= |sets| && sets <= more
    ensures SetAlarms(sets, h, n) == SetAlarms(more, h, n)
  {
    if n != 0 {
      SameSetAlarms(sets, more, h, n - 1);
    }
  }

  /**
   * Conservation of alarms over every run, crashes and straddling included: every alarm set for an object has been
   * overwritten, deleted or cleared for a dispatch exactly once, or is still there. No reconciliation takes one.
   */
  lemma {:induction false} AlarmsAreConserved(s: State, run: seq<Action>, h: Hash)
    requires Feasible(s, run)
    ensures var s' := Run(s, run);
            SetAlarms(s'.sets, h, |s'.sets|) + One(h in s.local)
            == SetAlarms(s.sets, h, |s.sets|) + TimesTaken(s, run, h) + One(h in s'.local)
    decreases |run|
  {
    if run != [] {
      StepConservesAlarms(s, run[0], h);
      AlarmsAreConserved(Apply(s, run[0]), run[1..], h);
    }
  }
}
