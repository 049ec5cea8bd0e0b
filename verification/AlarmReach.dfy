/** Putting runs of the alarm machine together. */
module AlarmReach {
  import opened AlarmRuns

  ghost predicate Steps(s: State, a: Action, s': State) { Enabled(s, a) && Apply(s, a) == s' }

  /**
   * What a run is free to do: anything; anything but to let a certain `setAlarm` straddle two passes; or, in an orderly
   * run, neither to fail nor to crash, nor to delete an alarm, nor to let any call straddle.
   */
  datatype Manner = Anyhow | Tidy(token: Token) | Orderly

  predicate IsMishap(a: Action) { a.FailWriter? || a.FailPass? || a.Crash? || a.DeleteLocal? || a.DeleteIndex? }

  ghost predicate Allows(m: Manner, s: State, a: Action) {
    match m
    case Anyhow => true
    case Tidy(token) => !Straddles(s, a, token)
    case Orderly => !IsMishap(a) && forall token :: !Straddles(s, a, token)
  }

  ghost predicate Obeys(m: Manner, s: State, run: seq<Action>)
    requires Feasible(s, run)
    decreases |run|
  {
    run != [] ==> Allows(m, s, run[0]) && Obeys(m, Apply(s, run[0]), run[1..])
  }

  lemma {:induction false} TidyRunsDoNotStraddle(s: State, run: seq<Action>, token: Token)
    requires Feasible(s, run) && Obeys(Tidy(token), s, run)
    ensures NoStraddling(s, run, token)
    decreases |run|
  {
    if run != [] {
      TidyRunsDoNotStraddle(Apply(s, run[0]), run[1..], token);
    }
  }

  /** There is such a run from `s` to `s'`. */
  ghost predicate Reaches(s: State, s': State, m: Manner) {
    exists run :: Feasible(s, run) && Run(s, run) == s' && Obeys(m, s, run)
  }

  lemma ReachesItself(s: State, m: Manner)
    ensures Reaches(s, s, m)
  {
    assert Feasible(s, []) && Run(s, []) == s && Obeys(m, s, []);
  }

  lemma {:induction false} RunsAppend(s: State, one: seq<Action>, two: seq<Action>, m: Manner)
    requires Feasible(s, one) && Feasible(Run(s, one), two)
    requires Obeys(m, s, one) && Obeys(m, Run(s, one), two)
    ensures Feasible(s, one + two) && Run(s, one + two) == Run(Run(s, one), two) && Obeys(m, s, one + two)
    decreases |one|
  {
    var all := one + two;
    if one == [] {
      assert all == two;
    } else {
      RunsAppend(Apply(s, one[0]), one[1..], two, m);
      assert all[0] == one[0] && all[1..] == one[1..] + two;
    }
  }

  lemma ReachesOn(s: State, mid: State, s': State, m: Manner)
    requires Reaches(s, mid, m) && Reaches(mid, s', m)
    ensures Reaches(s, s', m)
  {
    var one :| Feasible(s, one) && Run(s, one) == mid && Obeys(m, s, one);
    var two :| Feasible(mid, two) && Run(mid, two) == s' && Obeys(m, mid, two);
    RunsAppend(s, one, two, m);
  }

  lemma ReachesByStep(s: State, a: Action, s': State, m: Manner)
    requires Steps(s, a, s') && Allows(m, s, a)
    ensures Reaches(s, s', m)
  {
    var run := [a];
    assert run[1..] == [];
    assert Feasible(s', []) && Obeys(m, s', []);
    assert Feasible(s, run) && Run(s, run) == s' && Obeys(m, s, run);
  }

  /** Three steps in a row. */
  lemma ReachesByThree(s: State, a: Action, s1: State, b: Action, s2: State, c: Action, s3: State, m: Manner)
    requires Steps(s, a, s1) && Steps(s1, b, s2) && Steps(s2, c, s3)
    requires Allows(m, s, a) && Allows(m, s1, b) && Allows(m, s2, c)
    ensures Reaches(s, s3, m)
  {
    ReachesByStep(s, a, s1, m);
    ReachesByStep(s1, b, s2, m);
    ReachesByStep(s2, c, s3, m);
    ReachesOn(s, s1, s2, m);
    ReachesOn(s, s2, s3, m);
  }
}
