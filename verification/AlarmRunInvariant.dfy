/** What every step of the alarm machine keeps, about all alarms and about a single one. */
module AlarmRunInvariant {
  import opened AlarmTables
  import opened AlarmRuns

  predicate Issued(s: State, token: Token, h: Hash) { token < |s.sets| && s.sets[token] == h }

  predicate Fired(s: State, token: Token) { exists i | 0 <= i < |s.fired| :: s.fired[i].token == token }

  /** The alarm has been set for `h` and has not been dispatched yet. */
  predicate Unfired(s: State, token: Token, h: Hash) { Issued(s, token, h) && !Fired(s, token) }

  // ---------- about all alarms ----------

  predicate LocalOk(s: State, h: Hash)
    requires h in s.local
  {
    Unfired(s, s.local[h].token, h) && s.local[h].record.id.hash == h
  }

  predicate RowIssued(s: State, h: Hash)
    requires h in s.index
  {
    Issued(s, s.index[h].token, h)
  }

  predicate WriterIssued(s: State, w: nat)
    requires w in s.writers
  {
    s.writers[w].SetPending? ==> Issued(s, s.writers[w].token, s.writers[w].record.id.hash)
  }

  predicate EntriesOk(s: State, entries: map<Hash, Entry>) {
    forall h | h in entries :: Unfired(s, entries[h].token, h)
  }

  predicate DueOk(s: State, due: seq<Entry>) {
    && (forall i | 0 <= i < |due| :: Issued(s, due[i].token, due[i].record.id.hash))
    && (forall i, j | 0 <= i < j < |due| :: due[i].record.id.hash != due[j].record.id.hash)
  }

  predicate NotLocal(s: State, token: Token) { forall h | h in s.local :: s.local[h].token != token }

  predicate PassOk(s: State) {
    match s.pass
    case Idle => true
    case Scanning(_, _, found) => EntriesOk(s, found)
    case Scanned(found) => EntriesOk(s, found)
    case Reconciling(fixes, _) => EntriesOk(s, fixes)
    case Querying => true
    case Dispatching(due, clearing) =>
      DueOk(s, due) && (!clearing.ClearingLocal? ==> due != [] && NotLocal(s, due[0].token))
  }

  predicate FiredIssued(s: State) {
    forall i | 0 <= i < |s.fired| :: Issued(s, s.fired[i].token, s.fired[i].record.id.hash)
  }

  /** Numbers are used for their own object only, and an alarm that an object has, has not been dispatched. */
  ghost predicate Sound(s: State) {
    && (forall h | h in s.local :: LocalOk(s, h))
    && (forall h | h in s.index :: RowIssued(s, h))
    && (forall w | w in s.writers :: WriterIssued(s, w))
    && PassOk(s)
    && FiredIssued(s)
  }

  lemma SetLocalIsSound(s: State, a: Action)
    requires Sound(s) && a.SetLocal? && CanCall(s, a)
    ensures Sound(AfterCall(s, a))
  {
    var s' := AfterCall(s, a);
    forall i, h | Issued(s, i, h) ensures Issued(s', i, h) { }
    forall i, h | Unfired(s, i, h) ensures Unfired(s', i, h) { }
    forall w | w in s'.writers ensures WriterIssued(s', w) {
      if w != a.w {
        assert WriterIssued(s, w);
      }
    }
    forall h | h in s'.index ensures RowIssued(s', h) { assert RowIssued(s, h); }
    assert PassOk(s');
  }

  lemma OtherCallIsSound(s: State, a: Action)
    requires Sound(s) && IsCall(a) && !a.SetLocal? && CanCall(s, a)
    ensures Sound(AfterCall(s, a))
  {
    var s' := AfterCall(s, a);
    forall h | h in s'.index ensures RowIssued(s', h) {
      if a.SetIndex? && h == s.writers[a.w].record.id.hash {
        assert WriterIssued(s, a.w);
      } else {
        assert RowIssued(s, h);
      }
    }
    forall h | h in s'.local ensures LocalOk(s', h) { assert LocalOk(s, h); }
    forall w | w in s'.writers ensures WriterIssued(s', w) {
      if s'.writers[w].SetPending? {
        assert WriterIssued(s, w);
      }
    }
    assert PassOk(s');
  }

  lemma ReconcileIsSound(s: State, a: Action)
    requires Sound(s) && IsReconciling(a) && CanReconcile(s, a)
    ensures Sound(AfterReconcile(s, a))
  {
    var s' := AfterReconcile(s, a);
    forall h | h in s'.local ensures LocalOk(s', h) { assert LocalOk(s, h); }
    forall w | w in s'.writers ensures WriterIssued(s', w) { assert WriterIssued(s, w); }
    forall h | h in s'.index ensures RowIssued(s', h) {
      match a
      case ReadIndex =>
        assert RowIssued(s, h);
        if h in s.pass.found { assert Unfired(s, s.pass.found[h].token, h); }
      case FixOne(hash) =>
        if h == hash { assert Unfired(s, s.pass.fixes[h].token, h); } else { assert RowIssued(s, h); }
      case _ => assert RowIssued(s, h);
    }
    ReconcileKeepsPass(s, a);
  }

  lemma ReconcileKeepsPass(s: State, a: Action)
    requires Sound(s) && IsReconciling(a) && CanReconcile(s, a)
    ensures PassOk(AfterReconcile(s, a))
  {
    var s' := AfterReconcile(s, a);
    match a
    case ScanFile(hash) =>
      if hash in s.local { assert LocalOk(s, hash); }
      assert EntriesOk(s', s'.pass.found);
    case ReadIndex => assert EntriesOk(s', s'.pass.fixes);
    case FixOne(_) => assert EntriesOk(s', s'.pass.fixes);
    case _ =>
  }

  lemma QueryIsSound(s: State, now: int, limit: int, list: seq<AlarmRecord>)
    requires Sound(s) && CanQuery(s, now, limit, list)
    ensures (forall i | 0 <= i < |list| :: list[i].id.hash in s.index) && Sound(AfterQuery(s, list))
  {
    forall i | 0 <= i < |list| ensures list[i].id.hash in s.index {
      assert list[i].id.hash in Due(Records(Rows(s.index)), now);
    }
    var s' := AfterQuery(s, list);
    forall i | 0 <= i < |list| ensures Issued(s', s'.pass.due[i].token, list[i].id.hash) {
      assert RowIssued(s, list[i].id.hash);
    }
    forall w | w in s'.writers ensures WriterIssued(s', w) { assert WriterIssued(s, w); }
    forall h | h in s'.index ensures RowIssued(s', h) { assert RowIssued(s, h); }
    forall h | h in s'.local ensures LocalOk(s', h) { assert LocalOk(s, h); }
    assert DueOk(s', s'.pass.due);
  }

  lemma ClearIsSound(s: State, a: Action)
    requires Sound(s) && (a.ClearLocal? || a.ClearIndex?) && CanDispatch(s, a)
    ensures Sound(AfterDispatch(s, a))
  {
    var s' := AfterDispatch(s, a);
    var e := s.pass.due[0];
    forall h | h in s'.local ensures LocalOk(s', h) && s'.local[h].token != e.token { assert LocalOk(s, h); }
    forall w | w in s'.writers ensures WriterIssued(s', w) { assert WriterIssued(s, w); }
    forall h | h in s'.index ensures RowIssued(s', h) { assert RowIssued(s, h); }
    assert DueOk(s', s'.pass.due);
  }

  lemma FireIsSound(s: State)
    requires Sound(s) && CanDispatch(s, Fire)
    ensures Sound(AfterDispatch(s, Fire))
  {
    var s' := AfterDispatch(s, Fire);
    forall h | h in s'.local ensures LocalOk(s', h) { assert LocalOk(s, h); }
    forall w | w in s'.writers ensures WriterIssued(s', w) { assert WriterIssued(s, w); }
    forall h | h in s'.index ensures RowIssued(s', h) { assert RowIssued(s, h); }
    assert forall i | 0 <= i < |s'.pass.due| :: s'.pass.due[i] == s.pass.due[i + 1];
    assert DueOk(s', s'.pass.due);
  }

  lemma LeavePassIsSound(s: State, a: Action)
    requires Sound(s) && (a.EndPass? || a.FailPass? || a.Crash?) && CanDispatch(s, a)
    ensures Sound(AfterDispatch(s, a))
  {
    var s' := AfterDispatch(s, a);
    forall h | h in s'.local ensures LocalOk(s', h) { assert LocalOk(s, h); }
    forall w | w in s'.writers ensures WriterIssued(s', w) { assert WriterIssued(s, w); }
    forall h | h in s'.index ensures RowIssued(s', h) { assert RowIssued(s, h); }
  }

  lemma StepIsSound(s: State, a: Action)
    requires Sound(s) && Enabled(s, a)
    ensures Sound(Apply(s, a))
  {
    if a.SetLocal? {
      SetLocalIsSound(s, a);
    } else if IsCall(a) {
      OtherCallIsSound(s, a);
    } else if IsReconciling(a) {
      ReconcileIsSound(s, a);
    } else if a.QueryDue? {
      QueryIsSound(s, a.now, a.limit, a.list);
    } else if a.ClearLocal? || a.ClearIndex? {
      ClearIsSound(s, a);
    } else if a.Fire? {
      FireIsSound(s);
    } else {
      LeavePassIsSound(s, a);
    }
  }

  lemma {:induction false} RunIsSound(s: State, run: seq<Action>)
    requires Sound(s) && Feasible(s, run)
    ensures Sound(Run(s, run))
    decreases |run|
  {
    if run != [] {
      StepIsSound(s, run[0]);
      RunIsSound(Apply(s, run[0]), run[1..]);
    }
  }

  // ---------- about one alarm ----------

  /** The pass has not read its list of due alarms yet. */
  predicate BeforeQuery(pass: Pass) { pass.Scanning? || pass.Scanned? || pass.Reconciling? || pass.Querying? }

  /** After the comparison, a row of the alarm, once dispatched, is due to be overwritten or removed. */
  predicate OwnRowOk(s: State, token: Token, h: Hash)
    requires h in s.index
  {
    s.index[h].token == token && Fired(s, token) ==>
      && !s.pass.Querying?
      && (s.pass.Reconciling? ==> h in s.pass.fixes || h in s.pass.removes)
  }

  predicate OwnWriterOk(s: State, token: Token, w: nat)
    requires w in s.writers
  {
    s.writers[w].SetPending? && s.writers[w].token == token ==>
      && (Fired(s, token) ==> s.writers[w].overlapped && !BeforeQuery(s.pass))
      && (!s.pass.Idle? ==> s.writers[w].overlapped)
  }

  predicate OwnDueOk(s: State, token: Token) {
    s.pass.Dispatching? ==> forall i | 0 <= i < |s.pass.due| :: s.pass.due[i].token == token ==> !Fired(s, token)
  }

  ghost predicate Inv(s: State, token: Token) {
    && Sound(s)
    && (forall h | h in s.index :: OwnRowOk(s, token, h))
    && (forall w | w in s.writers :: OwnWriterOk(s, token, w))
    && OwnDueOk(s, token)
  }

  lemma CallKeepsOwn(s: State, a: Action, token: Token)
    requires Inv(s, token) && IsCall(a) && CanCall(s, a)
    ensures var s' := AfterCall(s, a);
            && (forall h | h in s'.index :: OwnRowOk(s', token, h))
            && (forall w | w in s'.writers :: OwnWriterOk(s', token, w))
            && OwnDueOk(s', token)
  {
    var s' := AfterCall(s, a);
    assert s'.fired == s.fired;
    forall h | h in s'.index ensures OwnRowOk(s', token, h) {
      if a.SetIndex? && h == s.writers[a.w].record.id.hash {
        assert OwnWriterOk(s, token, a.w);
      } else {
        assert OwnRowOk(s, token, h);
      }
    }
    forall w | w in s'.writers ensures OwnWriterOk(s', token, w) {
      if a.SetLocal? && w == a.w {
      } else if s'.writers[w].SetPending? {
        assert OwnWriterOk(s, token, w);
      }
    }
  }

  lemma BeginPassKeepsOwn(s: State, token: Token)
    requires Inv(s, token) && CanReconcile(s, BeginPass) && !Straddles(s, BeginPass, token)
    ensures var s' := AfterReconcile(s, BeginPass);
            && (forall h | h in s'.index :: OwnRowOk(s', token, h))
            && (forall w | w in s'.writers :: OwnWriterOk(s', token, w))
  {
    var s' := AfterReconcile(s, BeginPass);
    forall h | h in s'.index ensures OwnRowOk(s', token, h) { assert OwnRowOk(s, token, h); }
    forall w | w in s'.writers ensures OwnWriterOk(s', token, w) { assert OwnWriterOk(s, token, w); }
  }

  lemma ReconcileKeepsOwn(s: State, a: Action, token: Token)
    requires Inv(s, token) && IsReconciling(a) && !a.BeginPass? && CanReconcile(s, a)
    ensures var s' := AfterReconcile(s, a);
            && (forall h | h in s'.index :: OwnRowOk(s', token, h))
            && (forall w | w in s'.writers :: OwnWriterOk(s', token, w))
  {
    var s' := AfterReconcile(s, a);
    assert s'.fired == s.fired && s'.writers == s.writers;
    forall h | h in s'.index ensures OwnRowOk(s', token, h) {
      if a.ReadIndex? {
        if h in s.pass.found { assert Unfired(s, s.pass.found[h].token, h); }
      } else if a.FixOne? && h == a.hash {
        assert Unfired(s, s.pass.fixes[h].token, h);
      } else {
        assert OwnRowOk(s, token, h);
      }
    }
    forall w | w in s'.writers ensures OwnWriterOk(s', token, w) { assert OwnWriterOk(s, token, w); }
  }

  /** No row that the query can return is of the alarm once it has been dispatched. */
  lemma QueryKeepsOwn(s: State, now: int, limit: int, list: seq<AlarmRecord>, token: Token)
    requires Inv(s, token) && CanQuery(s, now, limit, list) && forall i | 0 <= i < |list| :: list[i].id.hash in s.index
    ensures var s' := AfterQuery(s, list);
            && (forall h | h in s'.index :: OwnRowOk(s', token, h))
            && (forall w | w in s'.writers :: OwnWriterOk(s', token, w))
            && OwnDueOk(s', token)
  {
    var s' := AfterQuery(s, list);
    assert s'.fired == s.fired;
    forall i | 0 <= i < |list| && s'.pass.due[i].token == token ensures !Fired(s', token) {
      assert OwnRowOk(s, token, list[i].id.hash);
    }
    forall w | w in s'.writers ensures OwnWriterOk(s', token, w) { assert OwnWriterOk(s, token, w); }
    forall h | h in s'.index ensures OwnRowOk(s', token, h) { assert OwnRowOk(s, token, h); }
  }

  lemma DispatchKeepsOwn(s: State, a: Action, token: Token)
    requires Inv(s, token) && IsDispatching(a) && !a.Fire? && CanDispatch(s, a)
    ensures var s' := AfterDispatch(s, a);
            && (forall h | h in s'.index :: OwnRowOk(s', token, h))
            && (forall w | w in s'.writers :: OwnWriterOk(s', token, w))
            && OwnDueOk(s', token)
  {
    var s' := AfterDispatch(s, a);
    assert s'.fired == s.fired;
    forall w | w in s'.writers ensures OwnWriterOk(s', token, w) { assert OwnWriterOk(s, token, w); }
    forall h | h in s'.index ensures OwnRowOk(s', token, h) { assert OwnRowOk(s, token, h); }
  }

  lemma FireKeepsOwn(s: State, token: Token)
    requires Inv(s, token) && CanDispatch(s, Fire)
    ensures var s' := AfterDispatch(s, Fire);
            && (forall h | h in s'.index :: OwnRowOk(s', token, h))
            && (forall w | w in s'.writers :: OwnWriterOk(s', token, w))
            && OwnDueOk(s', token)
  {
    var s' := AfterDispatch(s, Fire);
    var due := s.pass.due;
    forall t | Fired(s', t) ensures Fired(s, t) || t == due[0].token { }
    forall w | w in s'.writers ensures OwnWriterOk(s', token, w) { assert OwnWriterOk(s, token, w); }
    forall h | h in s'.index ensures OwnRowOk(s', token, h) { assert OwnRowOk(s, token, h); }
    forall i | 0 <= i < |s'.pass.due| && s'.pass.due[i].token == token ensures !Fired(s', token) {
      assert s'.pass.due[i] == due[i + 1];
      assert due[0].record.id.hash != due[i + 1].record.id.hash;
      assert Issued(s, due[0].token, due[0].record.id.hash) && Issued(s, due[i + 1].token, due[i + 1].record.id.hash);
    }
  }

  /** A step keeps what is known about an alarm unless its own `setAlarm` straddles two passes. */
  lemma StepKeepsInv(s: State, a: Action, token: Token)
    requires Inv(s, token) && Enabled(s, a) && !Straddles(s, a, token)
    ensures Inv(Apply(s, a), token)
  {
    StepIsSound(s, a);
    if IsCall(a) {
      CallKeepsOwn(s, a, token);
    } else if a.BeginPass? {
      BeginPassKeepsOwn(s, token);
    } else if IsReconciling(a) {
      ReconcileKeepsOwn(s, a, token);
    } else if a.QueryDue? {
      QueryIsSound(s, a.now, a.limit, a.list);
      QueryKeepsOwn(s, a.now, a.limit, a.list, token);
    } else if a.Fire? {
      FireKeepsOwn(s, token);
    } else {
      DispatchKeepsOwn(s, a, token);
    }
  }

  lemma {:induction false} RunKeepsInv(s: State, run: seq<Action>, token: Token)
    requires Inv(s, token) && Feasible(s, run) && NoStraddling(s, run, token)
    ensures Inv(Run(s, run), token)
    decreases |run|
  {
    if run != [] {
      StepKeepsInv(s, run[0], token);
      RunKeepsInv(Apply(s, run[0]), run[1..], token);
    }
  }
}
