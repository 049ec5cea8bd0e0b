/**
 * Runs of due passes among calls of `setAlarm` and `deleteAlarm`, in which every write to either table is a step of its
 * own, any call or pass may fail half-way, and the process may crash between any two steps. One scheduler runs the
 * passes, so there is at most one at a time.
 */
module AlarmRuns {
  import opened AlarmTables

  /** Every call of `setAlarm` has a number. The program does not know it: no step depends on the number of a row. */
  type Token = nat

  datatype Entry = Entry(record: AlarmRecord, token: Token)

  datatype Numbered = Numbered(row: IndexRow, token: Token)

  /** A call that has written the object's own row and not yet the index. */
  datatype Writer =
    | SetPending(record: AlarmRecord, token: Token, overlapped: bool)
    | DeletePending(hash: Hash)

  datatype Clearing = ClearingLocal | ClearingIndex | Cleared

  datatype Pass =
    | Idle
    | Scanning(todo: set<Hash>, visited: set<Hash>, found: map<Hash, Entry>)
    | Scanned(found: map<Hash, Entry>)
    | Reconciling(fixes: map<Hash, Entry>, removes: set<Hash>)
    | Querying
    | Dispatching(due: seq<Entry>, clearing: Clearing)

  /** `sets` lists the objects of the `setAlarm` calls, in the order of their numbers; `fired` the alarms dispatched. */
  datatype State = State(
    local: map<Hash, Entry>,
    index: map<Hash, Numbered>,
    writers: map<nat, Writer>,
    pass: Pass,
    sets: seq<Hash>,
    fired: seq<Entry>)

  const START := State(map[], map[], map[], Idle, [], [])

  datatype Action =
    | SetLocal(w: nat, record: AlarmRecord)
    | SetIndex(w: nat)
    | DeleteLocal(w: nat, hash: Hash)
    | DeleteIndex(w: nat)
    | FailWriter(w: nat)
    | BeginPass
    | ScanFile(hash: Hash)
    | EndScan
    | ReadIndex
    | FixOne(hash: Hash)
    | RemoveOne(hash: Hash)
    | EndReconcile
    | QueryDue(now: int, limit: int, list: seq<AlarmRecord>)
    | ClearLocal
    | ClearIndex
    | Fire
    | EndPass
    | FailPass
    | Crash

  function Rows(index: map<Hash, Numbered>): Index { map h | h in index :: index[h].row }

  function Locals(local: map<Hash, Entry>): Local { map h | h in local :: local[h].record }

  // ---------- steps of the calls ----------

  predicate IsCall(a: Action) {
    a.SetLocal? || a.SetIndex? || a.DeleteLocal? || a.DeleteIndex? || a.FailWriter?
  }

  predicate CanCall(s: State, a: Action)
    requires IsCall(a)
  {
    match a
    case SetLocal(w, _) => w !in s.writers
    case SetIndex(w) => w in s.writers && s.writers[w].SetPending?
    case DeleteLocal(w, _) => w !in s.writers
    case DeleteIndex(w) => w in s.writers && s.writers[w].DeletePending?
    case FailWriter(w) => w in s.writers
  }

  function AfterCall(s: State, a: Action): State
    requires IsCall(a) && CanCall(s, a)
  {
    match a
    case SetLocal(w, record) =>
      var token := |s.sets|;
      s.(local := s.local[record.id.hash := Entry(record, token)], sets := s.sets + [record.id.hash],
         writers := s.writers[w := SetPending(record, token, !s.pass.Idle?)])
    case SetIndex(w) =>
      var p := s.writers[w];
      s.(index := s.index[p.record.id.hash := Numbered(RowOf(p.record), p.token)], writers := s.writers - {w})
    case DeleteLocal(w, hash) => s.(local := s.local - {hash}, writers := s.writers[w := DeletePending(hash)])
    case DeleteIndex(w) => s.(index := s.index - {s.writers[w].hash}, writers := s.writers - {w})
    case FailWriter(w) => s.(writers := s.writers - {w})
  }

  // ---------- steps of a reconciliation ----------

  predicate IsReconciling(a: Action) {
    a.BeginPass? || a.ScanFile? || a.EndScan? || a.ReadIndex? || a.FixOne? || a.RemoveOne? || a.EndReconcile?
  }

  predicate CanReconcile(s: State, a: Action)
    requires IsReconciling(a)
  {
    match a
    case BeginPass => s.pass.Idle?
    case ScanFile(h) => s.pass.Scanning? && h !in s.pass.visited
    case EndScan => s.pass.Scanning? && s.pass.todo <= s.pass.visited
    case ReadIndex => s.pass.Scanned?
    case FixOne(h) => s.pass.Reconciling? && h in s.pass.fixes
    case RemoveOne(h) => s.pass.Reconciling? && s.pass.fixes == map[] && h in s.pass.removes
    case EndReconcile => s.pass.Reconciling? && s.pass.fixes == map[] && s.pass.removes == {}
  }

  function Overlapped(w: Writer): Writer {
    if w.SetPending? then w.(overlapped := true) else w
  }

  /** The alarms found by the scan for which the index has no row, or a different one. */
  function Fixes(found: map<Hash, Entry>, index: map<Hash, Numbered>): map<Hash, Entry> {
    map h | h in found && Differs(Locals(found), Rows(index), h) :: found[h]
  }

  /** A row that is equal to the one an alarm should have stands for that alarm from now on. */
  function Relabelled(index: map<Hash, Numbered>, found: map<Hash, Entry>): map<Hash, Numbered> {
    map h | h in index ::
      if h in found && index[h].row == RowOf(found[h].record) then index[h].(token := found[h].token) else index[h]
  }

  function AfterReconcile(s: State, a: Action): State
    requires IsReconciling(a) && CanReconcile(s, a)
  {
    match a
    case BeginPass =>
      s.(pass := Scanning(s.local.Keys, {}, map[]), writers := map w | w in s.writers :: Overlapped(s.writers[w]))
    case ScanFile(h) =>
      s.(pass := s.pass.(visited := s.pass.visited + {h},
                         found := if h in s.local then s.pass.found[h := s.local[h]] else s.pass.found))
    case EndScan => s.(pass := Scanned(s.pass.found))
    case ReadIndex =>
      var found := s.pass.found;
      s.(pass := Reconciling(Fixes(found, s.index), Stale(Locals(found), Rows(s.index))),
         index := Relabelled(s.index, found))
    case FixOne(h) =>
      var e := s.pass.fixes[h];
      s.(index := s.index[h := Numbered(RowOf(e.record), e.token)], pass := s.pass.(fixes := s.pass.fixes - {h}))
    case RemoveOne(h) => s.(index := s.index - {h}, pass := s.pass.(removes := s.pass.removes - {h}))
    case EndReconcile => s.(pass := Querying)
  }

  // ---------- steps of the dispatches ----------

  /** The query answers from the rows of the index as they are now. */
  ghost predicate CanQuery(s: State, now: int, limit: int, list: seq<AlarmRecord>) {
    s.pass.Querying? && IsSelection(Records(Rows(s.index)), now, limit, list)
  }

  function AfterQuery(s: State, list: seq<AlarmRecord>): State
    requires forall i | 0 <= i < |list| :: list[i].id.hash in s.index
  {
    s.(pass := Dispatching(
         seq(|list|, i requires 0 <= i < |list| => Entry(list[i], s.index[list[i].id.hash].token)), ClearingLocal))
  }

  predicate IsDispatching(a: Action) {
    a.ClearLocal? || a.ClearIndex? || a.Fire? || a.EndPass? || a.FailPass? || a.Crash?
  }

  predicate CanDispatch(s: State, a: Action)
    requires IsDispatching(a)
  {
    match a
    case ClearLocal => s.pass.Dispatching? && s.pass.due != [] && s.pass.clearing.ClearingLocal?
    case ClearIndex => s.pass.Dispatching? && s.pass.due != [] && s.pass.clearing.ClearingIndex?
    case Fire => s.pass.Dispatching? && s.pass.due != [] && s.pass.clearing.Cleared?
    case EndPass => s.pass.Dispatching? && s.pass.due == []
    case FailPass => !s.pass.Idle?
    case Crash => true
  }

  function AfterDispatch(s: State, a: Action): State
    requires IsDispatching(a) && CanDispatch(s, a)
  {
    match a
    case ClearLocal => s.(local := s.local - {s.pass.due[0].record.id.hash}, pass := s.pass.(clearing := ClearingIndex))
    case ClearIndex => s.(index := s.index - {s.pass.due[0].record.id.hash}, pass := s.pass.(clearing := Cleared))
    case Fire => s.(fired := s.fired + [s.pass.due[0]], pass := Dispatching(s.pass.due[1..], ClearingLocal))
    case EndPass => s.(pass := Idle)
    case FailPass => s.(pass := Idle)
    case Crash => s.(pass := Idle, writers := map[])
  }

  // ---------- all steps ----------

  ghost predicate Enabled(s: State, a: Action) {
    if IsCall(a) then CanCall(s, a)
    else if IsReconciling(a) then CanReconcile(s, a)
    else if IsDispatching(a) then CanDispatch(s, a)
    else CanQuery(s, a.now, a.limit, a.list)
  }

  ghost function Apply(s: State, a: Action): State
    requires Enabled(s, a)
  {
    if IsCall(a) then AfterCall(s, a)
    else if IsReconciling(a) then AfterReconcile(s, a)
    else if IsDispatching(a) then AfterDispatch(s, a)
    else AfterQuery(s, a.list)
  }

  ghost predicate Feasible(s: State, run: seq<Action>)
    decreases |run|
  {
    run == [] || (Enabled(s, run[0]) && Feasible(Apply(s, run[0]), run[1..]))
  }

  ghost function Run(s: State, run: seq<Action>): State
    requires Feasible(s, run)
    decreases |run|
  {
    if run == [] then s else Run(Apply(s, run[0]), run[1..])
  }

  /** A pass begins while the `setAlarm` with that number is still under way and an earlier pass has already met it. */
  ghost predicate Straddles(s: State, a: Action, token: Token) {
    a.BeginPass?
    && exists w | w in s.writers :: s.writers[w].SetPending? && s.writers[w].token == token && s.writers[w].overlapped
  }

  /** That call does not straddle two passes in the run, whatever the other calls do. */
  ghost predicate NoStraddling(s: State, run: seq<Action>, token: Token)
    requires Feasible(s, run)
    decreases |run|
  {
    run != [] ==> !Straddles(s, run[0], token) && NoStraddling(Apply(s, run[0]), run[1..], token)
  }
}
