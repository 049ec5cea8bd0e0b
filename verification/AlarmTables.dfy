/** The alarms of the objects, the index over them in another database, and their reconciliation. */
module AlarmTables {
  import opened Wrappers
  import opened Identity

  type Hash = string

  datatype AlarmRecord = AlarmRecord(id: ObjectID, dueAt: int)

  /** A row of the index; its primary key is the hash. */
  datatype IndexRow = IndexRow(namespace: string, name: string, dueAt: int)

  type Local = map<Hash, AlarmRecord>
  type Index = map<Hash, IndexRow>

  function RowOf(a: AlarmRecord): IndexRow { IndexRow(a.id.namespace, a.id.name, a.dueAt) }

  function RecordOf(hash: Hash, row: IndexRow): AlarmRecord {
    AlarmRecord(ObjectID(row.namespace, row.name, hash), row.dueAt)
  }

  /** An object database is named after the hash it holds. */
  ghost predicate WellHashed(local: Local) {
    forall h | h in local :: local[h].id.hash == h
  }

  /** The index that agrees with the objects. */
  function IndexOf(local: Local): Index { map h | h in local :: RowOf(local[h]) }

  function Records(index: Index): map<Hash, AlarmRecord> { map h | h in index :: RecordOf(h, index[h]) }

  // ---------- reconciliation ----------

  /** The index has no row, or a different one, for an alarm. */
  predicate Differs(local: Local, index: Index, h: Hash)
    requires h in local
  {
    !(h in index && index[h] == RowOf(local[h]))
  }

  function Differing(local: Local, index: Index): set<Hash> { set h | h in local && Differs(local, index, h) }

  function Stale(local: Local, index: Index): set<Hash> { index.Keys - local.Keys }

  datatype ReconcileResult = ReconcileResult(scannedObjects: nat, repairedIndex: nat, removedStale: nat)

  /** The index with the rows of `fixed` brought up to date. */
  function Repaired(local: Local, index: Index, fixed: set<Hash>): Index
    requires fixed <= local.Keys
  {
    index + map h | h in fixed :: RowOf(local[h])
  }

  /** Two indexes say the same about an object. */
  predicate SameRow(one: Index, other: Index, h: Hash) {
    && (h in one <==> h in other)
    && (h in one ==> one[h] == other[h])
  }

  /** Every row of the index is as it was or as it should be. */
  ghost predicate OldOrRight(local: Local, before: Index, after: Index) {
    forall h :: SameRow(after, before, h) || SameRow(after, IndexOf(local), h)
  }

  /** Where a reconciliation fails: before it has read both tables, or at one of its writes (counted from 0). */
  datatype ReconcileFault = LocalScanFails | IndexScanFails | WriteFails(number: nat) | NothingFails

  // ---------- due alarms ----------

  function Due(records: map<Hash, AlarmRecord>, now: int): set<Hash> {
    set h | h in records && records[h].dueAt <= now
  }

  ghost predicate Listed(due: seq<AlarmRecord>, h: Hash) {
    exists i | 0 <= i < |due| :: due[i].id.hash == h
  }

  /** Records of due alarms, no object twice, in the order of their times. */
  ghost predicate InOrder(records: map<Hash, AlarmRecord>, now: int, due: seq<AlarmRecord>) {
    && (forall i | 0 <= i < |due| :: due[i].id.hash in Due(records, now) && due[i] == records[due[i].id.hash])
    && (forall i, j | 0 <= i < j < |due| :: due[i].id.hash != due[j].id.hash && due[i].dueAt <= due[j].dueAt)
  }

  /** `due` lists the first `limit` due records by time; records due at the same time come in any order. */
  ghost predicate IsSelection(records: map<Hash, AlarmRecord>, now: int, limit: int, due: seq<AlarmRecord>) {
    && InOrder(records, now, due)
    && |due| == (if |Due(records, now)| < Clamped(limit) then |Due(records, now)| else Clamped(limit))
    && (forall h, i | h in Due(records, now) && !Listed(due, h) && 0 <= i < |due| :: due[i].dueAt <= records[h].dueAt)
  }

  // ---------- what a due pass does ----------

  /** What the handler of an alarm does to its own alarm, and whether its dispatch succeeds. */
  datatype Effect = Effect(reset: Option<int>, succeeds: bool)

  /** What goes wrong while an alarm is cleared. */
  datatype Fault = NoFault | LocalFails | IndexFails

  /** The alarms after the record has been cleared and its handler has run. */
  function AfterRecord(local: Local, a: AlarmRecord, e: Effect): Local {
    match e.reset
    case None => local - {a.id.hash}
    case Some(dueAt) => local[a.id.hash := AlarmRecord(a.id, dueAt)]
  }

  /** The alarms after the first `k` records have been worked off. */
  function AfterRecords(local: Local, due: seq<AlarmRecord>, handler: Hash -> Effect, k: nat): Local
    requires k <= |due|
  {
    if k == 0 then local
    else AfterRecord(AfterRecords(local, due, handler, k - 1), due[k - 1], handler(due[k - 1].id.hash))
  }

  /** The objects of the first `k` records. */
  function Ids(due: seq<AlarmRecord>, k: nat): seq<ObjectID>
    requires k <= |due|
  {
    seq(k, i requires 0 <= i < k => due[i].id)
  }

  /** An object has the same alarm, or none, in two states. */
  predicate SameAlarm(one: Local, other: Local, h: Hash) {
    && (h in one <==> h in other)
    && (h in one ==> one[h] == other[h])
  }

  /** Working off records leaves the alarms of all other objects alone. */
  lemma {:induction false} OtherAlarmsStay(local: Local, due: seq<AlarmRecord>, handler: Hash -> Effect, k: nat, h: Hash)
    requires k <= |due| && forall i | 0 <= i < k :: due[i].id.hash != h
    ensures SameAlarm(AfterRecords(local, due, handler, k), local, h)
  {
    if k != 0 {
      OtherAlarmsStay(local, due, handler, k - 1, h);
    }
  }

  /** Each record worked off leaves behind exactly what its own handler set, and nothing else of that object. */
  lemma {:induction false} HandlersDecide(local: Local, due: seq<AlarmRecord>, handler: Hash -> Effect, k: nat, i: nat)
    requires i < k <= |due|
    requires forall i, j | 0 <= i < j < |due| :: due[i].id.hash != due[j].id.hash
    ensures var h := due[i].id.hash;
            var after := AfterRecords(local, due, handler, k);
            match handler(h).reset
            case None => h !in after
            case Some(dueAt) => h in after && after[h] == AlarmRecord(due[i].id, dueAt)
  {
    if i + 1 < k {
      HandlersDecide(local, due, handler, k - 1, i);
      assert due[i].id.hash != due[k - 1].id.hash;
    }
  }

  /** Working off records leaves every alarm under the hash of its object, as the next pass needs it. */
  lemma {:induction false} AfterRecordsWellHashed(local: Local, due: seq<AlarmRecord>, handler: Hash -> Effect, k: nat)
    requires WellHashed(local) && k <= |due|
    ensures WellHashed(AfterRecords(local, due, handler, k))
  {
    if k != 0 {
      AfterRecordsWellHashed(local, due, handler, k - 1);
    }
  }

  class AlarmStore {
    var local: Local
    var index: Index
    /** The objects whose alarm has been dispatched. */
    var dispatches: seq<ObjectID>

    constructor ()
      ensures local == map[] && index == map[] && dispatches == []
    {
      local, index, dispatches := map[], map[], [];
    }

    /** The object's own row first, the index second; each write may fail, and then the rest is not attempted. */
    method SetAlarm(id: ObjectID, dueAt: int, fault: Fault) returns (ok: bool)
      modifies this`local, this`index
      ensures ok <==> fault.NoFault?
      ensures local == if fault.LocalFails? then old(local) else old(local)[id.hash := AlarmRecord(id, dueAt)]
      ensures index == if ok then old(index)[id.hash := IndexRow(id.namespace, id.name, dueAt)] else old(index)
      ensures ok && old(index == IndexOf(local)) ==> index == IndexOf(local)
    {
      if fault.LocalFails? {
        return false;
      }
      local := local[id.hash := AlarmRecord(id, dueAt)];
      if fault.IndexFails? {
        return false;
      }
      index := index[id.hash := IndexRow(id.namespace, id.name, dueAt)];
      ok := true;
    }

    method DeleteAlarm(id: ObjectID, fault: Fault) returns (ok: bool)
      modifies this`local, this`index
      ensures ok <==> fault.NoFault?
      ensures local == if fault.LocalFails? then old(local) else old(local) - {id.hash}
      ensures index == if ok then old(index) - {id.hash} else old(index)
      ensures ok && old(index == IndexOf(local)) ==> index == IndexOf(local)
    {
      if fault.LocalFails? {
        return false;
      }
      local := local - {id.hash};
      if fault.IndexFails? {
        return false;
      }
      index := index - {id.hash};
      ok := true;
    }

    /**
     * Run without interference, and if nothing fails, reconciliation makes the index agree with the objects, whatever it
     * was before, and counts exactly the rows it had to write and to remove. If a write fails, every row is either as it
     * was or as it should be.
     */
    method ReconcileAlarmIndex(fault: ReconcileFault) returns (result: ReconcileResult, ok: bool)
      modifies this`index
      ensures ok <==> || fault.NothingFails?
                      || (fault.WriteFails? && fault.number >= |Differing(local, old(index))| + |Stale(local, old(index))|)
      ensures ok ==> index == IndexOf(local)
      ensures ok ==> result == ReconcileResult(|local|, |Differing(local, old(index))|, |Stale(local, old(index))|)
      ensures fault.LocalScanFails? ==> result == ReconcileResult(0, 0, 0) && index == old(index)
      ensures fault.IndexScanFails? ==> result == ReconcileResult(|local|, 0, 0) && index == old(index)
      ensures fault.WriteFails? && !ok ==> result.repairedIndex + result.removedStale == fault.number
      ensures OldOrRight(local, old(index), index)
    {
      result, ok := ReconcileResult(0, 0, 0), false;
      if fault.LocalScanFails? {
        return;
      }
      result := result.(scannedObjects := |local|);
      if fault.IndexScanFails? {
        return;
      }
      var indexed := index;
      var repaired, finished := RepairRows(indexed, fault);
      result := result.(repairedIndex := repaired);
      if !finished {
        return;
      }
      var removed;
      ghost var left;
      removed, ok, left := RemoveStaleRows(indexed, repaired, fault);
      result := result.(removedStale := removed);
      if ok {
        RemovalEnds(Repaired(local, indexed, Differing(local, indexed)), Stale(local, indexed), index, removed);
        AllRepaired(local, indexed);
      }
    }

    /** The first loop of a reconciliation writes the rows that differ or are missing. */
    method RepairRows(indexed: Index, fault: ReconcileFault) returns (repaired: nat, ok: bool)
      requires index == indexed
      modifies this`index
      ensures ok <==> !(fault.WriteFails? && fault.number < |Differing(local, indexed)|)
      ensures repaired == if ok then |Differing(local, indexed)| else fault.number
      ensures ok ==> index == Repaired(local, indexed, Differing(local, indexed))
      ensures OldOrRight(local, indexed, index)
    {
      repaired, ok := 0, false;
      var todo := local.Keys;
      RepairStart(local, indexed);
      while todo != {}
        invariant RepairedSoFar(local, indexed, index, todo, repaired)
        invariant fault.WriteFails? ==> repaired <= fault.number
        decreases todo
      {
        var hash :| hash in todo;
        if Differs(local, indexed, hash) {
          if fault == WriteFails(repaired) {
            RepairStops(local, indexed, index, todo, repaired, hash);
            return;
          }
          RepairNext(local, indexed, index, todo, repaired, hash);
          index := index[hash := RowOf(local[hash])];
          repaired := repaired + 1;
        } else {
          RepairSkips(local, indexed, index, todo, repaired, hash);
        }
        todo := todo - {hash};
      }
      RepairEnds(local, indexed, index, repaired);
      ok := true;
    }

    /** The second loop removes the rows of objects that have no alarm; `left` are those it has not come to. */
    method RemoveStaleRows(indexed: Index, repaired: nat, fault: ReconcileFault)
      returns (removed: nat, ok: bool, ghost left: set<Hash>)
      requires fault.WriteFails? ==> repaired <= fault.number
      modifies this`index
      ensures ok <==> !(fault.WriteFails? && fault.number < repaired + |Stale(local, indexed)|)
      ensures !ok ==> repaired + removed == fault.number
      ensures RemovedSoFar(old(index), Stale(local, indexed), index, left, removed)
      ensures ok ==> left == {} && removed == |Stale(local, indexed)|
    {
      removed, ok, left := 0, false, indexed.Keys;
      var unseen := indexed.Keys;
      ghost var complete, stale := index, Stale(local, indexed);
      RemovalStart(complete, stale, unseen);
      while unseen != {}
        invariant unseen <= indexed.Keys && left == unseen
        invariant RemovedSoFar(complete, stale, index, unseen, removed)
        invariant fault.WriteFails? ==> repaired + removed <= fault.number
        decreases unseen
      {
        var hash :| hash in unseen;
        RemovalNext(complete, stale, index, unseen, removed, hash);
        if hash !in local {
          if fault == WriteFails(repaired + removed) {
            return;
          }
          index := WithoutRow(index, hash);
          removed := removed + 1;
        }
        unseen := unseen - {hash};
        left := unseen;
      }
      RemovalEnds(complete, stale, index, removed);
      ok := true;
    }

    /** The query for due alarms, which orders by time and stops at the limit. */
    method DueAlarms(now: int, limit: int) returns (due: seq<AlarmRecord>)
      ensures IsSelection(Records(index), now, limit, due)
    {
      var most := Clamped(limit);
      var records := Records(index);
      var rest := Due(records, now);
      due := [];
      while rest != {} && |due| < most
        invariant Chosen(records, now, due, rest) && |due| <= most
        decreases rest
      {
        var first := Earliest(records, rest);
        ChooseNext(records, now, due, rest, first);
        due := due + [records[first]];
        rest := rest - {first};
      }
    }

    /**
     * A due pass without a crash. It works off the first due alarms exactly as a direct scan of the objects would list
     * them: each is cleared, then dispatched, and what its handler sets again stays. It ends with the index in agreement
     * with the objects. If it stops at a record, the later ones keep their alarms in both tables.
     */
    method DispatchDueAlarms(now: int, limit: int, reconcileFault: ReconcileFault, queryFails: bool,
                             clearFault: nat -> Fault, handler: Hash -> Effect)
      returns (dispatched: nat, ok: bool, ghost due: seq<AlarmRecord>)
      requires WellHashed(local)
      modifies this
      ensures WellHashed(local)
      ensures (reconcileFault.NothingFails? && !queryFails && NothingFailsLater(clearFault, handler)) ==> ok
      ensures due != [] || ok ==> IsSelection(old(local), now, limit, due)
      ensures dispatched <= |due|
      ensures ok ==> dispatched == |due| && WorkedOff(Now(), old(Now()), due, handler, |due|)
      ensures !ok && dispatched == |due| ==> due == [] && local == old(local) && dispatches == old(dispatches)
      ensures !ok && dispatched < |due| ==> Stopped(Now(), old(Now()), due, clearFault, handler, dispatched)
    {
      dispatched, ok, due := 0, false, [];
      var _, reconciled := ReconcileAlarmIndex(reconcileFault);
      if !reconciled {
        return;
      }
      RecordsOfIndex(local);
      if queryFails {
        return;
      }
      var list := DueAlarms(now, limit);
      due := list;
      dispatched, ok := WorkOffAll(list, clearFault, handler);
      forall k | 0 <= k <= |list| ensures WellHashed(AfterRecords(old(local), list, handler, k)) {
        AfterRecordsWellHashed(old(local), list, handler, k);
      }
    }

    /** The loop of a due pass over the records that the query has returned. */
    method WorkOffAll(due: seq<AlarmRecord>, clearFault: nat -> Fault, handler: Hash -> Effect)
      returns (dispatched: nat, ok: bool)
      requires index == IndexOf(local)
      modifies this
      ensures NothingFailsLater(clearFault, handler) ==> ok
      ensures dispatched <= |due| && (ok <==> dispatched == |due|)
      ensures ok ==> WorkedOff(Now(), old(Now()), due, handler, |due|)
      ensures !ok ==> Stopped(Now(), old(Now()), due, clearFault, handler, dispatched)
    {
      dispatched, ok := 0, false;
      while dispatched < |due|
        invariant dispatched <= |due| && WorkedOff(Now(), old(Now()), due, handler, dispatched)
      {
        var record := due[dispatched];
        ghost var before := Now();
        var cleared := WorkOff(record, clearFault(dispatched), handler(record.id.hash));
        if !cleared {
          return;
        }
        OneMoreWorkedOff(old(Now()), before, Now(), due, handler, dispatched);
        if !handler(record.id.hash).succeeds {
          return;
        }
        dispatched := dispatched + 1;
      }
      ok := true;
    }

    /** The alarm is cleared before it is dispatched; its handler may set it again. */
    method WorkOff(record: AlarmRecord, fault: Fault, effect: Effect) returns (cleared: bool)
      requires index == IndexOf(local)
      modifies this
      ensures cleared <==> fault.NoFault?
      ensures match fault
              case LocalFails => Now() == old(Now())
              case IndexFails => Now() == old(Now().(local := local - {record.id.hash}))
              case NoFault => IsOneMore(old(Now()), Now(), record, effect)
    {
      cleared := DeleteAlarm(record.id, fault);
      if cleared {
        dispatches := dispatches + [record.id];
        if effect.reset.Some? {
          var _ := SetAlarm(record.id, effect.reset.value, NoFault);
        }
      }
    }

    ghost function Now(): Snapshot
      reads this
    {
      Snapshot(local, index, dispatches)
    }
  }

  /** Both tables and the dispatches so far. */
  datatype Snapshot = Snapshot(local: Local, index: Index, dispatches: seq<ObjectID>)

  ghost predicate IsOneMore(before: Snapshot, after: Snapshot, record: AlarmRecord, effect: Effect) {
    && after.local == AfterRecord(before.local, record, effect)
    && after.index == IndexOf(after.local)
    && after.dispatches == before.dispatches + [record.id]
  }

  /** `k` records of a pass have been worked off, nothing else has changed, and the index agrees with the objects. */
  ghost predicate WorkedOff(now: Snapshot, start: Snapshot, due: seq<AlarmRecord>, handler: Hash -> Effect, k: nat)
    requires k <= |due|
  {
    && now.local == AfterRecords(start.local, due, handler, k)
    && now.index == IndexOf(now.local)
    && now.dispatches == start.dispatches + Ids(due, k)
  }

  /** Record `k` has lost its own alarm, but the index still has it; it has not been dispatched. */
  ghost predicate HalfCleared(now: Snapshot, start: Snapshot, due: seq<AlarmRecord>, handler: Hash -> Effect, k: nat)
    requires k < |due|
  {
    && now.local == AfterRecords(start.local, due, handler, k) - {due[k].id.hash}
    && now.index == IndexOf(AfterRecords(start.local, due, handler, k))
    && now.dispatches == start.dispatches + Ids(due, k)
  }

  /** How a pass leaves things that fails at record `k`. */
  ghost predicate Stopped(now: Snapshot, start: Snapshot, due: seq<AlarmRecord>, clearFault: nat -> Fault,
                          handler: Hash -> Effect, k: nat)
    requires k < |due|
  {
    match clearFault(k)
    case LocalFails => WorkedOff(now, start, due, handler, k)
    case IndexFails => HalfCleared(now, start, due, handler, k)
    case NoFault => !handler(due[k].id.hash).succeeds && WorkedOff(now, start, due, handler, k + 1)
  }

  lemma OneMoreWorkedOff(start: Snapshot, before: Snapshot, after: Snapshot, due: seq<AlarmRecord>,
                         handler: Hash -> Effect, k: nat)
    requires k < |due| && WorkedOff(before, start, due, handler, k)
    requires IsOneMore(before, after, due[k], handler(due[k].id.hash))
    ensures WorkedOff(after, start, due, handler, k + 1)
  {
  }

  ghost predicate NothingFailsLater(clearFault: nat -> Fault, handler: Hash -> Effect) {
    && (forall k :: clearFault(k).NoFault?)
    && (forall h :: handler(h).succeeds)
  }

  /** A query under way: `due` has been listed, and `rest` are the due alarms that have not, none of them earlier. */
  ghost predicate Chosen(records: map<Hash, AlarmRecord>, now: int, due: seq<AlarmRecord>, rest: set<Hash>) {
    && InOrder(records, now, due)
    && rest <= Due(records, now)
    && |due| + |rest| == |Due(records, now)|
    && (forall h | h in Due(records, now) :: h in rest <==> !Listed(due, h))
    && (forall h, i | h in rest && 0 <= i < |due| :: due[i].dueAt <= records[h].dueAt)
  }

  lemma ChooseNext(records: map<Hash, AlarmRecord>, now: int, due: seq<AlarmRecord>, rest: set<Hash>, first: Hash)
    requires Chosen(records, now, due, rest) && WellHashed(records)
    requires first in rest && forall h | h in rest :: records[first].dueAt <= records[h].dueAt
    ensures Chosen(records, now, due + [records[first]], rest - {first})
  {
    var more := due + [records[first]];
    assert InOrder(records, now, more) by {
      forall i | 0 <= i < |due| ensures due[i].id.hash != first { assert Listed(due, due[i].id.hash); }
    }
    forall h | h in Due(records, now) ensures h in rest - {first} <==> !Listed(more, h) {
      if h == first {
        assert more[|due|].id.hash == h;
      } else if Listed(due, h) {
        var i :| 0 <= i < |due| && due[i].id.hash == h;
        assert more[i].id.hash == h;
      }
    }
  }

  method Earliest(records: map<Hash, AlarmRecord>, hashes: set<Hash>) returns (first: Hash)
    requires hashes != {} && hashes <= records.Keys
    ensures first in hashes && forall h | h in hashes :: records[first].dueAt <= records[h].dueAt
  {
    first :| first in hashes;
    var rest := hashes - {first};
    while rest != {}
      invariant rest <= hashes && first in hashes
      invariant forall h | h in hashes && h !in rest :: records[first].dueAt <= records[h].dueAt
      decreases rest
    {
      var h :| h in rest;
      rest := rest - {h};
      if records[h].dueAt < records[first].dueAt {
        first := h;
      }
    }
  }

  /** Going through a set: `part` are the elements of `whole` met so far, and `x` is the next. */
  lemma NextOne(part: set<Hash>, whole: set<Hash>, todo: set<Hash>, x: Hash)
    requires part == whole - todo && x in todo
    ensures x in whole ==> part + {x} == whole - (todo - {x}) && |part + {x}| == |part| + 1 && |part| < |whole|
    ensures x !in whole ==> part == whole - (todo - {x})
  {
    if x in whole {
      MoreIsMore(part, x, whole);
    }
  }

  lemma MoreIsMore(some: set<Hash>, another: Hash, whole: set<Hash>)
    requires some <= whole && another in whole && another !in some
    ensures |some| < |whole|
  {
    assert |some + {another}| == |some| + 1;
    assert |whole - (some + {another})| == |whole| - |some + {another}|;
  }

  /** The first loop with `todo` before it: the rows that differ have been written for all other objects. */
  ghost predicate RepairedSoFar(local: Local, before: Index, index: Index, todo: set<Hash>, repaired: nat) {
    && todo <= local.Keys
    && index == Repaired(local, before, Differing(local, before) - todo)
    && repaired == |Differing(local, before) - todo|
  }

  lemma RepairStart(local: Local, index: Index)
    ensures RepairedSoFar(local, index, index, local.Keys, 0)
  {
    assert Differing(local, index) - local.Keys == {};
    assert Repaired(local, index, {}) == index;
  }

  lemma RepairNext(local: Local, before: Index, index: Index, todo: set<Hash>, repaired: nat, hash: Hash)
    requires RepairedSoFar(local, before, index, todo, repaired) && hash in todo && Differs(local, before, hash)
    ensures RepairedSoFar(local, before, index[hash := RowOf(local[hash])], todo - {hash}, repaired + 1)
  {
    var fixed := Differing(local, before) - todo;
    NextOne(fixed, Differing(local, before), todo, hash);
    RepairOne(local, before, fixed, hash);
  }

  lemma RepairSkips(local: Local, before: Index, index: Index, todo: set<Hash>, repaired: nat, hash: Hash)
    requires RepairedSoFar(local, before, index, todo, repaired) && hash in todo && !Differs(local, before, hash)
    ensures RepairedSoFar(local, before, index, todo - {hash}, repaired)
  {
    NextOne(Differing(local, before) - todo, Differing(local, before), todo, hash);
  }

  lemma RepairStops(local: Local, before: Index, index: Index, todo: set<Hash>, repaired: nat, hash: Hash)
    requires RepairedSoFar(local, before, index, todo, repaired) && hash in todo && Differs(local, before, hash)
    ensures repaired < |Differing(local, before)| && OldOrRight(local, before, index)
  {
    NextOne(Differing(local, before) - todo, Differing(local, before), todo, hash);
  }

  lemma RepairEnds(local: Local, before: Index, index: Index, repaired: nat)
    requires RepairedSoFar(local, before, index, {}, repaired)
    ensures repaired == |Differing(local, before)| && OldOrRight(local, before, index)
    ensures index == Repaired(local, before, Differing(local, before))
  {
    assert Differing(local, before) - {} == Differing(local, before);
  }

  function WithoutRow(index: Index, hash: Hash): Index { index - {hash} }

  /** The second loop with `unseen` before it: the other stale rows are gone. */
  ghost predicate RemovedSoFar(complete: Index, stale: set<Hash>, index: Index, unseen: set<Hash>, removed: nat) {
    index == complete - (stale - unseen) && removed == |stale - unseen|
  }

  lemma RemovalStart(complete: Index, stale: set<Hash>, unseen: set<Hash>)
    requires stale <= unseen
    ensures RemovedSoFar(complete, stale, complete, unseen, 0)
  {
    assert stale - unseen == {} && complete - {} == complete;
  }

  lemma RemovalNext(complete: Index, stale: set<Hash>, index: Index, unseen: set<Hash>, removed: nat, hash: Hash)
    requires RemovedSoFar(complete, stale, index, unseen, removed) && hash in unseen
    ensures hash in stale ==>
              && removed < |stale|
              && RemovedSoFar(complete, stale, WithoutRow(index, hash), unseen - {hash}, removed + 1)
    ensures hash !in stale ==> RemovedSoFar(complete, stale, index, unseen - {hash}, removed)
  {
    NextOne(stale - unseen, stale, unseen, hash);
  }

  lemma RemovalEnds(complete: Index, stale: set<Hash>, index: Index, removed: nat)
    requires RemovedSoFar(complete, stale, index, {}, removed)
    ensures index == complete - stale && removed == |stale|
  {
    assert stale - {} == stale;
  }

  lemma RepairOne(local: Local, index: Index, fixed: set<Hash>, hash: Hash)
    requires fixed <= local.Keys && hash in local
    ensures Repaired(local, index, fixed)[hash := RowOf(local[hash])] == Repaired(local, index, fixed + {hash})
  {
  }

  lemma AllRepaired(local: Local, index: Index)
    ensures Repaired(local, index, Differing(local, index)) - Stale(local, index) == IndexOf(local)
  {
  }

  /** Reading the index that agrees with the objects gives the objects' alarms back. */
  lemma RecordsOfIndex(local: Local)
    requires WellHashed(local)
    ensures Records(IndexOf(local)) == local
  {
  }

  /** A second reconciliation finds nothing to do. */
  lemma ReconciledStaysReconciled(local: Local)
    ensures Differing(local, IndexOf(local)) == {} && Stale(local, IndexOf(local)) == {}
  {
  }

  /** A pass that stops at record `k`, before or after its handler, has not touched the alarm of any later record. */
  lemma LaterRecordsAreUntouched(local: Local, now: int, limit: int, due: seq<AlarmRecord>, handler: Hash -> Effect,
                                 k: nat, j: nat)
    requires IsSelection(local, now, limit, due) && k < j < |due|
    ensures var h := due[j].id.hash;
            && h != due[k].id.hash && h in local
            && SameAlarm(AfterRecords(local, due, handler, k), local, h)
            && SameAlarm(AfterRecords(local, due, handler, k + 1), local, h)
  {
    OtherAlarmsStay(local, due, handler, k, due[j].id.hash);
    OtherAlarmsStay(local, due, handler, k + 1, due[j].id.hash);
  }
}
