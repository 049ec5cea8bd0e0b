/** The private key/value storage of an object. Values are what the JSON encoding of a stored value decodes to. */
module Storage {
  import opened Wrappers
  import opened Text
  import opened LikePrefix

  datatype Value = Encodable(json: string) | Unencodable

  type Table = map<string, string>

  /** An operation; `works` says whether the database carries it out. */
  datatype Op =
    | Get(key: string, works: bool)
    | Put(key: string, value: Value, works: bool)
    | Delete(key: string, works: bool)

  datatype Reply = Found(json: string) | Missing | Stored | Deleted(existed: bool) | Refused | Failed

  function ReplyTo(kv: Table, op: Op): Reply {
    var key := TrimSpace(op.key);
    if key == "" || (op.Put? && op.value.Unencodable?) then Refused
    else if !op.works then Failed
    else
      match op
      case Get(_, _) => if key in kv then Found(kv[key]) else Missing
      case Put(_, _, _) => Stored
      case Delete(_, _) => Deleted(key in kv)
  }

  function After(kv: Table, op: Op): Table {
    var key := TrimSpace(op.key);
    if key == "" || !op.works then kv else
      match op
      case Get(_, _) => kv
      case Put(_, v, _) => if v.Encodable? then kv[key := v.json] else kv
      case Delete(_, _) => kv - {key}
  }

  function AfterAll(kv: Table, ops: seq<Op>): Table {
    if ops == [] then kv else After(AfterAll(kv, ops[..|ops| - 1]), ops[|ops| - 1])
  }

  /** What each of a sequence of operations replies, each seeing the effects of the ones before it. */
  function Replies(kv: Table, ops: seq<Op>): seq<Reply> {
    if ops == [] then []
    else Replies(kv, ops[..|ops| - 1]) + [ReplyTo(AfterAll(kv, ops[..|ops| - 1]), ops[|ops| - 1])]
  }

  /** Every stored key is trimmed and not empty. */
  ghost predicate WellKeyed(kv: Table) {
    forall k | k in kv :: k != "" && IsTrimmed(k)
  }

  // ---------- listing ----------

  /** The order of SQLite's binary collation. */
  predicate Before(a: string, b: string) {
    if b == "" then false
    else if a == "" then true
    else a[0] < b[0] || (a[0] == b[0] && Before(a[1..], b[1..]))
  }

  function Matching(kv: Table, prefix: string): set<string> {
    set k | k in kv && BeginsWith(k, prefix)
  }

  /** `listed` holds the least `limit` matching keys, with their values. */
  ghost predicate IsListing(kv: Table, prefix: string, limit: int, listed: Table) {
    && listed.Keys <= Matching(kv, prefix)
    && (forall k | k in listed :: listed[k] == kv[k])
    && |listed| == (if |Matching(kv, prefix)| < Clamped(limit) then |Matching(kv, prefix)| else Clamped(limit))
    && (forall k, other | k in listed && other in Matching(kv, prefix) && other !in listed :: Before(k, other))
  }

  /** How a transaction callback ends. */
  datatype CallbackEnd = Threw(code: ErrorCode) | ReturnedValue | ReturnedPending | ReturnedFulfilled | ReturnedRejected

  /** What `transaction` makes of it. Only a promise that is still pending is noticed; a rejected one counts as success. */
  function CallbackError(end: CallbackEnd): Option<ErrorCode> {
    match end
    case Threw(code) => Some(code)
    case ReturnedPending => Some(BadRequest)
    case _ => None
  }

  class SQLiteStorage {
    var kv: Table

    constructor ()
      ensures kv == map[]
    {
      kv := map[];
    }

    method Execute(op: Op) returns (reply: Reply)
      requires WellKeyed(kv)
      modifies this
      ensures WellKeyed(kv)
      ensures kv == After(old(kv), op) && reply == ReplyTo(old(kv), op)
    {
      var key := TrimSpace(op.key);
      var _, _ := TrimSpaceSplits(op.key);
      if key == "" {
        return Refused;
      }
      match op {
        case Get(_, works) =>
          if !works {
            return Failed;
          }
          reply := if key in kv then Found(kv[key]) else Missing;
        case Put(_, value, works) =>
          if value.Unencodable? {
            return Refused;
          }
          if !works {
            return Failed;
          }
          kv := kv[key := value.json];
          reply := Stored;
        case Delete(_, works) =>
          if !works {
            return Failed;
          }
          var rows := if key in kv then 1 else 0;
          kv := kv - {key};
          reply := Deleted(rows > 0);
      }
    }

    /**
     * A transaction in which the callback performs `ops` and then ends. It applies all of them exactly when beginning,
     * callback and commit succeed, and otherwise none; inside, every operation sees the ones before it.
     */
    method Transaction(isFunction: bool, begins: bool, ops: seq<Op>, end: CallbackEnd, commits: bool)
      returns (r: Result<()>, replies: seq<Reply>)
      requires WellKeyed(kv)
      modifies this
      ensures WellKeyed(kv)
      ensures r.Ok? <==> isFunction && begins && CallbackError(end).None? && commits
      ensures kv == if r.Ok? then AfterAll(old(kv), ops) else old(kv)
      ensures replies == if isFunction && begins then Replies(old(kv), ops) else []
      ensures r.Err? ==> r.code == if !isFunction then BadRequest
                                   else if begins && CallbackError(end).Some? then CallbackError(end).value
                                   else StorageError
    {
      replies := [];
      if !isFunction {
        return Err(BadRequest), replies;
      }
      if !begins {
        return Err(StorageError), replies;
      }
      var saved := kv;
      var committed := false;
      for i := 0 to |ops|
        invariant WellKeyed(kv) && WellKeyed(saved)
        invariant kv == AfterAll(saved, ops[..i]) && replies == Replies(saved, ops[..i])
      {
        assert ops[..i + 1][..i] == ops[..i];
        var reply := Execute(ops[i]);
        replies := replies + [reply];
      }
      assert ops[..|ops|] == ops;
      if CallbackError(end).Some? {
        r := Err(CallbackError(end).value);
      } else if !commits {
        r := Err(StorageError);
      } else {
        committed := true;
        r := Ok(());
      }
      if !committed {
        kv := saved;
      }
    }

    /** The query compares every key with the escaped prefix as a pattern, sorts, and stops at the limit. */
    method List(prefix: string, limit: int) returns (listed: Table)
      ensures IsListing(kv, prefix, limit, listed)
    {
      var most := Clamped(limit);
      var escaped := EscapeSQLiteLikePrefix(prefix);
      var like := escaped + "%";
      var rows := set k | k in kv && Like(like, k);
      forall k ensures Like(like, k) <==> BeginsWith(k, prefix) { EscapedPrefixMatchesPrefix(prefix, k); }
      assert rows == Matching(kv, prefix);
      listed := map[];
      var rest := rows;
      while rest != {} && |listed| < most
        invariant rest <= rows && listed.Keys == rows - rest
        invariant forall k | k in listed :: listed[k] == kv[k]
        invariant |listed| <= most && |listed| + |rest| == |rows|
        invariant forall k, other | k in listed && other in rest :: Before(k, other)
        decreases rest
      {
        var least := Least(rest);
        listed := listed[least := kv[least]];
        rest := rest - {least};
      }
    }
  }

  // ---------- the binary order ----------

  lemma {:induction false} BeforeIsTotal(a: string, b: string)
    ensures a == b || Before(a, b) || Before(b, a)
    ensures !(Before(a, b) && Before(b, a))
  {
    if a != "" && b != "" {
      BeforeIsTotal(a[1..], b[1..]);
      if a[0] == b[0] && a[1..] == b[1..] {
        assert a == [a[0]] + a[1..] && b == [b[0]] + b[1..];
      }
    }
  }

  lemma {:induction false} BeforeIsTransitive(a: string, b: string, c: string)
    requires Before(a, b) && Before(b, c)
    ensures Before(a, c)
    decreases |a|
  {
    if a != "" && a[0] == b[0] && b[0] == c[0] {
      BeforeIsTransitive(a[1..], b[1..], c[1..]);
    }
  }

  method Least(keys: set<string>) returns (least: string)
    requires keys != {}
    ensures least in keys && forall k | k in keys && k != least :: Before(least, k)
  {
    least :| least in keys;
    var rest := keys - {least};
    while rest != {}
      invariant rest <= keys && least in keys && least !in rest
      invariant forall k | k in keys && k !in rest && k != least :: Before(least, k)
      decreases rest
    {
      var k :| k in rest;
      rest := rest - {k};
      BeforeIsTotal(k, least);
      if Before(k, least) {
        forall other | other in keys && other !in rest && other != k ensures Before(k, other) {
          if other != least {
            BeforeIsTransitive(k, least, other);
          }
        }
        least := k;
      }
    }
  }

  /** A listing is determined by the table, the prefix and the limit. */
  lemma ListingIsUnique(kv: Table, prefix: string, limit: int, a: Table, b: Table)
    requires IsListing(kv, prefix, limit, a) && IsListing(kv, prefix, limit, b)
    ensures a == b
  {
    if exists k :: k in a && k !in b {
      var k :| k in a && k !in b;
      if forall other | other in b :: other in a {
        SubsetOfEqualSize(b.Keys, a.Keys);
        assert false;
      }
      var other :| other in b && other !in a;
      BeforeIsTotal(k, other);
      assert false;
    }
    SubsetOfEqualSize(a.Keys, b.Keys);
  }

  lemma SubsetOfEqualSize(a: set<string>, b: set<string>)
    requires a <= b && |a| == |b|
    ensures a == b
  {
    assert |b - a| == |b| - |a|;
    assert b == a + (b - a);
  }

  // ---------- storage is a map over trimmed keys ----------

  /** What the last accepted write to `key` among `ops` left there, if there was one. */
  function LastWrite(ops: seq<Op>, key: string): Option<Option<string>> {
    if ops == [] then None else
      var last := ops[|ops| - 1];
      if TrimSpace(last.key) == key && last.works && last.Put? && last.value.Encodable? then Some(Some(last.value.json))
      else if TrimSpace(last.key) == key && last.works && last.Delete? then Some(None)
      else LastWrite(ops[..|ops| - 1], key)
  }

  /** After any operations, a key that is looked up gives what was last written under any spelling of it. */
  lemma {:induction false} GetSeesLastWrite(kv: Table, ops: seq<Op>, key: string)
    requires TrimSpace(key) != ""
    ensures ReplyTo(AfterAll(kv, ops), Get(key, true)) ==
            match LastWrite(ops, TrimSpace(key))
            case Some(Some(json)) => Found(json)
            case Some(None) => Missing
            case None => ReplyTo(kv, Get(key, true))
  {
    if ops != [] {
      GetSeesLastWrite(kv, ops[..|ops| - 1], key);
    }
  }

  /** Whatever is done to a well-keyed table, it stays well-keyed. */
  lemma {:induction false} KeysStayTrimmed(kv: Table, ops: seq<Op>)
    requires WellKeyed(kv)
    ensures WellKeyed(AfterAll(kv, ops))
  {
    if ops != [] {
      KeysStayTrimmed(kv, ops[..|ops| - 1]);
      var _, _ := TrimSpaceSplits(ops[|ops| - 1].key);
    }
  }
}
