/** Dispatch on behalf of an authenticated actor, who never gets to name an object. */
module Binding {
  import opened Wrappers
  import opened Text
  import opened Identity

  type Byte = b: int | 0 <= b < 256

  // ---------- section 5 of RFC 4648, without padding ----------

  function Symbol(i: nat): char
    requires i < 64
  {
    if i < 26 then 'A' + i as char
    else if i < 52 then 'a' + (i - 26) as char
    else if i < 62 then '0' + (i - 52) as char
    else if i == 62 then '-' else '_'
  }

  function Base64Url(data: seq<Byte>): string {
    if |data| == 0 then ""
    else if |data| == 1 then
      [Symbol(data[0] / 4), Symbol(data[0] % 4 * 16)]
    else if |data| == 2 then
      [Symbol(data[0] / 4), Symbol(data[0] % 4 * 16 + data[1] / 16), Symbol(data[1] % 16 * 4)]
    else
      Group(data[0], data[1], data[2]) + Base64Url(data[3..])
  }

  predicate IsUrlSafe(c: char) { IsLetter(c) || IsDigit(c) || c in {'-', '_'} }

  lemma SymbolsAreDistinct(i: nat, j: nat)
    requires i < 64 && j < 64
    ensures Symbol(i) == Symbol(j) ==> i == j
    ensures IsUrlSafe(Symbol(i))
  {
  }

  lemma {:induction false} Base64UrlShape(data: seq<Byte>)
    ensures |Base64Url(data)| == (|data| * 4 + 2) / 3
    ensures forall i | 0 <= i < |Base64Url(data)| :: IsUrlSafe(Base64Url(data)[i])
  {
    forall i: nat | i < 64 ensures IsUrlSafe(Symbol(i)) { SymbolsAreDistinct(i, i); }
    if |data| >= 3 {
      Base64UrlShape(data[3..]);
    }
  }

  /** Four sextets determine three bytes. */
  lemma SextetsDetermineBytes(x0: Byte, x1: Byte, x2: Byte, y0: Byte, y1: Byte, y2: Byte)
    requires x0 / 4 == y0 / 4 && x0 % 4 * 16 + x1 / 16 == y0 % 4 * 16 + y1 / 16
    requires x1 % 16 * 4 + x2 / 64 == y1 % 16 * 4 + y2 / 64 && x2 % 64 == y2 % 64
    ensures x0 == y0 && x1 == y1 && x2 == y2
  {
    assert x0 % 4 == y0 % 4 && x1 / 16 == y1 / 16;
    assert x1 % 16 == y1 % 16 && x2 / 64 == y2 / 64;
  }

  function Group(x0: Byte, x1: Byte, x2: Byte): string {
    [Symbol(x0 / 4), Symbol(x0 % 4 * 16 + x1 / 16), Symbol(x1 % 16 * 4 + x2 / 64), Symbol(x2 % 64)]
  }

  lemma GroupIsInjective(x0: Byte, x1: Byte, x2: Byte, y0: Byte, y1: Byte, y2: Byte)
    requires Group(x0, x1, x2) == Group(y0, y1, y2)
    ensures x0 == y0 && x1 == y1 && x2 == y2
  {
    var gx, gy := Group(x0, x1, x2), Group(y0, y1, y2);
    assert gx[0] == gy[0] && gx[1] == gy[1] && gx[2] == gy[2] && gx[3] == gy[3];
    SymbolsAreDistinct(x0 / 4, y0 / 4);
    SymbolsAreDistinct(x0 % 4 * 16 + x1 / 16, y0 % 4 * 16 + y1 / 16);
    SymbolsAreDistinct(x1 % 16 * 4 + x2 / 64, y1 % 16 * 4 + y2 / 64);
    SymbolsAreDistinct(x2 % 64, y2 % 64);
    SextetsDetermineBytes(x0, x1, x2, y0, y1, y2);
  }

  lemma {:induction false} Base64UrlIsInjective(a: seq<Byte>, b: seq<Byte>)
    requires |a| == |b| && Base64Url(a) == Base64Url(b)
    ensures a == b
  {
    if |a| >= 3 {
      assert Base64Url(a)[..4] == Group(a[0], a[1], a[2]) && Base64Url(b)[..4] == Group(b[0], b[1], b[2]);
      assert Base64Url(a)[4..] == Base64Url(a[3..]) && Base64Url(b)[4..] == Base64Url(b[3..]);
      GroupIsInjective(a[0], a[1], a[2], b[0], b[1], b[2]);
      Base64UrlIsInjective(a[3..], b[3..]);
      assert a == a[..3] + a[3..] && b == b[..3] + b[3..];
    } else if |a| > 0 {
      var ea, eb := Base64Url(a), Base64Url(b);
      assert ea[0] == eb[0] && ea[1] == eb[1];
      SymbolsAreDistinct(a[0] / 4, b[0] / 4);
      if |a| == 1 {
        SymbolsAreDistinct(a[0] % 4 * 16, b[0] % 4 * 16);
      } else {
        assert ea[2] == eb[2];
        SymbolsAreDistinct(a[0] % 4 * 16 + a[1] / 16, b[0] % 4 * 16 + b[1] / 16);
        SymbolsAreDistinct(a[1] % 16 * 4, b[1] % 16 * 4);
      }
    }
  }

  // ---------- bound identities ----------

  const MINIMUM_KEY_BYTES := 32
  const MAC_BYTES := 32

  /** The message authentication code of a key and a message (as UTF-8), and the digest behind object identities. */
  datatype Crypto = Crypto(alphabet: char -> bool, sha: string -> string, mac: (seq<Byte>, string) -> seq<Byte>)

  ghost predicate IsCrypto(c: Crypto) {
    forall key, m :: |c.mac(key, m)| == MAC_BYTES
  }

  function BoundName(c: Crypto, key: seq<Byte>, namespace: string, actorID: string): string {
    "v1_" + Base64Url(c.mac(key, HashInput(namespace, actorID)))
  }

  function BoundID(c: Crypto, key: seq<Byte>, namespaces: set<string>, namespace: string, actorID: string): Result<ObjectID> {
    var ns := TrimSpace(namespace);
    if ns !in namespaces then Err(UnknownNamespace)
    else if actorID == "" then Err(BadRequest)
    else NewObjectID(c.alphabet, c.sha, ns, BoundName(c, key, ns, actorID))
  }

  datatype Envelope = Envelope(id: ObjectID, payload: string)

  class BoundDispatcher {
    const key: seq<Byte>
    const namespaces: set<string>
    /** What has been passed on to the dispatcher behind this one. */
    var passedOn: seq<Envelope>

    constructor (key: seq<Byte>, namespaces: set<string>)
      ensures this.key == key && this.namespaces == namespaces && passedOn == []
    {
      this.key, this.namespaces, passedOn := key, namespaces, [];
    }

    /** The identity is derived here; an envelope that brings its own, even in part, is refused and not passed on. */
    method DispatchForActor(c: Crypto, actorID: string, namespace: string, env: Envelope) returns (r: Result<Envelope>)
      modifies this
      ensures r == if env.id != ObjectID("", "", "") then Err(BadRequest)
                   else match BoundID(c, key, namespaces, namespace, actorID)
                        case Ok(id) => Ok(env.(id := id))
                        case Err(code) => Err(code)
      ensures passedOn == if r.Ok? then old(passedOn) + [r.value] else old(passedOn)
    {
      if env.id.namespace != "" || env.id.name != "" || env.id.hash != "" {
        return Err(BadRequest);
      }
      var id := BoundID(c, key, namespaces, namespace, actorID);
      if id.Err? {
        return Err(id.code);
      }
      var bound := env.(id := id.value);
      passedOn := passedOn + [bound];
      r := Ok(bound);
    }
  }

  /**
   * The key is copied, so later changes to the caller's buffer do not reach it. An allowlist may contain the empty
   * namespace, because an empty namespace passes validation; no identity can be derived in it.
   */
  method NewBoundDispatcher(c: Crypto, hasDispatcher: bool, bindingKey: array<Byte>, namespaces: seq<string>)
    returns (r: Result<BoundDispatcher>)
    ensures r.Ok? <==> hasDispatcher && bindingKey.Length >= MINIMUM_KEY_BYTES && namespaces != []
                       && forall ns | ns in namespaces :: ValidNamespace(c.alphabet, TrimSpace(ns))
    ensures r.Err? ==> r.code == BadRequest
    ensures r.Ok? ==> fresh(r.value) && r.value.key == bindingKey[..] && r.value.passedOn == []
                      && r.value.namespaces == set ns | ns in namespaces :: TrimSpace(ns)
  {
    if !hasDispatcher || bindingKey.Length < MINIMUM_KEY_BYTES {
      return Err(BadRequest);
    }
    var allowed: set<string> := {};
    for i := 0 to |namespaces|
      invariant allowed == set ns | ns in namespaces[..i] :: TrimSpace(ns)
      invariant allowed == {} <==> i == 0
      invariant forall ns | ns in namespaces[..i] :: ValidNamespace(c.alphabet, TrimSpace(ns))
    {
      var namespace := TrimSpace(namespaces[i]);
      if !ValidNamespace(c.alphabet, namespace) {
        return Err(BadRequest);
      }
      assert namespaces[..i + 1] == namespaces[..i] + [namespaces[i]];
      allowed := allowed + {namespace};
    }
    assert namespaces[..|namespaces|] == namespaces;
    if allowed == {} {
      return Err(BadRequest);
    }
    var bound := new BoundDispatcher(bindingKey[..], allowed);
    r := Ok(bound);
  }

  lemma UrlSafeNameIsValid(data: seq<Byte>)
    requires |data| == MAC_BYTES
    ensures var name := "v1_" + Base64Url(data);
            |name| == 46 && TrimSpace(name) == name && name != "" && ValidObjectName(name)
  {
    var name := "v1_" + Base64Url(data);
    Base64UrlShape(data);
    forall i | 0 <= i < |name| ensures IsUrlSafe(name[i]) {
      if i >= 3 { assert name[i] == Base64Url(data)[i - 3]; }
    }
    assert IsAscii(name);
    AsciiByteLength(name);
    assert IsUrlSafe(name[|name| - 1]);
    TrimmedIsFixed(name);
    assert name[0] == 'v';
  }

  /**
   * With an allowlist of validated namespaces, an identity is derived exactly for a namespace on it and an actor, neither
   * of them empty; and it is an identity in that namespace.
   */
  lemma BoundIDSucceeds(c: Crypto, key: seq<Byte>, namespaces: set<string>, namespace: string, actorID: string)
    requires IsCrypto(c) && forall ns | ns in namespaces :: ValidNamespace(c.alphabet, ns)
    ensures var r := BoundID(c, key, namespaces, namespace, actorID);
            && (r.Ok? <==> TrimSpace(namespace) in namespaces && TrimSpace(namespace) != "" && actorID != "")
            && (r.Ok? ==> r.value.namespace == TrimSpace(namespace))
            && (r.Ok? ==> r.value.name == BoundName(c, key, TrimSpace(namespace), actorID))
            && (r.Err? ==> r.code == if TrimSpace(namespace) in namespaces then BadRequest else UnknownNamespace)
  {
    var ns := TrimSpace(namespace);
    TrimSpaceIdempotent(namespace);
    UrlSafeNameIsValid(c.mac(key, HashInput(ns, actorID)));
  }

  /**
   * Isolation: two derivations give the same object name exactly when they are for the same namespace and the same
   * actor, provided the two authenticated messages do not collide. The actor identifier may be any text.
   */
  lemma ActorsAreIsolated(c: Crypto, key: seq<Byte>, namespaces: set<string>, ns1: string, a1: string, ns2: string, a2: string)
    requires IsCrypto(c)
    requires BoundID(c, key, namespaces, ns1, a1).Ok? && BoundID(c, key, namespaces, ns2, a2).Ok?
    requires CollisionFree((m: string) => c.mac(key, m), {HashInput(TrimSpace(ns1), a1), HashInput(TrimSpace(ns2), a2)})
    ensures BoundID(c, key, namespaces, ns1, a1).value.name == BoundID(c, key, namespaces, ns2, a2).value.name
            <==> TrimSpace(ns1) == TrimSpace(ns2) && a1 == a2
  {
    var t1, t2 := TrimSpace(ns1), TrimSpace(ns2);
    TrimSpaceIdempotent(ns1);
    TrimSpaceIdempotent(ns2);
    assert '\0' !in t1 && '\0' !in t2;
    var m1, m2 := c.mac(key, HashInput(t1, a1)), c.mac(key, HashInput(t2, a2));
    UrlSafeNameIsValid(m1);
    UrlSafeNameIsValid(m2);
    if "v1_" + Base64Url(m1) == "v1_" + Base64Url(m2) {
      assert Base64Url(m1) == ("v1_" + Base64Url(m1))[3..] && Base64Url(m2) == ("v1_" + Base64Url(m2))[3..];
      Base64UrlIsInjective(m1, m2);
      SeparatorIsUnambiguous(t1, a1, t2, a2);
    }
  }
}
