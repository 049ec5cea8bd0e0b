/** Object identities: validation of their two segments and derivation of their storage hash. */
module Identity {
  import opened Wrappers
  import opened Text

  datatype ObjectID = ObjectID(namespace: string, name: string, hash: string) {
    /** An identity is unusable as soon as one of its parts is missing. */
    predicate IsZero() { namespace == "" || name == "" || hash == "" }
  }

  const MAX_NAMESPACE_BYTES := 128
  const MAX_NAME_BYTES := 1024

  predicate IsPathUnsafe(segment: string) {
    segment == "." || segment == ".." || exists i | 0 <= i < |segment| :: segment[i] in {'/', '\\'}
  }

  /** `alphabet` stands for the Unicode tables: it decides which characters beyond ASCII are letters or digits. */
  predicate IsNamespaceChar(alphabet: char -> bool, c: char) {
    IsLetter(c) || IsDigit(c) || c in {'_', '-', '.'} || (c >= '\U{80}' && alphabet(c))
  }

  predicate ValidNamespace(alphabet: char -> bool, namespace: string) {
    && !IsPathUnsafe(namespace)
    && ByteLength(namespace) <= MAX_NAMESPACE_BYTES
    && forall i | 0 <= i < |namespace| :: IsNamespaceChar(alphabet, namespace[i])
  }

  predicate ValidObjectName(name: string) {
    && !IsPathUnsafe(name)
    && ByteLength(name) <= MAX_NAME_BYTES
    && forall i | 0 <= i < |name| :: !IsControl(name[i])
  }

  /**
   * A digest is collision-free on the messages at hand. No digest is injective on every message, so each claim that
   * rests on SHA-256 or on the message authentication code names the messages that must not collide.
   */
  ghost predicate CollisionFree<D>(digest: string -> D, messages: set<string>) {
    forall a, b | a in messages && b in messages && digest(a) == digest(b) :: a == b
  }

  /** What is hashed: the two segments with a NUL between them. */
  function HashInput(namespace: string, name: string): string { namespace + "\0" + name }

  function NewObjectID(alphabet: char -> bool, sha: string -> string, namespace: string, name: string): Result<ObjectID> {
    var ns, nm := TrimSpace(namespace), TrimSpace(name);
    if ns == "" || nm == "" then Err(BadRequest)
    else if !ValidNamespace(alphabet, ns) then Err(BadRequest)
    else if !ValidObjectName(nm) then Err(BadRequest)
    else Ok(ObjectID(ns, nm, sha(HashInput(ns, nm))))
  }

  lemma SeparatorIsUnambiguous(a1: string, b1: string, a2: string, b2: string)
    requires '\0' !in a1 && '\0' !in a2
    requires HashInput(a1, b1) == HashInput(a2, b2)
    ensures a1 == a2 && b1 == b2
  {
    var m := HashInput(a1, b1);
    assert m[..|a1|] == a1 && m[|a1|] == '\0' && m[|a1| + 1..] == b1;
    assert m[..|a2|] == a2 && m[|a2|] == '\0' && m[|a2| + 1..] == b2;
    assert forall k | 0 <= k < |a1| :: m[k] == a1[k] && m[k] != '\0';
    assert forall k | 0 <= k < |a2| :: m[k] == a2[k] && m[k] != '\0';
  }

  /**
   * Two accepted pairs name the same storage file exactly when they are the same pair up to surrounding white space.
   */
  lemma IdentitiesAreDistinct(alphabet: char -> bool, sha: string -> string, ns1: string, nm1: string, ns2: string, nm2: string)
    requires NewObjectID(alphabet, sha, ns1, nm1).Ok? && NewObjectID(alphabet, sha, ns2, nm2).Ok?
    requires CollisionFree(sha, {HashInput(TrimSpace(ns1), TrimSpace(nm1)), HashInput(TrimSpace(ns2), TrimSpace(nm2))})
    ensures NewObjectID(alphabet, sha, ns1, nm1).value.hash == NewObjectID(alphabet, sha, ns2, nm2).value.hash
            <==> TrimSpace(ns1) == TrimSpace(ns2) && TrimSpace(nm1) == TrimSpace(nm2)
  {
    var a1, b1, a2, b2 := TrimSpace(ns1), TrimSpace(nm1), TrimSpace(ns2), TrimSpace(nm2);
    assert '\0' !in a1 && '\0' !in a2;
    if sha(HashInput(a1, b1)) == sha(HashInput(a2, b2)) {
      SeparatorIsUnambiguous(a1, b1, a2, b2);
    }
  }
}
