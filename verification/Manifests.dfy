/** The table from namespaces to class names, given explicitly or derived from the exports of a bundle. */
module Manifests {
  import opened Wrappers
  import opened Text
  import opened Identity
  import opened Namespaces

  datatype Manifest = Manifest(objects: map<string, string>) {
    function ClassForNamespace(namespace: string): Option<string> {
      var key := TrimSpace(namespace);
      if key in objects && TrimSpace(objects[key]) != "" then Some(TrimSpace(objects[key])) else None
    }

    predicate IsZero() { |objects| == 0 }
  }

  predicate ValidEntry(alphabet: char -> bool, namespace: string, className: string) {
    && TrimSpace(namespace) != ""
    && ValidNamespace(alphabet, TrimSpace(namespace))
    && TrimSpace(className) != ""
  }

  /** At least one entry, and every entry usable. */
  predicate ValidManifest(alphabet: char -> bool, m: Manifest) {
    m.objects != map[] && forall ns | ns in m.objects :: ValidEntry(alphabet, ns, m.objects[ns])
  }

  /** The entries are visited in no particular order, as Go visits a map. */
  method Validate(alphabet: char -> bool, m: Manifest) returns (r: Result<()>)
    ensures r == if ValidManifest(alphabet, m) then Ok(()) else Err(BadRequest)
  {
    if m.IsZero() {
      return Err(BadRequest);
    }
    var todo := m.objects.Keys;
    while todo != {}
      invariant todo <= m.objects.Keys
      invariant forall ns | ns in m.objects && ns !in todo :: ValidEntry(alphabet, ns, m.objects[ns])
      decreases todo
    {
      var key :| key in todo;
      todo := todo - {key};
      var namespace, className := TrimSpace(key), m.objects[key];
      if namespace == "" {
        return Err(BadRequest);
      }
      if !ValidNamespace(alphabet, namespace) {
        return Err(BadRequest);
      }
      if TrimSpace(className) == "" {
        return Err(BadRequest);
      }
    }
    r := Ok(());
  }

  /** The keys give distinct, non-empty, acceptably short namespaces, and there is at least one. */
  predicate Derivable(isConstructor: string -> bool, keys: seq<string>) {
    && keys != []
    && (forall k | k in keys :: isConstructor(k) && Namespace(k) != "" && |Namespace(k)| <= MAX_NAMESPACE_BYTES)
    && (forall i, j | 0 <= i < j < |keys| :: Namespace(keys[i]) != Namespace(keys[j]))
  }

  /** The manifest pairs every exported key with its namespace, and has nothing else in it. */
  predicate Pairs(keys: seq<string>, m: Manifest) {
    && (forall k | k in keys :: Namespace(k) in m.objects && m.objects[Namespace(k)] == k)
    && (forall ns | ns in m.objects :: m.objects[ns] in keys && Namespace(m.objects[ns]) == ns)
  }

  /**
   * The keys of an export object are distinct. The result is a manifest that is a bijection between keys and
   * namespaces exactly when the keys are derivable; a failure says which stage refused them.
   */
  method DeriveManifest(alphabet: char -> bool, isConstructor: string -> bool, keys: seq<string>) returns (r: Result<Manifest>)
    requires forall k | k in keys :: IsAscii(k)
    requires forall i, j | 0 <= i < j < |keys| :: keys[i] != keys[j]
    ensures r.Ok? <==> Derivable(isConstructor, keys)
    ensures r.Ok? ==> Pairs(keys, r.value) && ValidManifest(alphabet, r.value) && |r.value.objects| == |keys|
    ensures r.Err? ==> r.code == if AllAccepted(isConstructor, keys) then BadRequest else ExecutionError
  {
    var objects: map<string, string> := map[];
    for i := 0 to |keys|
      invariant DerivedSoFar(isConstructor, keys, i, objects)
    {
      var exportName := keys[i];
      if !isConstructor(exportName) {
        OneRefused(isConstructor, keys, i);
        return Err(ExecutionError);
      }
      var namespace := ExportNameToNamespace(exportName);
      if namespace == "" {
        OneRefused(isConstructor, keys, i);
        return Err(ExecutionError);
      }
      MappedIsTaken(keys, i, objects);
      if namespace in objects {
        OneRefused(isConstructor, keys, i);
        return Err(ExecutionError);
      }
      DeriveNext(isConstructor, keys, i, objects);
      objects := objects[namespace := exportName];
    }
    var m := Manifest(objects);
    DerivationEnds(alphabet, isConstructor, keys, m);
    var valid := Validate(alphabet, m);
    r := if valid.Ok? then Ok(m) else Err(valid.code);
  }

  /** The first `i` keys have been accepted and entered. */
  ghost predicate DerivedSoFar(isConstructor: string -> bool, keys: seq<string>, i: nat, objects: map<string, string>) {
    && i <= |keys|
    && Pairs(keys[..i], Manifest(objects)) && |objects| == i
    && forall j | 0 <= j < i :: KeyAccepted(isConstructor, keys, j)
  }

  lemma OneRefused(isConstructor: string -> bool, keys: seq<string>, i: nat)
    requires i < |keys| && !KeyAccepted(isConstructor, keys, i)
    ensures !AllAccepted(isConstructor, keys) && !Derivable(isConstructor, keys)
  {
    DerivableMeansAccepted(isConstructor, keys);
  }

  lemma DerivationEnds(alphabet: char -> bool, isConstructor: string -> bool, keys: seq<string>, m: Manifest)
    requires DerivedSoFar(isConstructor, keys, |keys|, m.objects) && forall k | k in keys :: IsAscii(k)
    ensures AllAccepted(isConstructor, keys) && Pairs(keys, m) && |m.objects| == |keys|
    ensures ValidManifest(alphabet, m) <==> Derivable(isConstructor, keys)
  {
    assert keys[..|keys|] == keys;
    DerivableMeansAccepted(isConstructor, keys);
    DerivedEntriesAreValid(alphabet, keys, m);
  }

  lemma DeriveNext(isConstructor: string -> bool, keys: seq<string>, i: nat, objects: map<string, string>)
    requires i < |keys| && DerivedSoFar(isConstructor, keys, i, objects)
    requires KeyAccepted(isConstructor, keys, i)
    ensures DerivedSoFar(isConstructor, keys, i + 1, objects[Namespace(keys[i]) := keys[i]])
  {
    MappedIsTaken(keys, i, objects);
    PairsExtends(keys, i, objects);
  }

  /** The key at `i` passes the checks of the derivation loop. */
  predicate KeyAccepted(isConstructor: string -> bool, keys: seq<string>, i: nat)
    requires i < |keys|
  {
    && isConstructor(keys[i])
    && Namespace(keys[i]) != ""
    && forall j | 0 <= j < i :: Namespace(keys[j]) != Namespace(keys[i])
  }

  lemma MappedIsTaken(keys: seq<string>, i: nat, objects: map<string, string>)
    requires i < |keys| && Pairs(keys[..i], Manifest(objects))
    ensures Namespace(keys[i]) in objects <==> exists j | 0 <= j < i :: Namespace(keys[j]) == Namespace(keys[i])
  {
    var ns := Namespace(keys[i]);
    if ns in objects {
      assert objects[ns] in keys[..i];
      var j :| 0 <= j < i && keys[..i][j] == objects[ns];
      assert Namespace(keys[j]) == ns;
    }
    forall j | 0 <= j < i && Namespace(keys[j]) == ns ensures ns in objects {
      assert keys[..i][j] in keys[..i];
    }
  }

  lemma PairsExtends(keys: seq<string>, i: nat, objects: map<string, string>)
    requires i < |keys| && Pairs(keys[..i], Manifest(objects)) && Namespace(keys[i]) !in objects
    ensures Pairs(keys[..i + 1], Manifest(objects[Namespace(keys[i]) := keys[i]]))
  {
    assert keys[..i + 1] == keys[..i] + [keys[i]];
  }

  predicate AllAccepted(isConstructor: string -> bool, keys: seq<string>) {
    forall i | 0 <= i < |keys| :: KeyAccepted(isConstructor, keys, i)
  }

  lemma DerivableMeansAccepted(isConstructor: string -> bool, keys: seq<string>)
    ensures Derivable(isConstructor, keys)
            <==> AllAccepted(isConstructor, keys) && keys != [] && forall k | k in keys :: |Namespace(k)| <= MAX_NAMESPACE_BYTES
    ensures AllAccepted(isConstructor, keys) ==> forall k | k in keys :: Namespace(k) != ""
  {
    if AllAccepted(isConstructor, keys) {
      forall i, j | 0 <= i < j < |keys| ensures Namespace(keys[i]) != Namespace(keys[j]) {
        assert KeyAccepted(isConstructor, keys, j);
      }
      forall k | k in keys ensures isConstructor(k) && Namespace(k) != "" {
        var i :| 0 <= i < |keys| && keys[i] == k;
        assert KeyAccepted(isConstructor, keys, i);
      }
    }
  }

  lemma SymbolsAreValid(alphabet: char -> bool, ns: string)
    requires ns != "" && forall i | 0 <= i < |ns| :: IsNamespaceSymbol(ns[i])
    ensures TrimSpace(ns) == ns
    ensures ValidNamespace(alphabet, ns) <==> |ns| <= MAX_NAMESPACE_BYTES
  {
    TrimmedIsFixed(ns);
    assert IsAscii(ns);
    AsciiByteLength(ns);
    assert ns[0] != '.' && '/' !in ns && '\\' !in ns;
  }

  /** A derived namespace can only be refused for its length, and a key that gives one is not blank. */
  lemma DerivedEntryIsValid(alphabet: char -> bool, key: string)
    requires IsAscii(key) && Namespace(key) != ""
    ensures ValidEntry(alphabet, Namespace(key), key) <==> |Namespace(key)| <= MAX_NAMESPACE_BYTES
  {
    NamespaceShape(key);
    SymbolsAreValid(alphabet, Namespace(key));
  }

  lemma DerivedEntriesAreValid(alphabet: char -> bool, keys: seq<string>, m: Manifest)
    requires Pairs(keys, m) && forall k | k in keys :: IsAscii(k) && Namespace(k) != ""
    ensures ValidManifest(alphabet, m) <==> keys != [] && forall k | k in keys :: |Namespace(k)| <= MAX_NAMESPACE_BYTES
  {
    forall k | k in keys ensures ValidEntry(alphabet, Namespace(k), k) <==> |Namespace(k)| <= MAX_NAMESPACE_BYTES {
      DerivedEntryIsValid(alphabet, k);
    }
    if keys != [] {
      assert Namespace(keys[0]) in m.objects;
    }
  }
}
