/** Conversion of the names a bundle exports, in CamelCase, to namespaces, in CAMEL_CASE. */
module Namespaces {
  import opened Text

  predicate IsWordChar(c: char) { IsLetter(c) || IsDigit(c) }

  /** Whether the character at `i` opens a new word of a CamelCase name. */
  predicate OpensWord(name: string, i: nat)
    requires i < |name|
  {
    && IsUpper(name[i]) && i > 0
    && (|| IsLower(name[i - 1])
        || IsDigit(name[i - 1])
        || (IsUpper(name[i - 1]) && i + 1 < |name| && IsLower(name[i + 1])))
  }

  predicate EndsInUnderscore(out: string) { out != "" && out[|out| - 1] == '_' }

  /** `out` with a separator at its end, unless it is empty or has one already. */
  function Separated(out: string): string {
    if out == "" || EndsInUnderscore(out) then out else out + "_"
  }

  /** The output after the first `n` characters of `name`. */
  function Scan(name: string, n: nat): string
    requires n <= |name|
  {
    if n == 0 then "" else
      var out, c := Scan(name, n - 1), name[n - 1];
      if !IsWordChar(c) then Separated(out)
      else (if OpensWord(name, n - 1) then Separated(out) else out) + [ToUpper(c)]
  }

  function DropTrailing(out: string): string {
    if EndsInUnderscore(out) then DropTrailing(out[..|out| - 1]) else out
  }

  function Namespace(exportName: string): string {
    var name := TrimSpace(exportName);
    DropTrailing(Scan(name, |name|))
  }

  method ExportNameToNamespace(exportName: string) returns (namespace: string)
    requires IsAscii(exportName)
    ensures namespace == Namespace(exportName)
  {
    var name := TrimSpace(exportName);
    if name == "" {
      return "";
    }
    var out, lastUnderscore := "", false;
    for i := 0 to |name|
      invariant out == Scan(name, i)
      invariant lastUnderscore == EndsInUnderscore(out)
    {
      var c := name[i];
      if IsLetter(c) || IsDigit(c) {
        if IsUpper(c) && i > 0 && |out| > 0 && !lastUnderscore {
          var prev := name[i - 1];
          var next := if i + 1 < |name| then name[i + 1] else '\0';
          if IsLower(prev) || IsDigit(prev) || (IsUpper(prev) && next != '\0' && IsLower(next)) {
            out := out + ['_'];
          }
        }
        out := out + [ToUpper(c)];
        lastUnderscore := false;
        continue;
      }
      if |out| > 0 && !lastUnderscore {
        out := out + ['_'];
        lastUnderscore := true;
      }
    }
    ghost var scanned := out;
    while |out| > 0 && out[|out| - 1] == '_'
      invariant DropTrailing(out) == DropTrailing(scanned)
    {
      out := out[..|out| - 1];
    }
    namespace := out;
  }

  // ---------- the shape of a namespace ----------

  predicate IsNamespaceSymbol(c: char) { IsUpper(c) || IsDigit(c) || c == '_' }

  /** Upper-case letters, digits and single underscores, none of them in front. */
  predicate WellSeparated(out: string) {
    && (forall i | 0 <= i < |out| :: IsNamespaceSymbol(out[i]))
    && (out != "" ==> out[0] != '_')
    && (forall i | 0 < i < |out| :: !(out[i - 1] == '_' && out[i] == '_'))
  }

  predicate Canonical(namespace: string) {
    WellSeparated(namespace) && !EndsInUnderscore(namespace)
  }

  /** The letters and digits of `name` in order, letters in upper case. */
  function Skeleton(name: string): string {
    if name == "" then "" else
      var last := name[|name| - 1];
      Skeleton(name[..|name| - 1]) + (if IsWordChar(last) then [ToUpper(last)] else "")
  }

  lemma AppendStaysWellSeparated(out: string, c: char)
    requires WellSeparated(out) && IsNamespaceSymbol(c)
    requires c == '_' ==> out != "" && !EndsInUnderscore(out)
    ensures WellSeparated(out + [c])
  {
    forall i | 0 < i < |out + [c]| ensures !((out + [c])[i - 1] == '_' && (out + [c])[i] == '_') {
      if i < |out| { assert !(out[i - 1] == '_' && out[i] == '_'); }
    }
  }

  lemma SkeletonOfAppend(out: string, c: char)
    ensures Skeleton(out + [c]) == Skeleton(out) + (if IsWordChar(c) then [ToUpper(c)] else "")
  {
    assert (out + [c])[..|out|] == out;
  }

  lemma SeparatedStaysWellSeparated(out: string)
    requires WellSeparated(out)
    ensures WellSeparated(Separated(out)) && Skeleton(Separated(out)) == Skeleton(out)
  {
    if Separated(out) != out {
      AppendStaysWellSeparated(out, '_');
      SkeletonOfAppend(out, '_');
    }
  }

  lemma WordCharInUpperCase(c: char)
    requires IsWordChar(c)
    ensures ToUpper(c) != '_' && IsNamespaceSymbol(ToUpper(c)) && IsWordChar(ToUpper(c))
    ensures ToUpper(ToUpper(c)) == ToUpper(c)
  {
  }

  lemma ScanStep(name: string, n: nat)
    requires n < |name| && WellSeparated(Scan(name, n))
    ensures WellSeparated(Scan(name, n + 1))
    ensures Skeleton(Scan(name, n + 1)) == Skeleton(Scan(name, n)) + (if IsWordChar(name[n]) then [ToUpper(name[n])] else "")
  {
    var out, c := Scan(name, n), name[n];
    SeparatedStaysWellSeparated(out);
    if IsWordChar(c) {
      var base := if OpensWord(name, n) then Separated(out) else out;
      WordCharInUpperCase(c);
      AppendStaysWellSeparated(base, ToUpper(c));
      SkeletonOfAppend(base, ToUpper(c));
    }
  }

  lemma {:induction false} ScanIsWellSeparated(name: string, n: nat)
    requires n <= |name|
    ensures WellSeparated(Scan(name, n))
    ensures Skeleton(Scan(name, n)) == Skeleton(name[..n])
  {
    if n > 0 {
      ScanIsWellSeparated(name, n - 1);
      ScanStep(name, n - 1);
      assert name[..n] == name[..n - 1] + [name[n - 1]];
      SkeletonOfAppend(name[..n - 1], name[n - 1]);
    }
  }

  lemma {:induction false} DropTrailingIsCanonical(out: string)
    requires WellSeparated(out)
    ensures Canonical(DropTrailing(out))
    ensures Skeleton(DropTrailing(out)) == Skeleton(out)
  {
    if EndsInUnderscore(out) {
      DropTrailingIsCanonical(out[..|out| - 1]);
    }
  }

  lemma {:induction false} SkeletonOfSplit(a: string, b: string)
    ensures Skeleton(a + b) == Skeleton(a) + Skeleton(b)
  {
    if b == "" {
      assert a + b == a;
    } else {
      var front := b[..|b| - 1];
      SkeletonOfSplit(a, front);
      assert (a + b)[..|a + b| - 1] == a + front;
    }
  }

  lemma {:induction false} SkeletonOfSpace(s: string)
    requires forall i | 0 <= i < |s| :: IsSpace(s[i])
    ensures Skeleton(s) == ""
  {
    if s != "" {
      SkeletonOfSpace(s[..|s| - 1]);
      assert IsSpace(s[|s| - 1]);
    }
  }

  lemma SkeletonOfTrimmed(s: string)
    ensures Skeleton(TrimSpace(s)) == Skeleton(s)
  {
    var m, n := TrimSpaceSplits(s);
    assert s == s[..m] + s[m..n] + s[n..];
    SkeletonOfSplit(s[..m] + s[m..n], s[n..]);
    SkeletonOfSplit(s[..m], s[m..n]);
    SkeletonOfSpace(s[..m]);
    SkeletonOfSpace(s[n..]);
  }

  /** What a namespace looks like, and that nothing but case and separators is lost or invented on the way to it. */
  lemma NamespaceShape(exportName: string)
    requires IsAscii(exportName)
    ensures Canonical(Namespace(exportName))
    ensures Skeleton(Namespace(exportName)) == Skeleton(exportName)
  {
    var name := TrimSpace(exportName);
    ScanIsWellSeparated(name, |name|);
    assert name[..|name|] == name;
    DropTrailingIsCanonical(Scan(name, |name|));
    SkeletonOfTrimmed(exportName);
  }

  // ---------- converting twice ----------

  /** A digit directly followed by a letter just before position `i`. */
  predicate DigitThenLetter(s: string, i: int) {
    0 < i < |s| && IsDigit(s[i - 1]) && IsLetter(s[i])
  }

  /** The first `n` characters of `s` with an underscore between every digit and the letter that follows it. */
  function Loosened(s: string, n: nat): string
    requires n <= |s|
  {
    if n == 0 then ""
    else Loosened(s, n - 1) + (if DigitThenLetter(s, n - 1) then "_" else "") + [s[n - 1]]
  }

  lemma {:induction false} ScanLoosens(s: string, n: nat)
    requires n <= |s| && WellSeparated(s)
    ensures Scan(s, n) == Loosened(s, n)
    ensures n > 0 ==> Loosened(s, n) != "" && Loosened(s, n)[|Loosened(s, n)| - 1] == s[n - 1]
  {
    if n > 0 {
      ScanLoosens(s, n - 1);
      assert IsNamespaceSymbol(s[n - 1]);
      if n > 1 {
        assert IsNamespaceSymbol(s[n - 2]);
        assert !(s[n - 2] == '_' && s[n - 1] == '_');
      }
      if n < |s| { assert IsNamespaceSymbol(s[n]); }
    }
  }

  lemma SecondConversionLoosens(s: string)
    requires Canonical(s)
    ensures Namespace(s) == Loosened(s, |s|)
  {
    TrimmedIsFixed(s);
    ScanLoosens(s, |s|);
  }

  lemma {:induction false} LoosenedWithoutGaps(s: string, n: nat)
    requires n <= |s|
    ensures |Loosened(s, n)| >= n
    ensures (forall i | 0 < i < n :: !DigitThenLetter(s, i)) ==> Loosened(s, n) == s[..n]
    ensures (exists i | 0 < i < n :: DigitThenLetter(s, i)) ==> |Loosened(s, n)| > n
  {
    if n > 0 {
      LoosenedWithoutGaps(s, n - 1);
      assert s[..n - 1] + [s[n - 1]] == s[..n];
    }
  }

  lemma {:induction false} LoosenedHasNoGaps(s: string, n: nat)
    requires n <= |s| && WellSeparated(s)
    ensures forall i :: !DigitThenLetter(Loosened(s, n), i)
    ensures n > 0 ==> Loosened(s, n) != "" && Loosened(s, n)[|Loosened(s, n)| - 1] == s[n - 1]
  {
    if n > 0 {
      LoosenedHasNoGaps(s, n - 1);
      var before, now := Loosened(s, n - 1), Loosened(s, n);
      forall i ensures !DigitThenLetter(now, i) {
        if 0 < i < |before| {
          assert !DigitThenLetter(before, i);
        }
      }
    }
  }

  /** Converting a namespace again changes it exactly when it has a digit directly followed by a letter. */
  lemma SecondConversionChanges(exportName: string)
    requires IsAscii(exportName)
    ensures Namespace(Namespace(exportName)) != Namespace(exportName)
            <==> exists i :: DigitThenLetter(Namespace(exportName), i)
  {
    var s := Namespace(exportName);
    NamespaceShape(exportName);
    SecondConversionLoosens(s);
    LoosenedWithoutGaps(s, |s|);
    assert s[..|s|] == s;
  }

  /** From the second conversion on, converting is the identity. */
  lemma ThirdConversionIsIdentity(exportName: string)
    requires IsAscii(exportName)
    ensures Namespace(Namespace(Namespace(exportName))) == Namespace(Namespace(exportName))
  {
    var s := Namespace(exportName);
    NamespaceShape(exportName);
    SecondConversionLoosens(s);
    LoosenedHasNoGaps(s, |s|);
    SecondConversionChanges(s);
  }

  /** The second conversion does change some namespaces: an export `A1b` becomes `A1B`, and that becomes `A1_B`. */
  lemma SecondConversionExample()
    ensures Namespace("A1b") == "A1B" && Namespace("A1B") == "A1_B"
  {
    TrimmedIsFixed("A1b");
    TrimmedIsFixed("A1B");
    assert Scan("A1b", 1) == "A" && Scan("A1b", 2) == "A1" && Scan("A1b", 3) == "A1B";
    assert Scan("A1B", 1) == "A" && Scan("A1B", 2) == "A1" && Scan("A1B", 3) == "A1_B";
  }
}
