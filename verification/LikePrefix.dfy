/** SQL patterns: how a key prefix is escaped, and what the escaped pattern matches. */
module LikePrefix {
  import opened Text

  /** The comparison of SQLite's LIKE, which ignores the case of ASCII letters. */
  predicate SameLetter(a: char, b: char) { ToLower(a) == ToLower(b) }

  predicate IsSpecial(c: char) { c in {'\\', '%', '_'} }

  /** `text LIKE pattern ESCAPE '\'`. A pattern that ends in the middle of an escape matches nothing. */
  predicate Like(pattern: string, text: string)
    decreases |pattern|, |text|
  {
    if pattern == "" then text == ""
    else if pattern[0] == '%' then Like(pattern[1..], text) || (text != "" && Like(pattern, text[1..]))
    else if text == "" then false
    else if pattern[0] == '_' then Like(pattern[1..], text[1..])
    else if pattern[0] == '\\' then
      |pattern| > 1 && SameLetter(pattern[1], text[0]) && Like(pattern[2..], text[1..])
    else SameLetter(pattern[0], text[0]) && Like(pattern[1..], text[1..])
  }

  function EscapedChar(c: char): string {
    if IsSpecial(c) then ['\\', c] else [c]
  }

  function Escaped(prefix: string): string {
    if prefix == "" then "" else Escaped(prefix[..|prefix| - 1]) + EscapedChar(prefix[|prefix| - 1])
  }

  method EscapeSQLiteLikePrefix(prefix: string) returns (escaped: string)
    ensures escaped == Escaped(prefix)
  {
    escaped := "";
    for i := 0 to |prefix|
      invariant escaped == Escaped(prefix[..i])
    {
      var r := prefix[i];
      ghost var before := escaped;
      if r == '\\' || r == '%' || r == '_' {
        escaped := escaped + ['\\'];
      }
      escaped := escaped + [r];
      assert escaped == before + EscapedChar(r);
      assert prefix[..i + 1][..i] == prefix[..i];
    }
    assert prefix[..|prefix|] == prefix;
  }

  lemma {:induction false} EscapedFromTheFront(prefix: string)
    requires prefix != ""
    ensures Escaped(prefix) == EscapedChar(prefix[0]) + Escaped(prefix[1..])
  {
    if |prefix| > 1 {
      var front, last := prefix[..|prefix| - 1], prefix[|prefix| - 1];
      EscapedFromTheFront(front);
      assert prefix[1..][..|prefix| - 2] == front[1..];
      assert prefix[1..][|prefix| - 2] == last;
    } else {
      assert prefix[..0] == "" && prefix[1..] == "";
    }
  }

  /** `key` begins with `prefix`, up to the case of ASCII letters. */
  predicate BeginsWith(key: string, prefix: string) {
    |prefix| <= |key| && forall i | 0 <= i < |prefix| :: SameLetter(prefix[i], key[i])
  }

  lemma {:induction false} PercentMatchesAll(text: string)
    ensures Like("%", text)
  {
    if text != "" {
      PercentMatchesAll(text[1..]);
    } else {
      assert Like("%"[1..], text);
    }
  }

  lemma BeginsWithStep(key: string, prefix: string)
    requires prefix != "" && key != ""
    ensures BeginsWith(key, prefix) <==> SameLetter(prefix[0], key[0]) && BeginsWith(key[1..], prefix[1..])
  {
    if SameLetter(prefix[0], key[0]) && BeginsWith(key[1..], prefix[1..]) {
      forall i | 0 <= i < |prefix| ensures SameLetter(prefix[i], key[i]) {
        if i > 0 { assert SameLetter(prefix[1..][i - 1], key[1..][i - 1]); }
      }
    } else if BeginsWith(key, prefix) {
      assert SameLetter(prefix[0], key[0]);
      forall i | 0 <= i < |prefix[1..]| ensures SameLetter(prefix[1..][i], key[1..][i]) {
        assert SameLetter(prefix[i + 1], key[i + 1]);
      }
    }
  }

  /** The escaped prefix followed by `%` matches exactly the keys that begin with the prefix, character by character. */
  lemma {:induction false} EscapedPrefixMatchesPrefix(prefix: string, key: string)
    ensures Like(Escaped(prefix) + "%", key) <==> BeginsWith(key, prefix)
    decreases |prefix|
  {
    var pattern := Escaped(prefix) + "%";
    if prefix == "" {
      assert pattern == "%";
      PercentMatchesAll(key);
    } else {
      var rest := Escaped(prefix[1..]) + "%";
      EscapedFromTheFront(prefix);
      if IsSpecial(prefix[0]) {
        assert pattern == ['\\', prefix[0]] + rest;
        assert pattern[2..] == rest;
      } else {
        assert pattern == [prefix[0]] + rest;
        assert pattern[1..] == rest;
      }
      if key != "" {
        EscapedPrefixMatchesPrefix(prefix[1..], key[1..]);
        BeginsWithStep(key, prefix);
      }
    }
  }

  /** The letter in the other case. */
  function OtherCase(c: char): char { if IsUpper(c) then ToLower(c) else ToUpper(c) }

  lemma OtherCaseIsSame(c: char)
    ensures SameLetter(c, OtherCase(c))
    ensures IsLetter(c) ==> OtherCase(c) != c
    ensures forall d :: !IsLetter(c) && SameLetter(c, d) ==> d == c
  {
  }

  /** For this key, the escaped prefix is a literal prefix. */
  predicate IsLiteralFor(prefix: string, key: string) {
    Like(Escaped(prefix) + "%", key) <==> prefix <= key
  }

  lemma LettersMakeItLoose(prefix: string, i: nat)
    requires i < |prefix| && IsLetter(prefix[i])
    ensures var other := prefix[i := OtherCase(prefix[i])];
            !IsLiteralFor(prefix, other)
  {
    var other := prefix[i := OtherCase(prefix[i])];
    OtherCaseIsSame(prefix[i]);
    EscapedPrefixMatchesPrefix(prefix, other);
    assert other[i] != prefix[i];
  }

  lemma WithoutLettersItIsLiteral(prefix: string, key: string)
    requires forall i | 0 <= i < |prefix| :: !IsLetter(prefix[i])
    ensures IsLiteralFor(prefix, key)
  {
    EscapedPrefixMatchesPrefix(prefix, key);
    if BeginsWith(key, prefix) {
      forall i | 0 <= i < |prefix| ensures prefix[i] == key[i] {
        OtherCaseIsSame(prefix[i]);
        assert SameLetter(prefix[i], key[i]);
      }
    }
  }

  /** The pattern matches literal prefixes only, for every key, exactly when the prefix has no ASCII letter in it. */
  lemma PrefixIsLiteralWithoutLetters(prefix: string)
    ensures (forall key :: IsLiteralFor(prefix, key)) <==> (forall i | 0 <= i < |prefix| :: !IsLetter(prefix[i]))
  {
    if forall i | 0 <= i < |prefix| :: !IsLetter(prefix[i]) {
      forall key ensures IsLiteralFor(prefix, key) { WithoutLettersItIsLiteral(prefix, key); }
    } else {
      var i :| 0 <= i < |prefix| && IsLetter(prefix[i]);
      LettersMakeItLoose(prefix, i);
    }
  }

  function Unescaped(s: string): string {
    if s == "" then ""
    else if s[0] == '\\' && |s| > 1 then [s[1]] + Unescaped(s[2..])
    else [s[0]] + Unescaped(s[1..])
  }

  /** Escaping loses nothing. */
  lemma {:induction false} UnescapeInverts(prefix: string)
    ensures Unescaped(Escaped(prefix)) == prefix
  {
    if prefix != "" {
      UnescapeInverts(prefix[1..]);
      EscapedFromTheFront(prefix);
      var e := Escaped(prefix);
      if IsSpecial(prefix[0]) {
        assert e[2..] == Escaped(prefix[1..]);
      } else {
        assert e[1..] == Escaped(prefix[1..]);
      }
    }
  }

  lemma EscapingIsInjective(a: string, b: string)
    ensures Escaped(a) == Escaped(b) ==> a == b
  {
    UnescapeInverts(a);
    UnescapeInverts(b);
  }
}
