/** The parts of Go's `strings` and `unicode` packages that the runtime relies on. */
module Text {

  /** `unicode.IsSpace`. */
  predicate IsSpace(c: char) {
    || '\t' <= c <= '\r' || c == ' ' || c == '\U{85}' || c == '\U{A0}' || c == '\U{1680}'
    || '\U{2000}' <= c <= '\U{200A}' || c == '\U{2028}' || c == '\U{2029}' || c == '\U{202F}'
    || c == '\U{205F}' || c == '\U{3000}'
  }

  predicate IsUpper(c: char) { 'A' <= c <= 'Z' }

  predicate IsLower(c: char) { 'a' <= c <= 'z' }

  predicate IsDigit(c: char) { '0' <= c <= '9' }

  predicate IsLetter(c: char) { IsUpper(c) || IsLower(c) }

  predicate IsAscii(s: string) { forall i | 0 <= i < |s| :: s[i] < '\U{80}' }

  /** `unicode.IsControl`: the two blocks of category Cc. */
  predicate IsControl(c: char) { c < ' ' || '\U{7F}' <= c < '\U{A0}' }

  function ToUpper(c: char): char {
    if IsLower(c) then c - 'a' + 'A' else c
  }

  function ToLower(c: char): char {
    if IsUpper(c) then c - 'A' + 'a' else c
  }

  /** The number of bytes of the UTF-8 encoding of `s`, which is what Go's `len` measures. */
  function ByteLength(s: string): nat {
    if s == "" then 0 else
      (if s[0] < '\U{80}' then 1 else if s[0] < '\U{800}' then 2 else if s[0] < '\U{10000}' then 3 else 4)
      + ByteLength(s[1..])
  }

  lemma {:induction false} AsciiByteLength(s: string)
    requires IsAscii(s)
    ensures ByteLength(s) == |s|
  {
    if s != "" {
      AsciiByteLength(s[1..]);
    }
  }

  function TrimLeft(s: string): (r: string)
    ensures |r| <= |s|
  {
    if s != "" && IsSpace(s[0]) then TrimLeft(s[1..]) else s
  }

  function TrimRight(s: string): (r: string)
    ensures |r| <= |s|
  {
    if s != "" && IsSpace(s[|s| - 1]) then TrimRight(s[..|s| - 1]) else s
  }

  /** `strings.TrimSpace`. */
  function TrimSpace(s: string): string {
    TrimRight(TrimLeft(s))
  }

  /** Nothing is left to trim. */
  predicate IsTrimmed(s: string) {
    s != "" ==> !IsSpace(s[0]) && !IsSpace(s[|s| - 1])
  }

  /** `s` without its first `m` and last `|s| - n` characters, all of which are white space. */
  ghost predicate IsTrimOf(s: string, m: int, n: int, t: string) {
    && 0 <= m <= n <= |s|
    && t == s[m..n]
    && forall i | 0 <= i < |s| && !(m <= i < n) :: IsSpace(s[i])
  }

  lemma {:induction false} TrimLeftSplits(s: string) returns (m: nat)
    ensures IsTrimOf(s, m, |s|, TrimLeft(s))
    ensures TrimLeft(s) != "" ==> !IsSpace(TrimLeft(s)[0])
  {
    if s != "" && IsSpace(s[0]) {
      var t := s[1..];
      var k := TrimLeftSplits(t);
      m := k + 1;
      assert t[k..] == s[m..];
      forall i | 0 <= i < m ensures IsSpace(s[i]) {
        assert i == 0 || s[i] == t[i - 1];
      }
    } else {
      m := 0;
    }
  }

  lemma {:induction false} TrimRightSplits(s: string) returns (n: nat)
    ensures IsTrimOf(s, 0, n, TrimRight(s))
    ensures TrimRight(s) != "" ==> !IsSpace(TrimRight(s)[|TrimRight(s)| - 1])
  {
    if s != "" && IsSpace(s[|s| - 1]) {
      var t := s[..|s| - 1];
      n := TrimRightSplits(t);
      forall i | n <= i < |t| ensures IsSpace(s[i]) {
        assert s[i] == t[i];
      }
    } else {
      n := |s|;
    }
  }

  /** Trimming removes white space and nothing else, and leaves none at either end. */
  lemma TrimSpaceSplits(s: string) returns (m: nat, n: nat)
    ensures IsTrimmed(TrimSpace(s))
    ensures IsTrimOf(s, m, n, TrimSpace(s))
  {
    m := TrimLeftSplits(s);
    var t := TrimLeft(s);
    var k := TrimRightSplits(t);
    n := m + k;
    assert t[..k] == s[m..n];
    forall i | n <= i < |s| ensures IsSpace(s[i]) {
      assert s[i] == t[i - m];
    }
  }

  lemma TrimmedIsFixed(s: string)
    requires IsTrimmed(s)
    ensures TrimSpace(s) == s
  {
  }

  lemma TrimSpaceIdempotent(s: string)
    ensures TrimSpace(TrimSpace(s)) == TrimSpace(s)
  {
    var _, _ := TrimSpaceSplits(s);
    TrimmedIsFixed(TrimSpace(s));
  }
}
