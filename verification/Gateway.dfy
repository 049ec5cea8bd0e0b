/** The paths of the HTTP gateway. */
module Gateway {
  import opened Wrappers

  /** `strings.Split(s, "/")`. */
  function Split(s: string): (parts: seq<string>)
    ensures parts != []
  {
    if s == "" then [""]
    else
      var rest := Split(s[1..]);
      if s[0] == '/' then [""] + rest else [[s[0]] + rest[0]] + rest[1..]
  }

  /** `strings.Join(parts, "/")`. */
  function Join(parts: seq<string>): string {
    if parts == [] then ""
    else if |parts| == 1 then parts[0]
    else parts[0] + "/" + Join(parts[1..])
  }

  function TrimLeftSlashes(s: string): string {
    if s != "" && s[0] == '/' then TrimLeftSlashes(s[1..]) else s
  }

  function TrimRightSlashes(s: string): string {
    if s != "" && s[|s| - 1] == '/' then TrimRightSlashes(s[..|s| - 1]) else s
  }

  /** `strings.Trim(s, "/")`. */
  function TrimSlashes(s: string): string {
    TrimRightSlashes(TrimLeftSlashes(s))
  }

  function ParseRPCPath(path: string): Result<(string, string, string)> {
    var parts := Split(TrimSlashes(path));
    if |parts| != 4 || parts[0] != "rpc" then Err(BadRequest)
    else Ok((parts[1], parts[2], parts[3]))
  }

  function ParseFetchPath(path: string): Result<(string, string, string)> {
    var parts := Split(TrimSlashes(path));
    if |parts| < 3 || parts[0] != "fetch" then Err(BadRequest)
    else Ok((parts[1], parts[2], if |parts| > 3 then "/" + Join(parts[3..]) else "/"))
  }

  function RPCPath(namespace: string, name: string, method_: string): string {
    "/rpc/" + namespace + "/" + name + "/" + method_
  }

  function FetchPath(namespace: string, name: string, rest: string): string {
    "/fetch/" + namespace + "/" + name + rest
  }

  predicate IsSegment(s: string) { '/' !in s }

  predicate EndsInSlash(s: string) { s != "" && s[|s| - 1] == '/' }

  // ---------- splitting and joining ----------

  lemma {:induction false} JoinInvertsSplit(s: string)
    ensures Join(Split(s)) == s
  {
    if s != "" {
      var rest := Split(s[1..]);
      JoinInvertsSplit(s[1..]);
      assert s == [s[0]] + s[1..];
      if s[0] == '/' {
        assert ([""] + rest)[1..] == rest;
      } else if |rest| > 1 {
        assert ([[s[0]] + rest[0]] + rest[1..])[1..] == rest[1..];
      }
    }
  }

  lemma {:induction false} SplitSegment(a: string, s: string)
    requires IsSegment(a)
    ensures Split(a + "/" + s) == [a] + Split(s)
    ensures Split(a) == [a]
  {
    var whole := a + "/" + s;
    if a == "" {
      assert whole[1..] == s;
    } else {
      SplitSegment(a[1..], s);
      assert whole[1..] == a[1..] + "/" + s;
      assert a == [a[0]] + a[1..];
      assert ([a[1..]] + Split(s))[1..] == Split(s);
    }
  }

  lemma {:induction false} TrimmedEnds(s: string)
    ensures !EndsInSlash(TrimRightSlashes(s))
    ensures !EndsInSlash(s) ==> TrimRightSlashes(s) == s
  {
    if EndsInSlash(s) {
      TrimmedEnds(s[..|s| - 1]);
    }
  }

  lemma {:induction false} JoinEndsLikeLast(parts: seq<string>)
    requires |parts| > 1
    ensures EndsInSlash(Join(parts)) <==> parts[|parts| - 1] == "" || EndsInSlash(parts[|parts| - 1])
  {
    var tail := parts[1..];
    assert tail[|tail| - 1] == parts[|parts| - 1];
    if |parts| > 2 {
      JoinEndsLikeLast(tail);
    }
    assert Join(parts) == parts[0] + "/" + Join(tail);
    if Join(tail) != "" {
      assert Join(parts)[|Join(parts)| - 1] == Join(tail)[|Join(tail)| - 1];
    } else if |tail| > 1 {
      assert false;
    }
  }

  /** A path with one slash in front, and perhaps one behind, loses exactly these. */
  lemma TrimmedPath(s: string)
    requires s != "" && s[0] != '/' && !EndsInSlash(s)
    ensures TrimSlashes("/" + s) == s && TrimSlashes("/" + s + "/") == s
  {
    TrimmedEnds(s);
    assert TrimLeftSlashes(s) == s && ("/" + s)[1..] == s;
    assert TrimLeftSlashes(s + "/") == s + "/" && ("/" + s + "/")[1..] == s + "/";
    assert (s + "/")[..|s|] == s;
    assert TrimRightSlashes(s + "/") == s;
  }

  lemma JoinOfThree(parts: seq<string>)
    requires |parts| >= 3
    ensures Join(parts) == parts[0] + "/" + (parts[1] + "/" + Join(parts[2..]))
  {
    assert parts[1..][1..] == parts[2..];
  }

  lemma SplitThree(a: string, b: string, s: string)
    requires IsSegment(a) && IsSegment(b)
    ensures Split(a + "/" + (b + "/" + s)) == [a, b] + Split(s)
  {
    SplitSegment(a, b + "/" + s);
    SplitSegment(b, s);
  }

  // ---------- RPC paths ----------

  /** Whatever is accepted is, trimmed of slashes, the join of its parts, and the last part is not empty. */
  lemma AcceptedRPCPath(path: string)
    requires ParseRPCPath(path).Ok?
    ensures var (ns, name, m) := ParseRPCPath(path).value;
            TrimSlashes(path) == "rpc/" + ns + "/" + name + "/" + m && m != ""
  {
    var s := TrimSlashes(path);
    var parts := Split(s);
    JoinInvertsSplit(s);
    TrimmedEnds(TrimLeftSlashes(path));
    JoinEndsLikeLast(parts);
    JoinOfThree(parts);
    assert parts[2..][1..] == parts[3..] == [parts[3]];
    assert Join(parts) == "rpc/" + parts[1] + "/" + parts[2] + "/" + parts[3];
  }

  /** Building and parsing is the identity on slash-free parts exactly when the method is not empty. */
  lemma RPCPathRoundTrip(namespace: string, name: string, m: string)
    requires IsSegment(namespace) && IsSegment(name) && IsSegment(m)
    ensures ParseRPCPath(RPCPath(namespace, name, m)) == Ok((namespace, name, m)) <==> m != ""
  {
    var path := RPCPath(namespace, name, m);
    if m == "" {
      if ParseRPCPath(path).Ok? {
        AcceptedRPCPath(path);
      }
    } else {
      var s := "rpc" + "/" + (namespace + "/" + (name + "/" + m));
      assert path == "/" + s;
      assert s[|s| - 1] == m[|m| - 1];
      TrimmedPath(s);
      SplitThree("rpc", namespace, name + "/" + m);
      SplitSegment(name, m);
      SplitSegment(m, "");
      assert Split(s) == ["rpc", namespace, name, m];
    }
  }

  // ---------- fetch paths ----------

  /** Whatever is accepted is, trimmed of slashes, the join of its parts; with three parts there is nothing for the rest. */
  lemma AcceptedFetchPath(path: string)
    requires ParseFetchPath(path).Ok?
    ensures var (ns, name, rest) := ParseFetchPath(path).value;
            var s := TrimSlashes(path);
            && s == "fetch/" + ns + "/" + name + (if |Split(s)| == 3 then "" else rest)
            && (if |Split(s)| == 3 then rest == "/" && name != ""
                else rest != "" && rest[0] == '/' && rest != "/" && !EndsInSlash(rest))
  {
    var s := TrimSlashes(path);
    var parts := Split(s);
    JoinInvertsSplit(s);
    TrimmedEnds(TrimLeftSlashes(path));
    if |parts| == 3 {
      AcceptedShort(parts);
    } else {
      AcceptedLong(parts);
    }
  }

  lemma AcceptedShort(parts: seq<string>)
    requires |parts| == 3 && parts[0] == "fetch" && !EndsInSlash(Join(parts))
    ensures Join(parts) == "fetch/" + parts[1] + "/" + parts[2] + "" && parts[2] != ""
  {
    JoinedThree(parts);
    JoinEndsLikeLast(parts);
    assert "fetch" + "/" == "fetch/";
  }

  lemma AcceptedLong(parts: seq<string>)
    requires |parts| > 3 && parts[0] == "fetch" && !EndsInSlash(Join(parts))
    ensures var rest := "/" + Join(parts[3..]);
            && Join(parts) == "fetch/" + parts[1] + "/" + parts[2] + rest
            && rest != "/" && !EndsInSlash(rest)
  {
    JoinedMore(parts);
    assert "fetch" + "/" == "fetch/";
    assert EndsInSlash("/");
  }

  lemma JoinedThree(parts: seq<string>)
    requires |parts| == 3
    ensures Join(parts) == parts[0] + "/" + parts[1] + "/" + parts[2]
  {
    JoinOfThree(parts);
    assert parts[2..] == [parts[2]];
    assert Join([parts[2]]) == parts[2];
  }

  /** With more than three parts, the rest is what the join has behind the third, and ends like it. */
  lemma JoinedMore(parts: seq<string>)
    requires |parts| > 3
    ensures var rest := "/" + Join(parts[3..]);
            && Join(parts) == parts[0] + "/" + parts[1] + "/" + parts[2] + rest
            && (EndsInSlash(rest) ==> EndsInSlash(Join(parts)))
  {
    var tail := Join(parts[3..]);
    JoinOfThree(parts);
    assert parts[2..][0] == parts[2] && parts[2..][1..] == parts[3..];
    assert Join(parts[2..]) == parts[2] + "/" + tail;
    Associates(parts[0], parts[1], parts[2], tail);
    EndsAlike(parts[0] + "/" + parts[1] + "/" + parts[2], "/" + tail);
  }

  lemma Associates(a: string, b: string, c: string, tail: string)
    ensures a + "/" + (b + "/" + (c + "/" + tail)) == a + "/" + b + "/" + c + ("/" + tail)
  {
  }

  lemma EndsAlike(front: string, rest: string)
    requires rest != ""
    ensures EndsInSlash(front + rest) <==> EndsInSlash(rest)
  {
  }

  /**
   * Building and parsing is the identity on slash-free namespace and name exactly when the rest begins with a slash
   * and, unless it is just that slash after a non-empty name, does not end in one.
   */
  lemma FetchPathRoundTrip(namespace: string, name: string, rest: string)
    requires IsSegment(namespace) && IsSegment(name)
    ensures ParseFetchPath(FetchPath(namespace, name, rest)) == Ok((namespace, name, rest))
            <==> rest != "" && rest[0] == '/' && (if rest == "/" then name != "" else !EndsInSlash(rest))
  {
    var path := FetchPath(namespace, name, rest);
    if rest == "" || rest[0] != '/' || (rest != "/" && EndsInSlash(rest)) || (rest == "/" && name == "") {
      if ParseFetchPath(path) == Ok((namespace, name, rest)) {
        AcceptedFetchPath(path);
      }
    } else if rest == "/" {
      ShortFetchPath(namespace, name);
    } else {
      LongFetchPath(namespace, name, rest);
    }
  }

  lemma ShortFetchPath(namespace: string, name: string)
    requires IsSegment(namespace) && IsSegment(name) && name != ""
    ensures ParseFetchPath(FetchPath(namespace, name, "/")) == Ok((namespace, name, "/"))
  {
    var s := "fetch" + "/" + (namespace + "/" + name);
    assert FetchPath(namespace, name, "/") == "/" + s + "/";
    assert s[|s| - 1] == name[|name| - 1];
    TrimmedPath(s);
    SplitThree("fetch", namespace, name);
    SplitSegment(name, "");
    assert Split(s) == ["fetch", namespace, name];
  }

  lemma LongFetchPath(namespace: string, name: string, rest: string)
    requires IsSegment(namespace) && IsSegment(name)
    requires rest != "" && rest[0] == '/' && rest != "/" && !EndsInSlash(rest)
    ensures ParseFetchPath(FetchPath(namespace, name, rest)) == Ok((namespace, name, rest))
  {
    var tail := rest[1..];
    var s := "fetch" + "/" + (namespace + "/" + (name + "/" + tail));
    assert rest == "/" + tail;
    assert FetchPath(namespace, name, rest) == "/" + s;
    assert s[|s| - 1] == rest[|rest| - 1];
    TrimmedPath(s);
    SplitThree("fetch", namespace, name + "/" + tail);
    SplitSegment(name, tail);
    var parts := Split(s);
    assert parts == ["fetch", namespace, name] + Split(tail);
    assert parts[3..] == Split(tail);
    JoinInvertsSplit(tail);
  }
}
