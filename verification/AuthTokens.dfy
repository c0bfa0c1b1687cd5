/** Scopes and opaque tokens: normalizeScopes, newTokenWithID and parseToken. */
module AuthTokens {
  import opened RuntimeTypes

  /* ---- text ---- */

  function TrimLeft(s: string): string { if s != [] && IsSpace(s[0]) then TrimLeft(s[1..]) else s }

  function TrimRight(s: string): string
    decreases |s|
  {
    if s != [] && IsSpace(s[|s| - 1]) then TrimRight(s[..|s| - 1]) else s
  }

  function Trim(s: string): string { TrimRight(TrimLeft(s)) }

  lemma {:induction false} TrimLeftExact(s: string) returns (left: string)
    ensures s == left + TrimLeft(s) && IsBlank(left)
    ensures TrimLeft(s) != [] ==> !IsSpace(TrimLeft(s)[0])
    decreases |s|
  {
    left := [];
    if s != [] && IsSpace(s[0]) {
      var rest := TrimLeftExact(s[1..]);
      left := [s[0]] + rest;
      assert s == [s[0]] + s[1..];
    }
  }

  lemma {:induction false} TrimRightExact(s: string) returns (right: string)
    ensures s == TrimRight(s) + right && IsBlank(right)
    ensures TrimRight(s) != [] ==> TrimRight(s)[0] == s[0] && !IsSpace(TrimRight(s)[|TrimRight(s)| - 1])
    decreases |s|
  {
    right := [];
    if s != [] && IsSpace(s[|s| - 1]) {
      var front := s[..|s| - 1];
      var rest := TrimRightExact(front);
      right := rest + [s[|s| - 1]];
      assert s == front + [s[|s| - 1]];
      assert s == TrimRight(front) + right;
    }
  }

  /** Trimming strips blanks from both ends, and all of them. */
  lemma TrimExact(s: string) returns (left: string, right: string)
    ensures s == left + Trim(s) + right && IsBlank(left) && IsBlank(right)
    ensures Trim(s) != [] ==> !IsSpace(Trim(s)[0]) && !IsSpace(Trim(s)[|Trim(s)| - 1])
  {
    left := TrimLeftExact(s);
    right := TrimRightExact(TrimLeft(s));
    assert s == left + (Trim(s) + right);
  }

  /** Bytes of a character in UTF-8, the unit in which the program measures length. */
  function ByteCount(c: char): nat {
    if c < '\U{80}' then 1 else if c < '\U{800}' then 2 else if c < '\U{10000}' then 3 else 4
  }

  function ByteLength(s: string): nat { if s == [] then 0 else ByteCount(s[0]) + ByteLength(s[1..]) }

  function Split(s: string): (parts: seq<string>)
    ensures |parts| > 0
  {
    if s == [] then [[]]
    else if s[0] == '.' then [[]] + Split(s[1..])
    else var rest := Split(s[1..]); [[s[0]] + rest[0]] + rest[1..]
  }

  /* ---- scopes ---- */

  const ALLOWED := ["runtime:read", "runtime:write", "source:read"]

  ghost predicate NoDuplicates(s: seq<string>) { forall i, j :: 0 <= i < j < |s| ==> s[i] != s[j] }

  /** Duplicate-free and within the allowed set. */
  ghost predicate NormalScopes(s: seq<string>) { NoDuplicates(s) && forall i :: 0 <= i < |s| ==> s[i] in ALLOWED }

  function Requested(scopes: seq<string>): seq<string> { if scopes == [] then ALLOWED else scopes }

  /** The scopes in the order of their first mention. */
  function FirstMentions(scopes: seq<string>): seq<string> {
    if scopes == [] then []
    else
      var front, last := FirstMentions(scopes[..|scopes| - 1]), Trim(scopes[|scopes| - 1]);
      if last in front then front else front + [last]
  }

  function NormalizeScopes(scopes: seq<string>): Result<seq<string>> {
    if forall i :: 0 <= i < |Requested(scopes)| ==> Trim(Requested(scopes)[i]) in ALLOWED
    then Ok(FirstMentions(Requested(scopes)))
    else Err(Invalid)
  }

  lemma {:induction false} FirstMentionsExact(scopes: seq<string>)
    ensures NoDuplicates(FirstMentions(scopes))
    ensures forall x :: x in FirstMentions(scopes) <==> exists i :: 0 <= i < |scopes| && Trim(scopes[i]) == x
    decreases |scopes|
  {
    if scopes != [] {
      var n := |scopes| - 1;
      FirstMentionsExact(scopes[..n]);
      forall x ensures x in FirstMentions(scopes) <==> exists i :: 0 <= i < |scopes| && Trim(scopes[i]) == x {
        if i :| 0 <= i < |scopes| && Trim(scopes[i]) == x {
          if i < n { assert scopes[..n][i] == scopes[i]; }
        }
        if x in FirstMentions(scopes[..n]) {
          var i :| 0 <= i < n && Trim(scopes[..n][i]) == x;
          assert Trim(scopes[i]) == x;
        }
      }
    }
  }

  /** Accepted scopes are normal, are exactly the requested ones, and an empty request means all. */
  lemma NormalizeExact(scopes: seq<string>)
    ensures var out := NormalizeScopes(scopes);
            && (out.Err? <==> exists i :: 0 <= i < |scopes| && Trim(scopes[i]) !in ALLOWED)
            && (out.Ok? ==> NormalScopes(out.value) && out.value != [])
            && (out.Ok? && scopes != [] ==> forall x :: x in out.value
                                              <==> exists i :: 0 <= i < |scopes| && Trim(scopes[i]) == x)
            && (scopes == [] ==> out == Ok(ALLOWED))
  {
    FirstMentionsExact(Requested(scopes));
    DefaultScopes();
    var out := NormalizeScopes(scopes);
    if out.Ok? && scopes != [] {
      assert Trim(scopes[0]) in out.value;
      forall k | 0 <= k < |out.value| ensures out.value[k] in ALLOWED { assert out.value[k] in out.value; }
    }
  }

  lemma {:induction false} AlreadyNormal(scopes: seq<string>)
    requires NoDuplicates(scopes) && forall i :: 0 <= i < |scopes| ==> Trim(scopes[i]) == scopes[i]
    ensures FirstMentions(scopes) == scopes
    decreases |scopes|
  {
    if scopes != [] {
      var front, last := scopes[..|scopes| - 1], scopes[|scopes| - 1];
      AlreadyNormal(front);
      assert Trim(last) == last && last !in front;
      assert scopes == front + [last];
    }
  }

  lemma DefaultScopes()
    ensures NormalizeScopes([]) == Ok(ALLOWED) && NormalScopes(ALLOWED)
  {
    assert |ALLOWED[0]| == 12 && |ALLOWED[1]| == 13 && |ALLOWED[2]| == 11;
    AlreadyNormal(ALLOWED);
  }

  /** The loop with its seen set. */
  method NormalizeScopesLoop(scopes: seq<string>) returns (out: Result<seq<string>>)
    ensures out == NormalizeScopes(scopes)
  {
    var requested := Requested(scopes);
    var seen: set<string> := {};
    var result: seq<string> := [];
    var i := 0;
    while i < |requested|
      invariant 0 <= i <= |requested|
      invariant forall j :: 0 <= j < i ==> Trim(requested[j]) in ALLOWED
      invariant result == FirstMentions(requested[..i])
      invariant forall x :: x in seen <==> x in result
    {
      var scope := Trim(requested[i]);
      if scope !in ALLOWED { return Err(Invalid); }
      assert requested[..i + 1][..i] == requested[..i];
      if scope !in seen {
        seen := seen + {scope};
        result := result + [scope];
      }
      i := i + 1;
    }
    assert requested[..i] == requested;
    return Ok(result);
  }

  /* ---- tokens ---- */

  function NewToken(id: string, secret: string): string { id + "." + secret }

  function ParseToken(value: string, prefix: string): Result<(string, string)> {
    var parts := Split(Trim(value));
    if |parts| != 2 || !(prefix + "_" <= parts[0]) || ByteLength(parts[1]) < 32 then Err(Invalid)
    else Ok((parts[0], parts[1]))
  }

  predicate Dotless(s: string) { forall i :: 0 <= i < |s| ==> s[i] != '.' }

  lemma {:induction false} SplitPlain(a: string)
    requires Dotless(a)
    ensures Split(a) == [a]
  {
    if a != [] {
      SplitPlain(a[1..]);
      assert [a[0]] + a[1..] == a;
    }
  }

  lemma {:induction false} SplitHead(a: string, t: string)
    requires Dotless(a)
    ensures Split(a + "." + t) == [a] + Split(t)
  {
    if a == [] {
      assert a + "." + t == "." + t && ("." + t)[1..] == t;
    } else {
      SplitHead(a[1..], t);
      assert (a + "." + t)[1..] == a[1..] + "." + t && (a + "." + t)[0] == a[0];
      assert [a[0]] + a[1..] == a;
      assert ([a[1..]] + Split(t))[1..] == Split(t);
    }
  }

  /** The parts are what stood between the dots. */
  lemma {:induction false} SplitParts(s: string)
    ensures var parts := Split(s);
            && (forall i :: 0 <= i < |parts| ==> Dotless(parts[i]))
            && (|parts| == 1 ==> s == parts[0])
            && (|parts| == 2 ==> s == parts[0] + "." + parts[1])
  {
    if s != [] {
      SplitParts(s[1..]);
      assert s == [s[0]] + s[1..];
      var rest, parts := Split(s[1..]), Split(s);
      if s[0] == '.' {
        assert |parts| == 2 ==> parts[1] == rest[0];
      } else {
        assert forall i :: 0 < i < |parts| ==> parts[i] == rest[i];
        assert |parts| == 2 ==> s == [s[0]] + (rest[0] + "." + rest[1]);
      }
    }
  }

  /** A token parses exactly when, trimmed, it is an identifier with the right prefix, one dot, and a
      secret of at least 32 bytes; and then the parts are these. */
  lemma ParseExact(value: string, prefix: string, id: string, secret: string)
    ensures ParseToken(value, prefix) == Ok((id, secret)) <==>
              && Trim(value) == NewToken(id, secret) && Dotless(id) && Dotless(secret)
              && prefix + "_" <= id && ByteLength(secret) >= 32
  {
    SplitParts(Trim(value));
    if Dotless(id) && Dotless(secret) && Trim(value) == NewToken(id, secret) {
      SplitHead(id, secret);
      SplitPlain(secret);
    }
  }

  predicate Base64Url(s: string) {
    forall i :: 0 <= i < |s|
        ==> 'a' <= s[i] <= 'z' || 'A' <= s[i] <= 'Z' || '0' <= s[i] <= '9' || s[i] == '-' || s[i] == '_'
  }

  lemma {:induction false} PlainLength(s: string)
    requires Base64Url(s)
    ensures ByteLength(s) == |s|
  {
    if s != [] { PlainLength(s[1..]); }
  }

  /** What the service mints, it parses back: identifier and secret. */
  lemma TokenRoundTrip(prefix: string, name: string, secret: string)
    requires Base64Url(prefix) && Base64Url(name) && Base64Url(secret) && |secret| >= 32 && prefix != ""
    ensures ParseToken(NewToken(prefix + "_" + name, secret), prefix) == Ok((prefix + "_" + name, secret))
  {
    var id := prefix + "_" + name;
    var token := NewToken(id, secret);
    assert token[0] == prefix[0] && token[|token| - 1] == secret[|secret| - 1];
    assert Trim(token) == token;
    assert id[..|prefix| + 1] == prefix + "_";
    PlainLength(secret);
    ParseExact(token, prefix, id, secret);
  }
}
