/** Small value-level helpers shared by the model: the optional values of
    TypeScript (`T | null`, `T | undefined`) and the few string operations the
    program uses (`toLowerCase`, `trim`, `includes`, `replace`, `join`). */
module Common {

  datatype Option<+T> = None | Some(value: T) {
    /** `x ?? d` in TypeScript. */
    function GetOr(default: T): T {
      match this
      case Some(v) => v
      case None => default
    }
  }

  /** A JavaScript string is truthy when it is present and non-empty. */
  predicate Truthy(s: Option<string>) {
    s.Some? && s.value != ""
  }

  // ---------------------------------------------------------------------------
  // Case folding (ASCII only)
  // ---------------------------------------------------------------------------

  function ToLowerChar(c: char): (r: char)
    ensures 'A' <= c <= 'Z' ==> r != c && 'a' <= r <= 'z'
    ensures !('A' <= c <= 'Z') ==> r == c
  {
    if 'A' <= c <= 'Z' then (c as int + 32) as char else c
  }

  /** `s.toLowerCase()`, restricted to the ASCII letters. */
  function ToLower(s: string): (r: string)
    ensures |r| == |s|
    ensures forall i :: 0 <= i < |s| ==> r[i] == ToLowerChar(s[i])
  {
    seq(|s|, i requires 0 <= i < |s| => ToLowerChar(s[i]))
  }

  // ---------------------------------------------------------------------------
  // Substrings
  // ---------------------------------------------------------------------------

  /** `s.includes(sub)`: `sub` occurs in `s` at some position. */
  predicate Contains(s: string, sub: string)
    decreases |s|
  {
    sub <= s || (s != [] && Contains(s[1..], sub))
  }

  lemma {:induction false} ContainsAt(s: string, sub: string, i: nat)
    requires i + |sub| <= |s| && s[i..i + |sub|] == sub
    ensures Contains(s, sub)
    decreases i
  {
    if i == 0 {
      assert sub <= s;
    } else {
      assert s[1..][i - 1..i - 1 + |sub|] == sub;
      ContainsAt(s[1..], sub, i - 1);
    }
  }

  lemma {:induction false} ContainsWitness(s: string, sub: string) returns (i: nat)
    requires Contains(s, sub)
    ensures i + |sub| <= |s| && s[i..i + |sub|] == sub
    decreases |s|
  {
    if sub <= s {
      i := 0;
    } else {
      var j := ContainsWitness(s[1..], sub);
      assert s[1..][j..j + |sub|] == s[j + 1..j + 1 + |sub|];
      i := j + 1;
    }
  }

  /** `includes` with the empty needle always holds. */
  lemma ContainsEmpty(s: string)
    ensures Contains(s, "")
  {
    assert [] <= s;
  }

  /** An occurrence in a part is an occurrence in the whole. */
  lemma {:induction false} ContainsInConcat(a: string, b: string, c: string, sub: string)
    requires Contains(b, sub)
    ensures Contains(a + b + c, sub)
  {
    var i := ContainsWitness(b, sub);
    assert (a + b + c)[|a| + i..|a| + i + |sub|] == b[i..i + |sub|];
    ContainsAt(a + b + c, sub, |a| + i);
  }

  // ---------------------------------------------------------------------------
  // Whitespace and `trim`
  // ---------------------------------------------------------------------------

  /** The white-space and line-terminator characters that `String.prototype.trim`
      removes (the space separators of Unicode category Zs beyond U+00A0 are
      not listed). */
  predicate IsWhitespace(c: char) {
    c == ' ' || c == '\t' || c == '\n' || c == '\r' || c == '\U{000B}' || c == '\U{000C}'
    || c == '\U{00A0}' || c == '\U{2028}' || c == '\U{2029}' || c == '\U{FEFF}'
  }

  predicate AllWhitespace(s: string) {
    forall i :: 0 <= i < |s| ==> IsWhitespace(s[i])
  }

  function TrimStart(s: string): (r: string)
    ensures |r| <= |s| && r == s[|s| - |r|..]
    ensures AllWhitespace(s[..|s| - |r|])
    ensures r != [] ==> !IsWhitespace(r[0])
  {
    if s != [] && IsWhitespace(s[0]) then
      var r := TrimStart(s[1..]);
      assert s[..|s| - |r|] == [s[0]] + s[1..][..|s| - 1 - |r|];
      r
    else s
  }

  function TrimEnd(s: string): (r: string)
    ensures |r| <= |s| && r == s[..|r|]
    ensures AllWhitespace(s[|r|..])
    ensures r != [] ==> !IsWhitespace(r[|r| - 1])
  {
    if s != [] && IsWhitespace(s[|s| - 1]) then
      var r := TrimEnd(s[..|s| - 1]);
      assert s[|r|..] == s[..|s| - 1][|r|..] + [s[|s| - 1]];
      r
    else s
  }

  /** `r` sits at `i` in `s` with only white space before and after it. */
  predicate WhitespaceAround(s: string, r: string, i: int) {
    0 <= i && i + |r| <= |s| && s[i..i + |r|] == r && AllWhitespace(s[..i]) && AllWhitespace(s[i + |r|..])
  }

  /** `s.trim()`: the longest slice of `s` that neither starts nor ends with
      white space; only white space is cut away. */
  function Trim(s: string): (r: string)
    ensures Contains(s, r)
    ensures exists i :: WhitespaceAround(s, r, i)
    ensures r != [] ==> !IsWhitespace(r[0]) && !IsWhitespace(r[|r| - 1])
    ensures r == [] <==> AllWhitespace(s)
  {
    var t := TrimStart(s);
    var r := TrimEnd(t);
    TrimFacts(s, t, r);
    r
  }

  lemma {:induction false} TrimFacts(s: string, t: string, r: string)
    requires t == TrimStart(s) && r == TrimEnd(t)
    ensures Contains(s, r)
    ensures WhitespaceAround(s, r, |s| - |t|)
    ensures r != [] ==> !IsWhitespace(r[0])
    ensures r == [] <==> AllWhitespace(s)
  {
    var i := |s| - |t|;
    assert s[i..i + |r|] == r;
    assert s[i + |r|..] == t[|r|..];
    ContainsAt(s, r, i);
    if r == [] {
      assert s == s[..i];
    } else {
      assert r[0] == t[0];
      assert !AllWhitespace(s) by { assert s[i] == r[0]; }
    }
  }

  // ---------------------------------------------------------------------------
  // `replace` of the first occurrence of one character
  // ---------------------------------------------------------------------------

  /** Position of the first `c` in `s`. */
  function IndexOf(s: string, c: char): (k: nat)
    requires c in s
    ensures k < |s| && s[k] == c && c !in s[..k]
  {
    if s[0] == c then 0
    else
      var k := IndexOf(s[1..], c);
      assert s[..k + 1] == [s[0]] + s[1..][..k];
      k + 1
  }

  /** `s.replace(c, "")` with a one-character string pattern: only the first
      occurrence is removed. */
  function RemoveFirst(s: string, c: char): (r: string)
    ensures c !in s ==> r == s
    ensures c in s ==> r == s[..IndexOf(s, c)] + s[IndexOf(s, c) + 1..]
  {
    if s == [] then []
    else if s[0] == c then
      assert s[..IndexOf(s, c)] == [];
      s[1..]
    else
      var rest := RemoveFirst(s[1..], c);
      if c in s then
        assert c in s[1..];
        var k := IndexOf(s[1..], c);
        assert IndexOf(s, c) == k + 1;
        assert s[..k + 1] == [s[0]] + s[1..][..k];
        assert s[k + 2..] == s[1..][k + 1..];
        [s[0]] + rest
      else
        assert c !in s[1..];
        assert [s[0]] + s[1..] == s;
        [s[0]] + rest
  }

  // ---------------------------------------------------------------------------
  // `Array.prototype.join`
  // ---------------------------------------------------------------------------

  /** `xs.join(sep)`. */
  function Join(xs: seq<string>, sep: string): (r: string)
    ensures forall i :: 0 <= i < |xs| ==> Contains(r, xs[i])
    ensures xs == [] ==> r == ""
  {
    if xs == [] then ""
    else if |xs| == 1 then
      assert Contains(xs[0] + "" + "", xs[0]) by { ContainsInConcat("", xs[0], "", xs[0]); assert Contains(xs[0], xs[0]) by { assert xs[0] <= xs[0]; } }
      assert xs[0] + "" + "" == xs[0];
      xs[0]
    else
      var rest := Join(xs[1..], sep);
      var r := xs[0] + sep + rest;
      forall i | 0 <= i < |xs| ensures Contains(r, xs[i]) {
        if i == 0 {
          assert xs[0] <= r;
        } else {
          assert xs[i] == xs[1..][i - 1];
          ContainsInConcat(xs[0] + sep, rest, "", xs[i]);
          assert xs[0] + sep + rest + "" == r;
        }
      }
      r
  }

  // ---------------------------------------------------------------------------
  // Subsequences (what `Array.prototype.filter` keeps)
  // ---------------------------------------------------------------------------

  /** `a` is `b` with some elements left out, the rest in their order. */
  predicate IsSubsequence<T(==)>(a: seq<T>, b: seq<T>)
    decreases |b|
  {
    a == [] || (b != [] && if a[0] == b[0] then IsSubsequence(a[1..], b[1..]) else IsSubsequence(a, b[1..]))
  }
}
