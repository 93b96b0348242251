/** The two JavaScript string operations the answer check and the letter composer rely on:
    String.prototype.trim, which strips WhiteSpace and LineTerminator code points from both
    ends, and String.prototype.toLowerCase, restricted here to the ASCII letters. */
module Text {

  /** The code points trim() removes (WhiteSpace and LineTerminator of ECMA-262). */
  predicate IsWhitespace(c: char) {
    c == '\t' || c == '\n' || c == '\U{B}' || c == '\U{C}' || c == '\r' || c == ' '
    || c == '\U{A0}' || c == '\U{1680}' || ('\U{2000}' <= c <= '\U{200A}')
    || c == '\U{2028}' || c == '\U{2029}' || c == '\U{202F}' || c == '\U{205F}'
    || c == '\U{3000}' || c == '\U{FEFF}'
  }

  predicate AllWhitespace(s: string) {
    forall i :: 0 <= i < |s| ==> IsWhitespace(s[i])
  }

  /** Neither end of `s` is whitespace; the empty string qualifies. */
  predicate Bare(s: string) {
    s == [] || (!IsWhitespace(s[0]) && !IsWhitespace(s[|s| - 1]))
  }

  /** `s` is `core` with whitespace, possibly none, added at either end. */
  ghost predicate PaddedForm(s: string, core: string) {
    exists a, b :: s == a + core + b && AllWhitespace(a) && AllWhitespace(b)
  }

  /** Drops the leading whitespace of `s`. */
  function TrimStart(s: string): string {
    if s != [] && IsWhitespace(s[0]) then TrimStart(s[1..]) else s
  }

  /** Drops the trailing whitespace of `s`. */
  function TrimEnd(s: string): string {
    if s != [] && IsWhitespace(s[|s| - 1]) then TrimEnd(s[..|s| - 1]) else s
  }

  /** The number of leading whitespace characters of `s`. */
  function Lead(s: string): int {
    |s| - |TrimStart(s)|
  }

  /** JavaScript's `s.trim()`. */
  function Trim(s: string): string {
    TrimEnd(TrimStart(s))
  }

  /** TrimStart removes exactly the leading run of whitespace. */
  lemma {:induction false} TrimStartSpec(s: string)
    ensures var r := TrimStart(s);
            |r| <= |s| && r == s[|s| - |r|..]
            && AllWhitespace(s[..|s| - |r|])
            && (r == [] || !IsWhitespace(r[0]))
  {
    if s != [] && IsWhitespace(s[0]) {
      TrimStartSpec(s[1..]);
      var r := TrimStart(s[1..]);
      assert s[..|s| - |r|] == [s[0]] + s[1..][..|s| - 1 - |r|];
    }
  }

  /** TrimEnd removes exactly the trailing run of whitespace. */
  lemma {:induction false} TrimEndSpec(s: string)
    ensures var r := TrimEnd(s);
            |r| <= |s| && r == s[..|r|]
            && AllWhitespace(s[|r|..])
            && (r == [] || !IsWhitespace(r[|r| - 1]))
  {
    if s != [] && IsWhitespace(s[|s| - 1]) {
      TrimEndSpec(s[..|s| - 1]);
      var r := TrimEnd(s[..|s| - 1]);
      assert s[|r|..] == s[..|s| - 1][|r|..] + [s[|s| - 1]];
    }
  }

  /** `s.trim()` is bare and is the slice of `s` that starts after the leading whitespace
      and is followed by whitespace only. */
  lemma TrimSpec(s: string)
    ensures var r, i := Trim(s), Lead(s);
            Bare(r) && 0 <= i && i + |r| <= |s| && s[i..i + |r|] == r
            && AllWhitespace(s[..i]) && AllWhitespace(s[i + |r|..])
  {
    TrimStartSpec(s);
    var t := TrimStart(s);
    TrimEndSpec(t);
    var r := TrimEnd(t);
    var i := Lead(s);
    assert s[i..i + |r|] == r;
    assert s[i + |r|..] == t[|r|..];
  }

  lemma {:induction false} TrimStartPadded(a: string, t: string)
    requires AllWhitespace(a)
    requires t == [] || !IsWhitespace(t[0])
    ensures TrimStart(a + t) == t
  {
    if a == [] {
      assert a + t == t;
    } else {
      assert (a + t)[1..] == a[1..] + t;
      TrimStartPadded(a[1..], t);
    }
  }

  lemma {:induction false} TrimEndPadded(t: string, b: string)
    requires AllWhitespace(b)
    requires t == [] || !IsWhitespace(t[|t| - 1])
    ensures TrimEnd(t + b) == t
  {
    if b == [] {
      assert t + b == t;
    } else {
      assert (t + b)[..|t + b| - 1] == t + b[..|b| - 1];
      TrimEndPadded(t, b[..|b| - 1]);
    }
  }

  /** Trim recovers the core of any whitespace-padded bare string. */
  lemma TrimOfPadded(a: string, t: string, b: string)
    requires AllWhitespace(a) && AllWhitespace(b) && Bare(t)
    ensures Trim(a + t + b) == t
  {
    if t == [] {
      assert a + t + b == (a + b) + t;
      TrimStartPadded(a + b, t);
    } else {
      assert a + t + b == a + (t + b);
      TrimStartPadded(a, t + b);
      TrimEndPadded(t, b);
    }
  }

  /** A bare string is its own trim. */
  lemma TrimOfBare(s: string)
    requires Bare(s)
    ensures Trim(s) == s
  {
    assert [] + s + [] == s;
    TrimOfPadded([], s, []);
  }

  /** Lower-case ASCII letters are not whitespace. */
  lemma LowerLettersAreBare(s: string)
    requires forall i :: 0 <= i < |s| ==> 'a' <= s[i] <= 'z'
    ensures Bare(s)
  {
  }

  /** For a bare `t`, `s.trim() === t` holds exactly when `s` is `t` padded with whitespace. */
  lemma TrimIff(s: string, t: string)
    requires Bare(t)
    ensures Trim(s) == t <==> PaddedForm(s, t)
  {
    TrimSpec(s);
    if Trim(s) == t {
      var i := Lead(s);
      assert s == s[..i] + t + s[i + |t|..];
    }
    if PaddedForm(s, t) {
      var a, b :| s == a + t + b && AllWhitespace(a) && AllWhitespace(b);
      TrimOfPadded(a, t, b);
    }
  }

  lemma WhitespaceConcat(a: string, b: string)
    requires AllWhitespace(a) && AllWhitespace(b)
    ensures AllWhitespace(a + b)
  {
  }

  /** `!s.trim()` (the empty string is falsy) exactly when `s` is all whitespace. */
  lemma TrimEmptyIff(s: string)
    ensures Trim(s) == [] <==> AllWhitespace(s)
  {
    if AllWhitespace(s) {
      assert s == s + [] + [];
      TrimOfPadded(s, [], []);
    }
    if Trim(s) == [] {
      TrimSpec(s);
      var i := Lead(s);
      assert s == s[..i] + s[i..];
      WhitespaceConcat(s[..i], s[i..]);
    }
  }

  /** Trimming twice is trimming once. */
  lemma TrimIdempotent(s: string)
    ensures Trim(Trim(s)) == Trim(s)
  {
    TrimSpec(s);
    TrimOfBare(Trim(s));
  }

  /** ASCII case mapping of one character; every other code point is left as it is. */
  function ToLowerChar(c: char): char {
    if 'A' <= c <= 'Z' then (c as int + 32) as char else c
  }

  /** `s.toLowerCase()` on ASCII letters. */
  function ToLower(s: string): (r: string)
    ensures |r| == |s|
    ensures forall i :: 0 <= i < |s| ==>
              if 'A' <= s[i] <= 'Z' then r[i] as int == s[i] as int + 32 && 'a' <= r[i] <= 'z'
              else r[i] == s[i]
  {
    seq(|s|, i requires 0 <= i < |s| => ToLowerChar(s[i]))
  }

  /** A string without upper-case ASCII letters is its own lower case. */
  lemma LowerOfLower(s: string)
    requires forall i :: 0 <= i < |s| ==> !('A' <= s[i] <= 'Z')
    ensures ToLower(s) == s
  {
  }

  /** Lower-casing never turns a non-whitespace character into whitespace or back. */
  lemma ToLowerKeepsBare(s: string)
    ensures Bare(ToLower(s)) <==> Bare(s)
  {
  }
}
