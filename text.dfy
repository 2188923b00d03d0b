/** The few JavaScript string operations the game engine relies on
    (`slice(0, n)`, `trim()`, `toLowerCase()`, `includes(...)`),
    over Dafny strings. */
module Text {

  function Min(a: int, b: int): int { if a <= b then a else b }

  /** `r` is the first `n` characters of `s`, or all of `s` when `s` is shorter. */
  ghost predicate Clipped(r: string, s: string, n: nat) {
    |r| == Min(|s|, n) && r == s[..|r|]
  }

  /** `s.slice(0, n)`. */
  function Truncate(s: string, n: nat): (r: string)
    ensures Clipped(r, s, n)
    ensures n > 0 ==> (r == [] <==> s == [])
  {
    if |s| <= n then s else s[..n]
  }

  // ---------------------------------------------------------------- includes

  /** `pat` stands in `s` at position `i`. */
  ghost predicate OccursAt(pat: string, s: string, i: int) {
    0 <= i <= |s| - |pat| && s[i..i + |pat|] == pat
  }

  /** Reference meaning of `s.includes(pat)`: `pat` stands somewhere in `s`. */
  ghost predicate Occurs(pat: string, s: string) {
    exists i :: OccursAt(pat, s, i)
  }

  /** `s.includes(pat)`, computed by trying each start position in turn. */
  function Contains(s: string, pat: string): bool
    decreases |s|
  {
    if |s| < |pat| then false
    else if s[..|pat|] == pat then true
    else Contains(s[1..], pat)
  }

  lemma {:induction false} ContainsIsOccurs(s: string, pat: string)
    ensures Contains(s, pat) <==> Occurs(pat, s)
    decreases |s|
  {
    if |s| < |pat| {
      assert forall i :: !OccursAt(pat, s, i);
    } else if s[..|pat|] == pat {
      assert OccursAt(pat, s, 0);
    } else {
      ContainsIsOccurs(s[1..], pat);
      if Occurs(pat, s) {
        var i :| OccursAt(pat, s, i);
        assert i != 0;
        assert s[1..][i - 1..i - 1 + |pat|] == s[i..i + |pat|];
        assert OccursAt(pat, s[1..], i - 1);
      }
      if Occurs(pat, s[1..]) {
        var i :| OccursAt(pat, s[1..], i);
        assert s[i + 1..i + 1 + |pat|] == s[1..][i..i + |pat|];
        assert OccursAt(pat, s, i + 1);
      }
    }
  }

  /** A pattern holding a character that never appears in `s` does not occur in `s`. */
  lemma AbsentCharNotOccurs(pat: string, s: string, j: nat)
    requires j < |pat|
    requires forall k :: 0 <= k < |s| ==> s[k] != pat[j]
    ensures !Occurs(pat, s)
  {
    forall i ensures !OccursAt(pat, s, i) {
      if 0 <= i <= |s| - |pat| {
        assert s[i..i + |pat|][j] == s[i + j];
      }
    }
  }

  // ------------------------------------------------------------- toLowerCase

  function LowerChar(c: char): char {
    if 'A' <= c <= 'Z' then (c as int - 'A' as int + 'a' as int) as char else c
  }

  /** `s.toLowerCase()`, on the ASCII letters: no capital A-Z is left, and
      a character differs from the input's only where the input held a
      capital, which then became its small letter. */
  function Lower(s: string): (r: string)
    ensures |r| == |s|
    ensures forall k :: 0 <= k < |r| ==> !('A' <= r[k] <= 'Z')
    ensures forall k :: 0 <= k < |s| && r[k] != s[k] ==>
      'A' <= s[k] <= 'Z' && r[k] as int == s[k] as int + ('a' as int - 'A' as int)
  {
    seq(|s|, k requires 0 <= k < |s| => LowerChar(s[k]))
  }

  // ------------------------------------------------------------------- trim

  /** The characters `String.prototype.trim` removes: ECMAScript's
      WhiteSpace and LineTerminator code points. */
  predicate IsSpace(c: char) {
    c == ' ' || c == '\t' || c == '\n' || c == '\r' || c == '\U{000B}' || c == '\U{000C}'
    || c == '\U{00A0}' || c == '\U{1680}' || ('\U{2000}' <= c <= '\U{200A}')
    || c == '\U{2028}' || c == '\U{2029}' || c == '\U{202F}' || c == '\U{205F}'
    || c == '\U{3000}' || c == '\U{FEFF}'
  }

  ghost predicate AllSpace(s: string) {
    forall k :: 0 <= k < |s| ==> IsSpace(s[k])
  }

  /** Drops the leading white space of `s`. */
  function TrimStart(s: string): (r: string)
    ensures |r| <= |s| && r == s[|s| - |r|..]
    ensures AllSpace(s[..|s| - |r|])
    ensures r == [] || !IsSpace(r[0])
    decreases |s|
  {
    if s != [] && IsSpace(s[0]) then
      var r := TrimStart(s[1..]);
      assert s[..|s| - |r|] == [s[0]] + s[1..][..|s| - 1 - |r|];
      r
    else s
  }

  /** Drops the trailing white space of `s`. */
  function TrimEnd(s: string): (r: string)
    ensures |r| <= |s| && r == s[..|r|]
    ensures AllSpace(s[|r|..])
    ensures r == [] || !IsSpace(r[|r| - 1])
    decreases |s|
  {
    if s != [] && IsSpace(s[|s| - 1]) then
      var r := TrimEnd(s[..|s| - 1]);
      assert s[|r|..] == s[..|s| - 1][|r|..] + [s[|s| - 1]];
      r
    else s
  }

  /** `r` stands in `s` at position `i`, and everything of `s` before and
      after it is white space. */
  ghost predicate StrippedAt(r: string, s: string, i: int) {
    OccursAt(r, s, i) && AllSpace(s[..i]) && AllSpace(s[i + |r|..])
  }

  /** `s.trim()`: `s` without its leading and trailing white space. The
      result is a piece of `s` with only white space around it, that
      neither starts nor ends with white space, and it is empty exactly
      when `s` is all white space. */
  function Trim(s: string): (r: string)
    ensures exists i :: StrippedAt(r, s, i)
    ensures r == [] || (!IsSpace(r[0]) && !IsSpace(r[|r| - 1]))
    ensures r == [] <==> AllSpace(s)
  {
    var u := TrimStart(s);
    var r := TrimEnd(u);
    var i := |s| - |u|;
    assert s[i..i + |r|] == r;
    assert s[i + |r|..] == u[|r|..];
    assert StrippedAt(r, s, i);
    SpaceAround(s, i, r);
    r
  }

  /** A string that is white space around `r` is all white space exactly
      when `r` is empty, given that a non-empty `r` starts with a
      non-space character. */
  lemma SpaceAround(s: string, i: int, r: string)
    requires StrippedAt(r, s, i)
    requires r == [] || !IsSpace(r[0])
    ensures r == [] <==> AllSpace(s)
  {
    if r == [] {
      assert s == s[..i] + s[i..];
    } else {
      assert s[i] == r[0];
    }
  }

  /** Only one piece of `s` has nothing but white space around it and
      neither starts nor ends with white space, so the contract of `Trim`
      determines its result. */
  lemma StrippedUnique(s: string, r1: string, i1: int, r2: string, i2: int)
    requires StrippedAt(r1, s, i1) && (r1 == [] || (!IsSpace(r1[0]) && !IsSpace(r1[|r1| - 1])))
    requires StrippedAt(r2, s, i2) && (r2 == [] || (!IsSpace(r2[0]) && !IsSpace(r2[|r2| - 1])))
    ensures r1 == r2
  {
    SpaceAround(s, i1, r1);
    SpaceAround(s, i2, r2);
    if r1 != [] && r2 != [] {
      assert s[i1] == r1[0] && s[i2] == r2[0];
      assert i1 == i2;
      var e1, e2 := i1 + |r1|, i2 + |r2|;
      assert s[e1 - 1] == r1[|r1| - 1] && s[e2 - 1] == r2[|r2| - 1];
      assert e1 == e2;
    }
  }
}
