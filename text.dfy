/** String operations the desktop and the backend both rely on: whitespace trimming
    (`String.prototype.trim`, `str.strip`), removal of trailing slashes
    (`replace(/\/+$/, "")`, `str.rstrip("/")`), prefix tests, and decimal rendering
    of integers (`String(n)`, f-strings). */
module Text {

  /** The whitespace characters that trimming removes (ASCII space and controls
      TAB, LF, VT, FF, CR, plus NO-BREAK SPACE). */
  predicate IsSpace(c: char) {
    c == ' ' || c == '\t' || c == '\n' || c == '\r' || c == '\U{000B}' || c == '\U{000C}' || c == '\U{00A0}'
  }

  predicate AllSpace(s: string) {
    forall k :: 0 <= k < |s| ==> IsSpace(s[k])
  }

  function TrimStart(s: string): (r: string)
    ensures |r| <= |s| && r == s[|s| - |r|..]
    ensures AllSpace(s[..|s| - |r|])
    ensures r == [] || !IsSpace(r[0])
  {
    if s != [] && IsSpace(s[0]) then
      var t := TrimStart(s[1..]);
      assert s[..|s| - |t|] == [s[0]] + s[1..][..|s| - 1 - |t|];
      t
    else s
  }

  function TrimEnd(s: string): (r: string)
    ensures |r| <= |s| && r == s[..|r|]
    ensures AllSpace(s[|r|..])
    ensures r == [] || !IsSpace(r[|r| - 1])
  {
    if s != [] && IsSpace(s[|s| - 1]) then
      var t := TrimEnd(s[..|s| - 1]);
      assert s[|t|..] == s[..|s| - 1][|t|..] + [s[|s| - 1]];
      t
    else s
  }

  /** Whitespace removed at both ends: the result neither starts nor ends with
      whitespace, and it is empty exactly when the input is all whitespace. */
  function Trim(s: string): (r: string)
    ensures |r| <= |s|
    ensures r == [] || (!IsSpace(r[0]) && !IsSpace(r[|r| - 1]))
    ensures r == [] <==> AllSpace(s)
  {
    var a := TrimStart(s);
    var r := TrimEnd(a);
    assert r == [] || r[0] == a[0];
    EmptyTrim(s, a, r);
    r
  }

  lemma EmptyTrim(s: string, a: string, r: string)
    requires a == TrimStart(s) && r == TrimEnd(a)
    ensures r == [] <==> AllSpace(s)
  {
    var i := |s| - |a|;
    assert a == s[i..];
    if r == [] {
      assert AllSpace(a);
      forall k | 0 <= k < |s| ensures IsSpace(s[k]) {
        if k < i {
          assert s[..i][k] == s[k];
        } else {
          assert a[k - i] == s[k];
        }
      }
    } else if a != [] {
      assert a[0] == s[i];
    }
  }

  /** Trimming a string that neither starts nor ends with whitespace leaves it
      as it is, so trimming twice is trimming once. */
  lemma TrimNoop(s: string)
    requires s == [] || (!IsSpace(s[0]) && !IsSpace(s[|s| - 1]))
    ensures Trim(s) == s
  {
    assert TrimStart(s) == s;
    assert TrimEnd(s) == s;
  }

  /** All trailing occurrences of `c` removed. */
  function StripTrailing(s: string, c: char): (r: string)
    ensures |r| <= |s| && r == s[..|r|]
    ensures forall k :: |r| <= k < |s| ==> s[k] == c
    ensures r == [] || r[|r| - 1] != c
  {
    if s != [] && s[|s| - 1] == c then StripTrailing(s[..|s| - 1], c) else s
  }

  /** `replace(/\/+$/, "")` and `rstrip("/")`. */
  function StripTrailingSlashes(s: string): (r: string)
    ensures |r| <= |s| && r == s[..|r|]
    ensures forall k :: |r| <= k < |s| ==> s[k] == '/'
    ensures r == [] || r[|r| - 1] != '/'
  {
    StripTrailing(s, '/')
  }

  /** The slashes removed are exactly the run of them at the end: a prefix
      that does not end in '/', followed only by slashes, is what remains. */
  lemma {:induction false} StripSlashesTo(s: string, n: nat)
    requires n <= |s| && (n == 0 || s[n - 1] != '/')
    requires forall k :: n <= k < |s| ==> s[k] == '/'
    ensures StripTrailingSlashes(s) == s[..n]
    decreases |s|
  {
    if n < |s| {
      var t := s[..|s| - 1];
      assert t[..n] == s[..n];
      StripSlashesTo(t, n);
    } else {
      assert s[..n] == s;
    }
  }

  predicate StartsWith(s: string, p: string) {
    |p| <= |s| && s[..|p|] == p
  }

  predicate EndsWith(s: string, p: string) {
    |p| <= |s| && s[|s| - |p|..] == p
  }

  function LowerAscii(c: char): char {
    if 'A' <= c <= 'Z' then (c as int + 32) as char else c
  }

  /** Prefix test with ASCII case folding, the `i` flag of a regular expression
      whose pattern is ASCII. */
  predicate StartsWithIgnoreCase(s: string, p: string) {
    |p| <= |s| && forall k :: 0 <= k < |p| ==> LowerAscii(s[k]) == LowerAscii(p[k])
  }

  predicate IsDigit(c: char) {
    '0' <= c <= '9'
  }

  function DigitChar(d: int): (c: char)
    requires 0 <= d < 10
    ensures IsDigit(c)
  {
    (48 + d) as char
  }

  /** Decimal rendering of a natural number, most significant digit first. */
  function NatToString(n: nat): (r: string)
    ensures |r| >= 1
    ensures forall k :: 0 <= k < |r| ==> IsDigit(r[k])
    decreases n
  {
    if n < 10 then [DigitChar(n)] else NatToString(n / 10) + [DigitChar(n % 10)]
  }

  /** Decimal rendering of an integer, with a leading '-' when negative. */
  function IntToString(i: int): (r: string)
    ensures |r| >= 1
    ensures (r[0] == '-') <==> i < 0
  {
    if i < 0 then "-" + NatToString(-i) else NatToString(i)
  }
}
