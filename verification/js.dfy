/**
  The few pieces of JavaScript runtime behaviour that the weather screen
  relies on, stated exactly: optional values (`undefined`/`null`), string
  truthiness and the `||` fallback, `String.prototype.trim`, `Math.round`
  and the `%` operator whose sign follows the dividend.
 */
module Js {

  /** A value that may be `undefined` or `null` in the program. */
  datatype Option<+T> = None | Some(value: T)

  /** JavaScript truthiness of an optional string: missing and "" are falsy. */
  predicate TruthyString(s: Option<string>) {
    s.Some? && s.value != ""
  }

  /** JavaScript truthiness of an optional number: missing and 0 are falsy.
      NaN is not representable here. */
  predicate TruthyNumber(x: Option<real>) {
    x.Some? && x.value != 0.0
  }

  /** `s || fallback` where `s` is an optional string. */
  function OrElse(s: Option<string>, fallback: string): (r: string)
    ensures TruthyString(s) ==> r == s.value
    ensures !TruthyString(s) ==> r == fallback
    ensures r == "" ==> fallback == ""
  {
    if TruthyString(s) then s.value else fallback
  }

  /** The characters `String.prototype.trim` removes: the WhiteSpace and
      LineTerminator code points of ECMA-262. */
  predicate IsWhitespace(c: char) {
    || c == '\t' || c == '\n' || c == '\U{000B}' || c == '\U{000C}' || c == '\r'
    || c == ' ' || c == '\U{00A0}' || c == '\U{1680}'
    || ('\U{2000}' <= c <= '\U{200A}')
    || c == '\U{2028}' || c == '\U{2029}' || c == '\U{202F}' || c == '\U{205F}'
    || c == '\U{3000}' || c == '\U{FEFF}'
  }

  /** Every character of `s` is whitespace. */
  predicate AllWhitespace(s: string) {
    forall i :: 0 <= i < |s| ==> IsWhitespace(s[i])
  }

  /** `s` with its leading whitespace removed: the one suffix of `s` whose
      dropped prefix is all whitespace and which does not start with
      whitespace. */
  function TrimStart(s: string): (r: string)
    ensures |r| <= |s| && r == s[|s| - |r|..]
    ensures AllWhitespace(s[..|s| - |r|])
    ensures |r| > 0 ==> !IsWhitespace(r[0])
  {
    if |s| > 0 && IsWhitespace(s[0]) then TrimStart(s[1..]) else s
  }

  /** `s` with its trailing whitespace removed. */
  function TrimEnd(s: string): (r: string)
    ensures |r| <= |s| && r == s[..|r|]
    ensures AllWhitespace(s[|r|..])
    ensures |r| > 0 ==> !IsWhitespace(r[|r| - 1])
  {
    if |s| > 0 && IsWhitespace(s[|s| - 1]) then TrimEnd(s[..|s| - 1]) else s
  }

  /** `String.prototype.trim`. */
  function Trim(s: string): string {
    TrimEnd(TrimStart(s))
  }

  /** `!s.trim()`: the trimmed string is empty, hence falsy. */
  predicate IsBlank(s: string) {
    Trim(s) == ""
  }

  /** A string is blank exactly when every one of its characters is
      whitespace; in particular the empty string is blank. */
  lemma BlankIffAllWhitespace(s: string)
    ensures IsBlank(s) <==> AllWhitespace(s)
  {
    var t := TrimStart(s);
    if !AllWhitespace(s) && |t| > 0 {
      assert t[0..] == t;
    }
  }

  /** A string holding a non-whitespace character is not blank. */
  lemma NotBlank(s: string, i: nat)
    requires i < |s| && !IsWhitespace(s[i])
    ensures !IsBlank(s)
  {
    BlankIffAllWhitespace(s);
  }

  /** Trimming removes only whitespace, and only at the ends: the result is
      a contiguous piece of `s`, everything dropped before and after it is
      whitespace, and it neither starts nor ends with whitespace. */
  lemma TrimIsCore(s: string)
    ensures exists i, j :: 0 <= i <= j <= |s| && Trim(s) == s[i..j] && AllWhitespace(s[..i]) && AllWhitespace(s[j..])
    ensures |Trim(s)| > 0 ==> !IsWhitespace(Trim(s)[0]) && !IsWhitespace(Trim(s)[|Trim(s)| - 1])
  {
    var t := TrimStart(s);
    var r := TrimEnd(t);
    var i := |s| - |t|;
    assert r == t[..|r|] == s[i..i + |r|];
    assert t[|r|..] == s[i + |r|..];
    if |r| > 0 {
      assert r[0] == t[0];
    }
  }

  /** `Math.round`: the nearest integer, halves rounding up (towards
      positive infinity), so that `k - 1/2 <= x < k + 1/2`. */
  function Round(x: real): (k: int)
    ensures k as real - 0.5 <= x < k as real + 0.5
  {
    (x + 0.5).Floor
  }

  /** Only one integer lies within half a unit of `x` in the sense of
      `Round`, so `Round` is determined by its contract. */
  lemma RoundUnique(x: real, k: int)
    requires k as real - 0.5 <= x < k as real + 0.5
    ensures Round(x) == k
  {
    var r := Round(x);
    assert r as real - 0.5 <= x < r as real + 0.5;
    assert (k - r) as real < 1.0 && (r - k) as real < 1.0;
  }

  /** JavaScript `a % m` on integers for a positive modulus: the remainder
      takes the sign of the dividend (truncating division). */
  function Rem(a: int, m: int): (r: int)
    requires m > 0
    ensures a >= 0 ==> 0 <= r < m
    ensures a < 0 ==> -m < r <= 0
    ensures exists q :: a - r == q * m
  {
    if a >= 0 then
      var r := a % m;
      assert a - r == (a / m) * m;
      r
    else
      var r := -((-a) % m);
      assert a - r == -((-a) / m) * m;
      r
  }
}
