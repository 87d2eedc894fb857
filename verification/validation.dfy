/**
  The ZIP code check of the weather screen: the regular expression
  `/^\d{5}$/` tested against the whole input. Without the `u` flag `\d`
  is the class of the ten ASCII digits, and the anchors with no `m` flag
  make the five digits the entire string.
 */
module Validation {

  /** The character class `\d`. */
  predicate IsAsciiDigit(c: char) {
    '0' <= c <= '9'
  }

  /** Whether `s` is matched exactly by `\d{n}$`: the regular expression
      engine consumes one digit per repetition and then demands the end of
      the input. */
  predicate MatchesDigits(s: string, n: nat) {
    if n == 0 then s == []
    else |s| > 0 && IsAsciiDigit(s[0]) && MatchesDigits(s[1..], n - 1)
  }

  /** `validateZipCode`: `/^\d{5}$/.test(zip)`, which holds exactly for
      the five-character strings of ASCII digits. */
  function ValidateZipCode(zip: string): (valid: bool)
    ensures valid <==> |zip| == 5 && forall i :: 0 <= i < |zip| ==> IsAsciiDigit(zip[i])
  {
    MatchesDigitsIff(zip, 5);
    MatchesDigits(zip, 5)
  }

  /** The digit-run matcher accepts exactly the strings of length `n` made
      of ASCII digits. */
  lemma {:induction false} MatchesDigitsIff(s: string, n: nat)
    ensures MatchesDigits(s, n) <==> |s| == n && forall i :: 0 <= i < |s| ==> IsAsciiDigit(s[i])
  {
    if n > 0 && |s| > 0 {
      MatchesDigitsIff(s[1..], n - 1);
      assert forall i :: 0 < i < |s| ==> s[i] == s[1..][i - 1];
    }
  }

  /** Inputs the check turns away: four or six digits, ZIP+4, surrounding
      whitespace, a sign, and the empty string; and two it accepts. */
  lemma ZipExamples()
    ensures ValidateZipCode("10001") && ValidateZipCode("00000")
    ensures !ValidateZipCode("") && !ValidateZipCode("1000") && !ValidateZipCode("100011")
    ensures !ValidateZipCode("10001-1234") && !ValidateZipCode(" 10001") && !ValidateZipCode("10001 ")
    ensures !ValidateZipCode("+1000") && !ValidateZipCode("-1000") && !ValidateZipCode("1O001")
  {
  }
}
