/** util.Str2float64: a numeric parse that yields -1 for text that is not a number. */
module Util {
  import opened Text

  /** The value of a digit string as a natural number. */
  function DigitsValue(s: string): (n: nat)
    requires forall k :: 0 <= k < |s| ==> IsDigit(s[k])
  {
    if |s| == 0 then 0
    else
      assert IsDigit(s[|s| - 1]);
      10 * DigitsValue(s[..|s| - 1]) + (s[|s| - 1] as int - '0' as int)
  }

  function Pow10(n: nat): (p: nat)
    ensures p >= 1
  {
    if n == 0 then 1 else 10 * Pow10(n - 1)
  }

  predicate AllDigits(s: string) { forall k :: 0 <= k < |s| ==> IsDigit(s[k]) }

  /** A decimal literal: digits, optionally a '.' and more digits, with at least one digit. */
  predicate IsDecimal(s: string) {
    var n := DigitRun(s);
    (n == |s| && n > 0) || (n < |s| && s[n] == '.' && AllDigits(s[n + 1..]) && (n > 0 || |s| > n + 1))
  }

  /** The value of an unsigned decimal literal. */
  function DecimalValue(s: string): (v: real)
    requires IsDecimal(s)
    ensures v >= 0.0
  {
    var n := DigitRun(s);
    if n == |s| then DigitsValue(s) as real
    else DigitsValue(s[..n]) as real + DigitsValue(s[n + 1..]) as real / Pow10(|s| - n - 1) as real
  }

  /** Str2float64: an optionally signed decimal literal gives its value; anything else, the
      error of strconv.ParseFloat, gives -1. */
  function Str2Float(s: string): (v: real)
    ensures |s| == 0 ==> v == -1.0
    ensures AllDigits(s) && |s| > 0 ==> v == DigitsValue(s) as real
  {
    if |s| > 0 && s[0] == '-' && IsDecimal(s[1..]) then -DecimalValue(s[1..])
    else if |s| > 0 && s[0] == '+' && IsDecimal(s[1..]) then DecimalValue(s[1..])
    else if IsDecimal(s) then DecimalValue(s)
    else -1.0
  }

  /** A text without any digit, such as a BGP state name, parses to the sentinel -1. */
  lemma NoDigitsIsSentinel(s: string)
    requires forall k :: 0 <= k < |s| ==> !IsDigit(s[k])
    ensures Str2Float(s) == -1.0
  {
    if |s| > 0 {
      assert DigitRun(s) == 0;
      if |s| > 1 {
        assert DigitRun(s[1..]) == 0;
      }
    }
  }
}
