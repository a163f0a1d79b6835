/** Lower-case hexadecimal numerals without a prefix, as produced by
    Python's `hex(n)[2:]` for a non-negative `n`. */
module Hex {

  /** The digit for a value below 16: '0'..'9', then 'a'..'f'. */
  function DigitChar(v: nat): char
    requires v < 16
  {
    if v < 10 then ('0' as int + v) as char else ('a' as int + v - 10) as char
  }

  predicate IsDigit(c: char) {
    ('0' <= c <= '9') || ('a' <= c <= 'f')
  }

  /** Every character is a lower-case hexadecimal digit. */
  predicate IsNumeral(s: string) {
    forall i :: 0 <= i < |s| ==> IsDigit(s[i])
  }

  /** A numeral as `hex` prints it: non-empty, and no leading zero unless it is "0". */
  predicate IsCanonical(s: string) {
    |s| > 0 && IsNumeral(s) && (s[0] != '0' || s == "0")
  }

  function DigitValue(c: char): (v: nat)
    requires IsDigit(c)
    ensures v < 16 && DigitChar(v) == c
  {
    if c <= '9' then c as int - '0' as int else c as int - 'a' as int + 10
  }

  /** The numeral of `n`, most significant digit first. */
  function ToHex(n: nat): (s: string)
    ensures IsCanonical(s)
    ensures n == 0 <==> s == "0"
    decreases n
  {
    if n < 16 then [DigitChar(n)] else ToHex(n / 16) + [DigitChar(n % 16)]
  }

  /** The value of a numeral; the empty numeral is worth 0. */
  function FromHex(s: string): nat
    requires IsNumeral(s)
  {
    if |s| == 0 then 0 else FromHex(s[..|s| - 1]) * 16 + DigitValue(s[|s| - 1])
  }

  /** Reading back a printed number gives the number. */
  lemma {:induction false} FromToHex(n: nat)
    ensures FromHex(ToHex(n)) == n
    decreases n
  {
    if n >= 16 {
      var p := ToHex(n / 16);
      var s := p + [DigitChar(n % 16)];
      assert s[..|s| - 1] == p;
      FromToHex(n / 16);
    }
  }

  /** Two numbers print the same only if they are equal. */
  lemma ToHexInjective(a: nat, b: nat)
    ensures ToHex(a) == ToHex(b) ==> a == b
  {
    FromToHex(a);
    FromToHex(b);
  }

  /** A numeral with a non-zero leading digit is worth at least 1. */
  lemma {:induction false} LeadingDigitPositive(s: string)
    requires |s| > 0 && IsNumeral(s) && s[0] != '0'
    ensures FromHex(s) > 0
    decreases |s|
  {
    if |s| > 1 {
      var p := s[..|s| - 1];
      assert p[0] == s[0];
      LeadingDigitPositive(p);
    }
  }

  /** Printing the value of a canonical numeral gives the numeral back, so
      `ToHex` is a bijection between naturals and canonical numerals. */
  lemma {:induction false} ToFromHex(s: string)
    requires IsCanonical(s)
    ensures ToHex(FromHex(s)) == s
    decreases |s|
  {
    if |s| > 1 {
      var p := s[..|s| - 1];
      assert p[0] == s[0];
      assert s[0] != '0';
      LeadingDigitPositive(p);
      ToFromHex(p);
      var n := FromHex(s);
      var d := DigitValue(s[|s| - 1]);
      assert n == FromHex(p) * 16 + d;
      assert n / 16 == FromHex(p) && n % 16 == d;
      assert s == p + [s[|s| - 1]];
    }
  }
}
