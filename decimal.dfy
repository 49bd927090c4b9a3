/**
 * Decimal digit strings as the node-port-range check reads and writes them:
 * `strconv.ParseUint(s, 10, 16)` on a string of ASCII digits, and
 * `fmt.Sprintf("%d", n)` on an unsigned value.
 */
module Decimal {

  predicate IsDigit(c: char) {
    '0' <= c <= '9'
  }

  predicate AllDigits(s: string) {
    forall i :: 0 <= i < |s| ==> IsDigit(s[i])
  }

  /** A decimal numeral as `%d` prints it: non-empty, digits only, no leading zero. */
  predicate IsCanonical(s: string) {
    |s| > 0 && AllDigits(s) && (|s| > 1 ==> s[0] != '0')
  }

  function DigitChar(d: nat): (c: char)
    requires d < 10
    ensures IsDigit(c)
  {
    ('0' as int + d) as char
  }

  /** The value of a string of decimal digits, most significant first; a leading zero does not change it. */
  function Value(s: string): (n: nat)
    requires AllDigits(s)
    ensures |s| > 0 && s[0] == '0' ==> n == Value(s[1..])
  {
    if |s| == 0 then 0
    else
      var p := s[..|s| - 1];
      var n := Value(p) * 10 + (s[|s| - 1] as int - '0' as int);
      assert |s| > 1 ==> s[1..][..|s| - 2] == p[1..] && s[1..][|s| - 2] == s[|s| - 1];
      n
  }

  /** `%d` of a natural number. */
  function Format(n: nat): (s: string)
    ensures IsCanonical(s)
    ensures Value(s) == n
  {
    if n < 10 then [DigitChar(n)]
    else
      var p := Format(n / 10);
      var s := p + [DigitChar(n % 10)];
      assert s[..|s| - 1] == p;
      s
  }

  /** A canonical numeral of two or more digits is at least ten; a single digit is below ten. */
  lemma {:induction false} ValueAtLeastLead(s: string)
    requires IsCanonical(s)
    ensures |s| > 1 ==> Value(s) >= 10
    ensures |s| == 1 ==> Value(s) < 10
  {
    if |s| > 1 {
      var p := s[..|s| - 1];
      assert p[0] == s[0];
      assert IsCanonical(p);
      ValueAtLeastLead(p);
      if |p| == 1 {
        assert Value(p) == s[0] as int - '0' as int;
      }
    }
  }

  /** Every canonical numeral is the `%d` of its value: formatting is onto the canonical numerals. */
  lemma {:induction false} FormatValue(s: string)
    requires IsCanonical(s)
    ensures Format(Value(s)) == s
  {
    ValueAtLeastLead(s);
    if |s| > 1 {
      var p := s[..|s| - 1];
      assert p[0] == s[0];
      FormatValue(p);
      var n := Value(s);
      assert n / 10 == Value(p);
      assert n % 10 == s[|s| - 1] as int - '0' as int;
      assert s == p + [s[|s| - 1]];
    }
  }
}
