/**
 * Decimal rendering of integers, as `std::to_string(int)` produces it:
 * an optional '-' followed by the digits of the magnitude, with no leading
 * zeros (zero itself is "0"). `ParseInt` is its inverse on those strings.
 */
module Decimal {

  predicate IsDigit(c: char) {
    '0' <= c <= '9'
  }

  predicate AllDigits(s: string) {
    forall i | 0 <= i < |s| :: IsDigit(s[i])
  }

  /** A magnitude as `to_string` writes it: at least one digit, no leading zero. */
  predicate IsCanonicalNat(s: string) {
    |s| >= 1 && AllDigits(s) && (s[0] == '0' ==> |s| == 1)
  }

  /** The strings `to_string` can produce: a canonical magnitude, signed unless zero. */
  predicate IsCanonicalInt(s: string) {
    if |s| >= 1 && s[0] == '-' then IsCanonicalNat(s[1..]) && s[1..] != "0"
    else IsCanonicalNat(s)
  }

  function DigitChar(d: nat): (c: char)
    requires d < 10
    ensures IsDigit(c) && c as int - '0' as int == d
  {
    ('0' as int + d) as char
  }

  function DigitValue(c: char): (d: nat)
    requires IsDigit(c)
    ensures d < 10 && DigitChar(d) == c
  {
    c as int - '0' as int
  }

  /** The decimal digits of `n`, most significant first. */
  function NatToDecimal(n: nat): (r: string)
    ensures IsCanonicalNat(r)
    ensures r[0] == '0' <==> n == 0
  {
    if n < 10 then [DigitChar(n)]
    else NatToDecimal(n / 10) + [DigitChar(n % 10)]
  }

  /** `std::to_string` on an integer. */
  function FromInt(n: int): (r: string)
    ensures IsCanonicalInt(r)
    ensures r[0] == '-' <==> n < 0
  {
    if n < 0 then "-" + NatToDecimal(-n) else NatToDecimal(n)
  }

  /** The value of a string of decimal digits, read most significant first. */
  function ParseNat(s: string): (n: nat)
    requires |s| >= 1 && AllDigits(s)
  {
    if |s| == 1 then DigitValue(s[0])
    else ParseNat(s[..|s| - 1]) * 10 + DigitValue(s[|s| - 1])
  }

  /** The value of a canonical signed decimal string. */
  function ParseInt(s: string): (n: int)
    requires IsCanonicalInt(s)
  {
    if s[0] == '-' then -(ParseNat(s[1..]) as int) else ParseNat(s)
  }

  lemma {:induction false} ParseNatOfNatToDecimal(n: nat)
    ensures ParseNat(NatToDecimal(n)) == n
  {
    if n >= 10 {
      var s := NatToDecimal(n / 10);
      var t := NatToDecimal(n);
      assert t == s + [DigitChar(n % 10)];
      assert t[..|t| - 1] == s;
      ParseNatOfNatToDecimal(n / 10);
    }
  }

  /** Reading back what `to_string` wrote gives the original integer. */
  lemma ParseIntOfFromInt(n: int)
    ensures ParseInt(FromInt(n)) == n
  {
    if n < 0 {
      assert FromInt(n)[1..] == NatToDecimal(-n);
      ParseNatOfNatToDecimal(-n);
    } else {
      ParseNatOfNatToDecimal(n);
    }
  }

  /** Distinct integers have distinct decimal renderings. */
  lemma FromIntInjective(a: int, b: int)
    requires FromInt(a) == FromInt(b)
    ensures a == b
  {
    ParseIntOfFromInt(a);
    ParseIntOfFromInt(b);
  }

  lemma {:induction false} ParseNatZero(s: string)
    requires |s| >= 1 && AllDigits(s)
    ensures ParseNat(s) == 0 <==> forall i | 0 <= i < |s| :: s[i] == '0'
  {
    if |s| > 1 {
      var p := s[..|s| - 1];
      ParseNatZero(p);
      assert forall i | 0 <= i < |p| :: p[i] == s[i];
    }
  }

  lemma {:induction false} NatToDecimalOfParseNat(s: string)
    requires IsCanonicalNat(s)
    ensures NatToDecimal(ParseNat(s)) == s
  {
    if |s| > 1 {
      var p := s[..|s| - 1];
      assert p[0] == s[0] != '0';
      NatToDecimalOfParseNat(p);
      ParseNatZero(p);
      var n := ParseNat(s);
      assert n / 10 == ParseNat(p) && n % 10 == DigitValue(s[|s| - 1]);
      assert s == p + [s[|s| - 1]];
    }
  }

  /** Every canonical decimal string is what `to_string` writes for its value. */
  lemma FromIntOfParseInt(s: string)
    requires IsCanonicalInt(s)
    ensures FromInt(ParseInt(s)) == s
  {
    if s[0] == '-' {
      var m := s[1..];
      NatToDecimalOfParseNat(m);
      ParseNatZero(m);
      assert s == "-" + m;
    } else {
      NatToDecimalOfParseNat(s);
    }
  }
}
