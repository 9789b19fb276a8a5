/**
 * Decimal text of integers, as produced by Go's `fmt.Sprintf("%d", n)`:
 * an optional '-' followed by the digits of |n| without leading zeros.
 * ParseInt is the inverse used to state what the text means.
 */
module Decimal {

  function DigitChar(d: nat): (c: char)
    requires d < 10
    ensures '0' <= c <= '9'
  {
    ('0' as int + d) as char
  }

  function DigitValue(c: char): (d: nat)
    requires '0' <= c <= '9'
    ensures d < 10 && DigitChar(d) == c
  {
    (c as int - '0' as int) as nat
  }

  predicate IsDigits(s: string)
  {
    forall i :: 0 <= i < |s| ==> '0' <= s[i] <= '9'
  }

  /** The digits of a natural number, most significant first. */
  function FormatNat(n: nat): string
    decreases n
  {
    if n < 10 then [DigitChar(n)] else FormatNat(n / 10) + [DigitChar(n % 10)]
  }

  /** The text of a natural number is a non-empty run of digits without a leading zero. */
  lemma {:induction false} FormatNatDigits(n: nat)
    ensures |FormatNat(n)| > 0 && IsDigits(FormatNat(n))
    ensures |FormatNat(n)| > 1 ==> FormatNat(n)[0] != '0'
    decreases n
  {
    if n >= 10 {
      FormatNatDigits(n / 10);
      assert FormatNat(n)[0] == FormatNat(n / 10)[0];
    }
  }

  lemma DigitsExclude(s: string, c: char)
    requires IsDigits(s) && !('0' <= c <= '9')
    ensures c !in s
  {
  }

  /** An optional '-' followed by digits. */
  predicate IsDecimal(s: string)
  {
    IsDigits(s) || (|s| > 0 && s[0] == '-' && IsDigits(s[1..]))
  }

  /** `fmt.Sprintf("%d", n)`. */
  function FormatInt(n: int): string
  {
    if n < 0 then "-" + FormatNat(-n) else FormatNat(n)
  }

  /** The text of an integer is decimal: digits, after a '-' exactly when it is negative. */
  lemma FormatIntDecimal(n: int)
    ensures |FormatInt(n)| > 0 && IsDecimal(FormatInt(n))
    ensures n >= 0 ==> IsDigits(FormatInt(n))
    ensures n < 0 ==> FormatInt(n)[0] == '-' && IsDigits(FormatInt(n)[1..])
  {
    if n < 0 {
      FormatNatDigits(-n);
      assert FormatInt(n)[1..] == FormatNat(-n);
    } else {
      FormatNatDigits(n);
    }
  }

  function ParseNat(s: string): (n: nat)
    requires IsDigits(s)
    decreases |s|
  {
    if s == [] then 0 else ParseNat(s[..|s| - 1]) * 10 + DigitValue(s[|s| - 1])
  }

  /** Reads back an optional '-' and a run of digits. */
  function ParseInt(s: string): (n: int)
    requires IsDecimal(s)
  {
    if |s| > 0 && s[0] == '-' then -(ParseNat(s[1..]) as int) else ParseNat(s)
  }

  lemma {:induction false} ParseFormatNat(n: nat)
    ensures IsDigits(FormatNat(n)) && ParseNat(FormatNat(n)) == n
    decreases n
  {
    FormatNatDigits(n);
    if n >= 10 {
      var q, r := n / 10, n % 10;
      FormatNatDigits(q);
      ParseFormatNat(q);
      var s := FormatNat(n);
      assert s == FormatNat(q) + [DigitChar(r)];
      assert s[..|s| - 1] == FormatNat(q);
      assert ParseNat(s) == q * 10 + r;
    }
  }

  lemma ParseNegative(t: string)
    requires IsDigits(t)
    ensures IsDecimal("-" + t) && ParseInt("-" + t) == -(ParseNat(t) as int)
  {
    assert ("-" + t)[1..] == t;
  }

  lemma ParseNonNegative(t: string)
    requires IsDigits(t) && |t| > 0
    ensures IsDecimal(t) && ParseInt(t) == ParseNat(t)
  {
  }

  /** The decimal text determines the integer: `%d` loses nothing. */
  lemma ParseFormatInt(n: int)
    ensures IsDecimal(FormatInt(n)) && ParseInt(FormatInt(n)) == n
  {
    FormatIntDecimal(n);
    if n < 0 {
      FormatNatDigits(-n);
      ParseFormatNat(-n);
      ParseNegative(FormatNat(-n));
    } else {
      FormatNatDigits(n);
      ParseFormatNat(n);
      ParseNonNegative(FormatNat(n));
    }
  }

  lemma FormatIntInjective(a: int, b: int)
    ensures FormatInt(a) == FormatInt(b) <==> a == b
  {
    ParseFormatInt(a);
    ParseFormatInt(b);
  }
}
