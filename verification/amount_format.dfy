/**
 * `(amount / 100).toFixed(2)`: a price in kopecks written as roubles with
 * exactly two decimals, computed with integer division and remainder.
 */
module AmountFormat {
  import opened Wrappers

  predicate IsDigit(c: char) {
    '0' <= c <= '9'
  }

  predicate AllDigits(s: string) {
    forall k :: 0 <= k < |s| ==> IsDigit(s[k])
  }

  function DigitChar(d: nat): (c: char)
    requires d < 10
    ensures IsDigit(c)
  {
    "0123456789"[d]
  }

  function DigitValue(c: char): (d: nat)
    requires IsDigit(c)
    ensures d < 10
  {
    (c as int - '0' as int) as nat
  }

  lemma DigitValueOfDigitChar(d: nat)
    requires d < 10
    ensures DigitValue(DigitChar(d)) == d
  {
  }

  /** The decimal numeral of `n`, without leading zeros. */
  function Decimal(n: nat): (s: string)
    ensures |s| >= 1 && AllDigits(s)
    ensures |s| > 1 ==> s[0] != '0'
  {
    if n < 10 then [DigitChar(n)]
    else Decimal(n / 10) + [DigitChar(n % 10)]
  }

  /** The value of a string of decimal digits. */
  function ParseDecimal(s: string): (n: nat)
    requires AllDigits(s)
  {
    if |s| == 0 then 0
    else ParseDecimal(s[..|s| - 1]) * 10 + DigitValue(s[|s| - 1])
  }

  lemma {:induction false} ParseDecimalOfDecimal(n: nat)
    ensures ParseDecimal(Decimal(n)) == n
  {
    DigitValueOfDigitChar(n % 10);
    if n >= 10 {
      var s := Decimal(n);
      assert s[..|s| - 1] == Decimal(n / 10);
      ParseDecimalOfDecimal(n / 10);
    }
  }

  /** The amount string sent to the payment provider. */
  function FormatAmount(minor: nat): (r: string)
    ensures |r| >= 4 && r[|r| - 3] == '.'
    ensures AllDigits(r[..|r| - 3]) && AllDigits(r[|r| - 2..])
    ensures |r| > 4 ==> r[0] != '0'
  {
    var cents := minor % 100;
    var r := Decimal(minor / 100) + "." + [DigitChar(cents / 10), DigitChar(cents % 10)];
    assert r[..|r| - 3] == Decimal(minor / 100);
    r
  }

  /** Reads back a string of the form `<digits>.<digit><digit>` as kopecks. */
  function ParseAmount(s: string): (r: Option<nat>) {
    if |s| < 4 || s[|s| - 3] != '.' || !AllDigits(s[..|s| - 3]) || !AllDigits(s[|s| - 2..]) then None
    else Some(ParseDecimal(s[..|s| - 3]) * 100 + ParseDecimal(s[|s| - 2..]))
  }

  /** Formatting loses nothing: the string reads back as the same amount. */
  lemma {:induction false} AmountRoundTrip(minor: nat)
    ensures ParseAmount(FormatAmount(minor)) == Some(minor)
  {
    var r := FormatAmount(minor);
    var cents := minor % 100;
    assert r[..|r| - 3] == Decimal(minor / 100);
    ParseDecimalOfDecimal(minor / 100);
    var frac := r[|r| - 2..];
    assert frac == [DigitChar(cents / 10), DigitChar(cents % 10)];
    assert frac[..1] == [DigitChar(cents / 10)];
    DigitValueOfDigitChar(cents / 10);
    DigitValueOfDigitChar(cents % 10);
    assert ParseDecimal(frac[..1][..0]) == 0;
    assert ParseDecimal(frac) == cents;
  }

  /** Two amounts are formatted alike only if they are equal. */
  lemma FormatAmountInjective(a: nat, b: nat)
    requires FormatAmount(a) == FormatAmount(b)
    ensures a == b
  {
    AmountRoundTrip(a);
    AmountRoundTrip(b);
  }
}
