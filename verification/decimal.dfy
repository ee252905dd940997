/** Rendering of a Java `long` as decimal text, which is how
    `StringBuilder.append` writes the elapsed time into the log line. */
module Decimal {

  /** The values of a Java `long`. */
  type Long = x: int | -0x8000_0000_0000_0000 <= x < 0x8000_0000_0000_0000

  predicate IsDigit(c: char)
  {
    '0' <= c <= '9'
  }

  predicate AllDigits(s: string)
  {
    forall i :: 0 <= i < |s| ==> IsDigit(s[i])
  }

  function DigitChar(d: int): (c: char)
    requires 0 <= d < 10
    ensures IsDigit(c)
    ensures c as int - '0' as int == d
  {
    ('0' as int + d) as char
  }

  /** The decimal digits of `n`, most significant first. */
  function Digits(n: nat): (s: string)
    ensures 1 <= |s|
    ensures AllDigits(s)
    ensures n < 10 ==> |s| == 1
    ensures s[0] == '0' ==> n == 0
    decreases n
  {
    if n < 10 then [DigitChar(n)] else Digits(n / 10) + [DigitChar(n % 10)]
  }

  /** `Long.toString`: a minus sign for negative values, then the digits of
      the magnitude. */
  function LongToString(n: Long): (s: string)
    ensures 1 <= |s|
    ensures s[0] == '-' <==> n < 0
  {
    if n < 0 then "-" + Digits(-(n as int)) else Digits(n as int)
  }

  /** The number a string of digits denotes. */
  function DigitsValue(s: string): nat
    requires AllDigits(s)
  {
    if |s| == 0 then 0 else DigitsValue(s[..|s| - 1]) * 10 + (s[|s| - 1] as int - '0' as int)
  }

  /** Decimal text in the shape Long.toString produces: an optional minus
      sign, then at least one digit with no leading zero. */
  predicate Canonical(s: string)
  {
    var ds := if 0 < |s| && s[0] == '-' then s[1..] else s;
    1 <= |ds| && AllDigits(ds) && (|ds| > 1 ==> ds[0] != '0')
  }

  /** The number canonical decimal text denotes. */
  function DecimalValue(s: string): int
    requires Canonical(s)
  {
    if s[0] == '-' then -(DigitsValue(s[1..]) as int) else DigitsValue(s)
  }

  lemma {:induction false} DigitsDenote(n: nat)
    ensures DigitsValue(Digits(n)) == n
    decreases n
  {
    if n >= 10 {
      var s := Digits(n);
      assert s[..|s| - 1] == Digits(n / 10);
      DigitsDenote(n / 10);
    }
  }

  /** The rendered time reads back as the same number. */
  lemma LongToStringDenotes(n: Long)
    ensures Canonical(LongToString(n))
    ensures DecimalValue(LongToString(n)) == n
  {
    var m: int := n;
    var s := LongToString(n);
    if m < 0 {
      assert s == "-" + Digits(-m);
      assert s[1..] == Digits(-m);
      DigitsDenote(-m);
    } else {
      assert s == Digits(m);
      DigitsDenote(m);
    }
  }
}
