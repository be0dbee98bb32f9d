/** Numbers written out in decimal, with and without leading zeros. */
module Decimals {
  predicate IsDigit(c: char) {
    '0' <= c <= '9'
  }

  function Decimal(n: nat): (s: string)
    ensures s != [] && forall c | c in s :: IsDigit(c)
  {
    if n < 10 then [('0' as int + n) as char] else Decimal(n / 10) + [('0' as int + n % 10) as char]
  }

  /** The number a text of digits stands for. */
  function Value(s: string): int
    requires forall c | c in s :: IsDigit(c)
  {
    if s == [] then 0
    else
      assert IsDigit(s[|s| - 1]) by { assert s[|s| - 1] in s; }
      10 * Value(s[..|s| - 1]) + (s[|s| - 1] as int - '0' as int)
  }

  function Zeros(n: nat): (s: string)
    ensures |s| == n && forall c | c in s :: c == '0'
  {
    seq(n, _ => '0')
  }

  /** At least `width` digits, as Python's `0` flag pads them. */
  function Padded(n: nat, width: nat): (s: string)
    ensures |s| >= width && forall c | c in s :: IsDigit(c)
  {
    var d := Decimal(n);
    if |d| < width then Zeros(width - |d|) + d else d
  }

  lemma {:induction false} ValueOfDecimal(n: nat)
    ensures Value(Decimal(n)) == n
  {
    if n >= 10 {
      ValueOfDecimal(n / 10);
      assert Decimal(n)[..|Decimal(n)| - 1] == Decimal(n / 10);
    }
  }

  lemma {:induction false} ValueOfZeros(z: nat, d: string)
    requires forall c | c in d :: IsDigit(c)
    ensures forall c | c in Zeros(z) + d :: IsDigit(c)
    ensures Value(Zeros(z) + d) == Value(d)
    decreases |d|, z
  {
    var s := Zeros(z) + d;
    assert forall c | c in s :: c in Zeros(z) || c in d;
    if d == [] {
      if z > 0 {
        ValueOfZeros(z - 1, d);
        assert s[..|s| - 1] == Zeros(z - 1) + d;
      }
    } else {
      ValueOfZeros(z, d[..|d| - 1]);
      assert s[..|s| - 1] == Zeros(z) + d[..|d| - 1];
    }
  }

  /** Different numbers are written differently, padded or not. */
  lemma PaddedDiffers(m: nat, n: nat, width: nat)
    requires Padded(m, width) == Padded(n, width)
    ensures m == n
  {
    PaddedValue(m, width);
    PaddedValue(n, width);
  }

  lemma PaddedValue(n: nat, width: nat)
    ensures Value(Padded(n, width)) == n
  {
    ValueOfDecimal(n);
    var d := Decimal(n);
    if |d| < width {
      ValueOfZeros(width - |d|, d);
    }
  }

  lemma {:induction false} DecimalLength(n: nat, digits: nat)
    requires digits > 0 && n < Power(digits)
    ensures |Decimal(n)| <= digits
  {
    if n >= 10 {
      DecimalLength(n / 10, digits - 1);
    }
  }

  function Power(digits: nat): nat {
    if digits == 0 then 1 else 10 * Power(digits - 1)
  }
}
