/** Bytes, fixed-width integers in both byte orders, and exclusive-or and
    bitwise and on integers of any size, as Python's `^` and `&` compute them. */
module Bits {
  type byte = x: int | 0 <= x < 256

  type bytes = seq<byte>

  const U32: nat := 0x1_0000_0000

  function Xor(a: nat, b: nat): nat {
    if a == 0 && b == 0 then 0
    else 2 * Xor(a / 2, b / 2) + (if a % 2 == b % 2 then 0 else 1)
  }

  function And(a: nat, b: nat): nat {
    if a == 0 || b == 0 then 0
    else 2 * And(a / 2, b / 2) + (if a % 2 == 1 && b % 2 == 1 then 1 else 0)
  }

  /** `a` shifted left by `n`, the low `n` bits of `a`, and what is above them. */
  function Shl(a: nat, n: nat): nat {
    if n == 0 then a else 2 * Shl(a, n - 1)
  }

  function Low(a: nat, n: nat): nat {
    if n == 0 then 0 else 2 * Low(a / 2, n - 1) + a % 2
  }

  function High(a: nat, n: nat): nat {
    if n == 0 then a else High(a / 2, n - 1)
  }

  function Bit(a: nat, i: nat): bool {
    if i == 0 then a % 2 == 1 else Bit(a / 2, i - 1)
  }

  /** One binary digit at a time, also at the end. */
  lemma XorDigit(a: nat, b: nat)
    ensures Xor(a, b) / 2 == Xor(a / 2, b / 2) && Xor(a, b) % 2 == if a % 2 == b % 2 then 0 else 1
  {
  }

  /** Every bit of the result is the exclusive-or of the operands' bits. */
  lemma {:induction false} XorBit(a: nat, b: nat, i: nat)
    ensures Bit(Xor(a, b), i) == (Bit(a, i) != Bit(b, i))
    decreases i
  {
    XorDigit(a, b);
    if i > 0 {
      XorBit(a / 2, b / 2, i - 1);
    }
  }

  lemma {:induction false} NoBits(i: nat)
    ensures !Bit(0, i)
  {
    if i > 0 {
      NoBits(i - 1);
    }
  }

  lemma {:induction false} HasBit(a: nat)
    requires a != 0
    ensures exists i: nat :: Bit(a, i)
  {
    if a % 2 == 1 {
      assert Bit(a, 0);
    } else {
      HasBit(a / 2);
      var i: nat :| Bit(a / 2, i);
      assert Bit(a, i + 1);
    }
  }

  /** Every bit of the result is set where both operands have it. */
  lemma {:induction false} AndBit(a: nat, b: nat, i: nat)
    ensures Bit(And(a, b), i) == (Bit(a, i) && Bit(b, i))
    decreases i
  {
    if a == 0 || b == 0 {
      NoBits(i);
    } else if i > 0 {
      AndBit(a / 2, b / 2, i - 1);
    }
  }

  /** `a & b` is nonzero exactly when some bit is set in both. */
  lemma AndMeets(a: nat, b: nat)
    ensures And(a, b) != 0 <==> exists i: nat :: Bit(a, i) && Bit(b, i)
  {
    if And(a, b) != 0 {
      HasBit(And(a, b));
      var i: nat :| Bit(And(a, b), i);
      AndBit(a, b, i);
    } else if i: nat :| Bit(a, i) && Bit(b, i) {
      AndBit(a, b, i);
      NoBits(i);
    }
  }

  /** A key applied twice cancels out. */
  lemma {:induction false} XorTwice(a: nat, b: nat)
    ensures Xor(Xor(a, b), b) == a
    decreases a + b
  {
    if a != 0 || b != 0 {
      XorTwice(a / 2, b / 2);
      XorDigit(a, b);
      XorDigit(Xor(a, b), b);
    }
  }

  lemma {:induction false} LowHigh(a: nat, n: nat)
    ensures a == Shl(High(a, n), n) + Low(a, n) && Low(a, n) < Shl(1, n)
  {
    if n > 0 {
      LowHigh(a / 2, n - 1);
    }
  }

  lemma {:induction false} LowOfParts(hi: nat, lo: nat, n: nat)
    requires lo < Shl(1, n)
    ensures Low(Shl(hi, n) + lo, n) == lo && High(Shl(hi, n) + lo, n) == hi
  {
    if n > 0 {
      LowOfParts(hi, lo / 2, n - 1);
      assert (Shl(hi, n) + lo) / 2 == Shl(hi, n - 1) + lo / 2;
    }
  }

  /** Masking before or after makes no difference. */
  lemma {:induction false} XorLow(a: nat, b: nat, n: nat)
    ensures Low(Xor(a, b), n) == Xor(Low(a, n), Low(b, n))
    decreases n
  {
    if n > 0 {
      XorLow(a / 2, b / 2, n - 1);
      XorDigit(a, b);
      XorOfDigits(Low(a / 2, n - 1), a % 2, Low(b / 2, n - 1), b % 2);
    }
  }

  lemma XorOfDigits(p: nat, c: nat, q: nat, d: nat)
    requires c < 2 && d < 2
    ensures Xor(2 * p + c, 2 * q + d) == 2 * Xor(p, q) + if c == d then 0 else 1
  {
  }

  lemma {:induction false} XorHigh(a: nat, b: nat, n: nat)
    ensures High(Xor(a, b), n) == Xor(High(a, n), High(b, n))
    decreases n
  {
    if n > 0 {
      XorDigit(a, b);
      XorHigh(a / 2, b / 2, n - 1);
    }
  }

  /** Exclusive-or works on high and low parts separately. */
  lemma XorParts(hi: nat, lo: nat, hi': nat, lo': nat, n: nat)
    requires lo < Shl(1, n) && lo' < Shl(1, n)
    ensures Xor(Shl(hi, n) + lo, Shl(hi', n) + lo') == Shl(Xor(hi, hi'), n) + Xor(lo, lo')
  {
    LowOfParts(hi, lo, n);
    LowOfParts(hi', lo', n);
    XorLow(Shl(hi, n) + lo, Shl(hi', n) + lo', n);
    XorHigh(Shl(hi, n) + lo, Shl(hi', n) + lo', n);
    LowHigh(Xor(Shl(hi, n) + lo, Shl(hi', n) + lo'), n);
  }

  lemma XorBelow(a: nat, b: nat, n: nat)
    requires a < Shl(1, n) && b < Shl(1, n)
    ensures Xor(a, b) < Shl(1, n)
  {
    LowOfParts(0, a, n);
    LowOfParts(0, b, n);
    ShlZero(n);
    XorLow(a, b, n);
    XorHigh(a, b, n);
    LowHigh(Xor(a, b), n);
  }

  lemma {:induction false} ShlZero(n: nat)
    ensures Shl(0, n) == 0
  {
    if n > 0 {
      ShlZero(n - 1);
    }
  }

  lemma {:induction false} ShlTwice(a: nat, m: nat, n: nat)
    ensures Shl(Shl(a, m), n) == Shl(a, m + n)
  {
    if n > 0 {
      ShlTwice(a, m, n - 1);
    }
  }

  lemma ShlByte(a: nat)
    ensures Shl(a, 8) == 256 * a
  {
    assert Shl(a, 1) == 2 * a;
    assert Shl(a, 2) == 4 * a;
    assert Shl(a, 3) == 8 * a;
    assert Shl(a, 4) == 16 * a;
    assert Shl(a, 5) == 32 * a;
    assert Shl(a, 6) == 64 * a;
    assert Shl(a, 7) == 128 * a;
  }

  lemma ShlWord(a: nat)
    ensures Shl(a, 32) == U32 * a
  {
    ShlByte(a);
    ShlTwice(a, 8, 8);
    ShlByte(Shl(a, 8));
    ShlTwice(a, 16, 8);
    ShlByte(Shl(a, 16));
    ShlTwice(a, 24, 8);
    ShlByte(Shl(a, 24));
  }

  lemma LowWord(a: nat)
    ensures Low(a, 32) == a % U32
  {
    LowHigh(a, 32);
    ShlWord(High(a, 32));
    ShlWord(1);
    RemainderIs(a, High(a, 32), Low(a, 32));
  }

  lemma RemainderIs(a: nat, q: nat, r: nat)
    requires a == U32 * q + r && r < U32
    ensures a % U32 == r
  {
  }

  /** Cutting the operands to 32 bits first cuts the result. */
  lemma XorMod(a: nat, b: nat)
    ensures Xor(a, b) % U32 == Xor(a % U32, b % U32)
  {
    XorLow(a, b, 32);
    LowWord(a);
    LowWord(b);
    LowWord(Xor(a, b));
  }

  // ----- little-endian words ----------------------------------------------

  function Word(b: bytes): (v: nat)
    requires |b| == 4
    ensures v < U32
  {
    Byte(b[0]) + 256 * (Byte(b[1]) + 256 * (Byte(b[2]) + 256 * Byte(b[3])))
  }

  function Byte(b: byte): nat {
    b
  }

  function WordBytes(v: nat): (b: bytes)
    requires v < U32
    ensures |b| == 4 && Word(b) == v
  {
    var v1 := v / 256;
    var v2 := v1 / 256;
    var v3 := v2 / 256;
    [v % 256, v1 % 256, v2 % 256, v3]
  }

  lemma WordBytesOfWord(b: bytes)
    requires |b| == 4
    ensures WordBytes(Word(b)) == b
  {
    var v3 := Byte(b[3]);
    var v2 := Byte(b[2]) + 256 * v3;
    var v1 := Byte(b[1]) + 256 * v2;
    var v := Byte(b[0]) + 256 * v1;
    assert v / 256 == v1 && v % 256 == b[0];
    assert v1 / 256 == v2 && v1 % 256 == b[1];
    assert v2 / 256 == v3 && v2 % 256 == b[2];
  }

  function Zeros(n: nat): (b: bytes)
    ensures |b| == n && forall i | 0 <= i < n :: b[i] == 0
  {
    seq(n, i => 0)
  }

  /** Python's b[i:j]: both ends are clamped to the length. */
  function Slice(b: bytes, i: nat, j: nat): (r: bytes)
  {
    var hi := if j < |b| then j else |b|;
    if i <= hi then b[i..hi] else []
  }
}
