/** What the 32-bit machine's operators do to the numbers in its registers. */
module MachineNumbers {
  import opened Bits
  import opened Machine
  import opened BitNumbers

  function Half(x: bv32): bv32 {
    x >> 1
  }

  predicate Last(x: bv32) {
    x & 1 == 1
  }

  function One(b: bool): bv32 {
    if b then 1 else 0
  }

  function TwiceAnd(a: bv32, u: bv32): bv32 {
    a + a + u
  }

  function Twice(a: bv32, u: bool): bv32 {
    TwiceAnd(a, One(u))
  }

  function SumOf(x: bv32, y: bv32, w: bv32): bv32 {
    x + y + w
  }

  function Plus(x: bv32, y: bv32, w: bool): bv32 {
    SumOf(x, y, One(w))
  }

  /** Equality where `m` has ones. */
  predicate Like(m: bv32, x: bv32, y: bv32) {
    x & m == y & m
  }

  const OPS: Ops<bv32> := Ops(Half, Last, Twice, Differ, Plus, Like)

  const LOW31: bv32 := 0x7FFFFFFF

  lemma Parts(x: bv32)
    ensures x == Twice(Half(x), Last(x))
  {
  }

  lemma XorHalf(x: bv32, y: bv32)
    ensures Half(Differ(x, y)) == Differ(Half(x), Half(y))
  {
  }

  lemma XorLast(x: bv32, y: bv32)
    ensures Last(Differ(x, y)) == (Last(x) != Last(y))
  {
  }

  /** What is left of three digits when the carry `d` is taken out. */
  function Rest(u: bv32, v: bv32, w: bv32, d: bv32): bv32 {
    u + v + w - (d + d)
  }

  lemma Ring(a: bv32, b: bv32, u: bv32, v: bv32, w: bv32, d: bv32)
    ensures SumOf(a + a + u, b + b + v, w) == TwiceAnd(a + b + d, u + v + w - (d + d))
  {
  }

  lemma Regrouped(a: bv32, b: bv32, u: bv32, v: bv32, w: bv32, d: bv32)
    ensures SumOf(TwiceAnd(a, u), TwiceAnd(b, v), w) == TwiceAnd(SumOf(a, b, d), Rest(u, v, w, d))
  {
    Ring(a, b, u, v, w, d);
  }

  lemma LastDigit(u: bool, v: bool, w: bool)
    ensures Rest(One(u), One(v), One(w), One(Carry(u, v, w))) == One((u != v) != w)
  {
  }

  lemma Columns(a: bv32, b: bv32, u: bool, v: bool, w: bool)
    ensures Plus(Twice(a, u), Twice(b, v), w) == Twice(Plus(a, b, Carry(u, v, w)), (u != v) != w)
  {
    Regrouped(a, b, One(u), One(v), One(w), One(Carry(u, v, w)));
    LastDigit(u, v, w);
  }

  lemma Doubled(a: bv32, u: bool)
    ensures Like(LOW31, Half(Twice(a, u)), a) && Last(Twice(a, u)) == u
  {
  }

  lemma MaskHalves(m: bv32, x: bv32, y: bv32)
    requires x & m == y & m
    ensures (x >> 1) & (m >> 1) == (y >> 1) & (m >> 1)
    ensures m & 1 == 1 ==> (x & 1 == 1) == (y & 1 == 1)
  {
  }

  lemma LikeHalves(m: bv32, x: bv32, y: bv32)
    requires Like(m, x, y)
    ensures Like(Half(m), Half(x), Half(y)) && (Last(m) ==> Last(x) == Last(y))
  {
    MaskHalves(m, x, y);
    assert Like(m >> 1, x >> 1, y >> 1);
  }

  lemma FourOnes(m: bv32, n: nat)
    requires m & 15 == 15 && Ones(OPS, m >> 4, n)
    ensures Ones(OPS, m, n + 4)
  {
    assert Half(m >> 3) == m >> 4 && Half(m >> 2) == m >> 3 && Half(m >> 1) == m >> 2;
    assert Last(m) && Last(m >> 1) && Last(m >> 2) && Last(m >> 3);
    assert Ones(OPS, m >> 3, n + 1);
    assert Ones(OPS, m >> 2, n + 2);
    assert Ones(OPS, m >> 1, n + 3);
  }

  lemma ManyOnes()
    ensures Ones(OPS, LOW31, 31)
  {
    assert Half(7) == 3 && Half(3) == 1;
    assert Ones(OPS, 1, 1);
    assert Ones(OPS, 3, 2);
    FourOnes(0x7F, 3);
    FourOnes(0x7FF, 7);
    FourOnes(0x7FFF, 11);
    FourOnes(0x7FFFF, 15);
    FourOnes(0x7FFFFF, 19);
    FourOnes(0x7FFFFFF, 23);
    FourOnes(0x7FFFFFFF, 27);
  }

  lemma PartsWork()
    ensures forall x :: PartsAt(OPS, x)
  {
    forall x: bv32 ensures PartsAt(OPS, x) {
      Parts(x);
    }
  }

  lemma XorWorks()
    ensures forall x, y :: XorAt(OPS, x, y)
  {
    forall x: bv32, y: bv32 ensures XorAt(OPS, x, y) {
      XorHalf(x, y);
      XorLast(x, y);
    }
  }

  lemma AddWorks()
    ensures forall a, b, u, v, w :: AddAt(OPS, a, b, u, v, w)
  {
    forall a: bv32, b: bv32, u: bool, v: bool, w: bool ensures AddAt(OPS, a, b, u, v, w) {
      Columns(a, b, u, v, w);
    }
  }

  lemma TwiceWorks()
    ensures forall a, u :: TwiceAt(OPS, LOW31, a, u)
  {
    forall a: bv32, u: bool ensures TwiceAt(OPS, LOW31, a, u) {
      Doubled(a, u);
    }
  }

  lemma LikeWorks()
    ensures forall m, x, y :: LikeAt(OPS, m, x, y)
  {
    forall m: bv32, x: bv32, y: bv32 ensures LikeAt(OPS, m, x, y) {
      if Like(m, x, y) {
        LikeHalves(m, x, y);
      }
    }
  }

  lemma OpsWork()
    ensures Works(OPS, LOW31, 31)
  {
    ManyOnes();
    PartsWork();
    XorWorks();
    AddWorks();
    TwiceWorks();
    LikeWorks();
  }

  // ----- the number a register holds --------------------------------------

  /** All 32 bits of it. */
  function Val(x: bv32): nat {
    Num(OPS, x, 32)
  }

  function Four(x: bv32): bv32 {
    Half(Half(Half(Half(x))))
  }

  lemma TwiceShifts(x: bv32)
    ensures Twice(x, false) == x << 1
  {
  }

  lemma ShiftsLeft(x: bv32)
    ensures (x << 1) << 1 == x << 2 && (x << 2) << 1 == x << 3 && (x << 3) << 1 == x << 4
  {
  }

  function Twice4(x: bv32): bv32 {
    Twice(Twice(Twice(Twice(x, false), false), false), false)
  }

  lemma TwiceFourTimes(x: bv32)
    ensures Twice4(x) == x << 4
  {
    TwiceShifts(x);
    TwiceShifts(x << 1);
    TwiceShifts(x << 2);
    TwiceShifts(x << 3);
    ShiftsLeft(x);
  }

  lemma LeftTwice(x: bv32)
    ensures Left(x) == Twice4(x)
  {
    TwiceFourTimes(x);
  }

  lemma RightHalves(x: bv32)
    ensures Right(x) == Half(Four(x))
  {
  }

  lemma SumIs(x: bv32, y: bv32, w: bv32)
    ensures SumOf(x, y, w) == x + y + w
  {
  }

  lemma NoThird(x: bv32, y: bv32)
    ensures x + y + 0 == x + y
  {
  }

  lemma SumOfNone(x: bv32, y: bv32)
    ensures SumOf(x, y, 0) == Add(x, y)
  {
    SumIs(x, y, 0);
    NoThird(x, y);
  }

  lemma AddPlus(x: bv32, y: bv32)
    ensures Add(x, y) == Plus(x, y, false)
  {
    assert One(false) == 0;
    SumOfNone(x, y);
  }

  lemma ValDiffer(x: bv32, y: bv32)
    ensures Val(Differ(x, y)) == Xor(Val(x), Val(y))
  {
    XorWorks();
    NumXor(OPS, x, y, 32);
  }

  lemma ValAdd(x: bv32, y: bv32)
    ensures Val(Add(x, y)) == (Val(x) + Val(y)) % U32
  {
    OpsWork();
    AddPlus(x, y);
    NumSum(OPS, LOW31, x, y, false, 31, 32);
    LowWord(Val(x) + Val(y));
  }

  lemma FourHalves(x: bv32, n: nat)
    ensures Halves(OPS, x, n + 4) == Halves(OPS, Four(x), n)
  {
    assert Halves(OPS, Half(Half(Half(x))), n + 1) == Halves(OPS, Four(x), n);
    assert Halves(OPS, Half(Half(x)), n + 2) == Halves(OPS, Half(Half(Half(x))), n + 1);
    assert Halves(OPS, Half(x), n + 3) == Halves(OPS, Half(Half(x)), n + 2);
  }

  lemma FourBelow(x: bv32, m: bv32)
    requires x <= m
    ensures Four(x) <= m >> 4
  {
  }

  lemma SevenFours(x: bv32)
    requires x <= LOW31
    ensures Four(Four(Four(Four(Four(Four(Four(x))))))) <= 7
  {
    var x1 := Four(x);
    var x2 := Four(x1);
    var x3 := Four(x2);
    var x4 := Four(x3);
    var x5 := Four(x4);
    FourBelow(x, LOW31);
    FourBelow(x1, 0x7FFFFFF);
    FourBelow(x2, 0x7FFFFF);
    FourBelow(x3, 0x7FFFF);
    FourBelow(x4, 0x7FFF);
    FourBelow(x5, 0x7FF);
    FourBelow(Four(x5), 0x7F);
  }

  lemma AllHalves(x: bv32)
    requires x <= LOW31
    ensures Halves(OPS, x, 31) == 0
  {
    SevenFours(x);
    var x1 := Four(x);
    var x2 := Four(x1);
    var x3 := Four(x2);
    var x4 := Four(x3);
    var x5 := Four(x4);
    var x6 := Four(x5);
    FourHalves(x, 27);
    FourHalves(x1, 23);
    FourHalves(x2, 19);
    FourHalves(x3, 15);
    FourHalves(x4, 11);
    FourHalves(x5, 7);
    FourHalves(x6, 3);
    ThreeHalves(Four(x6));
  }

  lemma ThreeHalves(x: bv32)
    requires x <= 7
    ensures Halves(OPS, x, 3) == 0
  {
    assert Half(Half(Half(x))) == 0;
    assert Halves(OPS, Half(Half(x)), 1) == Half(Half(Half(x)));
    assert Halves(OPS, Half(x), 2) == Halves(OPS, Half(Half(x)), 1);
  }

  lemma HalfIsShort(x: bv32)
    ensures Half(x) <= LOW31
  {
  }

  lemma ValHalf(x: bv32)
    ensures Val(Half(x)) == Val(x) / 2
  {
    HalfIsShort(x);
    AllHalves(Half(x));
    TopIsClear(OPS, Half(x), 31);
  }

  lemma ValRight(x: bv32)
    ensures Val(Right(x)) == Val(x) / 32
  {
    ValHalf(x);
    ValHalf(Half(x));
    ValHalf(Half(Half(x)));
    ValHalf(Half(Half(Half(x))));
    ValHalf(Four(x));
    RightHalves(x);
  }

  lemma ValLeft(x: bv32)
    ensures Val(Left(x)) == Val(x) * 16 % U32
  {
    var x1 := Twice(x, false);
    var x2 := Twice(x1, false);
    LeftTwice(x);
    OpsWork();
    NumTwice(OPS, LOW31, x, false, 31, 28);
    NumTwice(OPS, LOW31, x1, false, 31, 29);
    NumTwice(OPS, LOW31, x2, false, 31, 30);
    NumTwice(OPS, LOW31, Twice(x2, false), false, 31, 31);
    FewerBits(OPS, x, 32, 28);
    LowLeft(Val(x));
  }

  lemma {:induction false} LowShl(a: nat, n: nat, k: nat)
    ensures Low(Shl(a, k), n + k) == Shl(Low(a, n), k)
  {
    if k > 0 {
      LowShl(a, n, k - 1);
    }
  }

  lemma ShlFour(a: nat)
    ensures Shl(a, 4) == 16 * a
  {
    assert Shl(a, 1) == 2 * a;
    assert Shl(a, 2) == 2 * Shl(a, 1);
    assert Shl(a, 3) == 2 * Shl(a, 2);
  }

  lemma LowLeft(v: nat)
    ensures 16 * Low(v, 28) == v * 16 % U32
  {
    LowShl(v, 28, 4);
    ShlFour(v);
    ShlFour(Low(v, 28));
    LowWord(16 * v);
  }

  lemma ValIsShort(x: bv32)
    ensures Val(x) < 0x1_0000_0000
  {
    FewerBits(OPS, x, 32, 32);
    LowWord(Val(x));
  }

  // ----- hexadecimal digits -----------------------------------------------

  function Nibble(x: bv32): nat {
    Digit(x & 1 == 1) + 2 * Digit(x & 2 == 2) + 4 * Digit(x & 4 == 4) + 8 * Digit(x & 8 == 8)
  }

  lemma FourBits(x: bv32)
    ensures Last(Half(x)) == (x & 2 == 2) && Last(Half(Half(x))) == (x & 4 == 4)
    ensures Last(Half(Half(Half(x)))) == (x & 8 == 8)
    ensures Four(x) == x >> 4
  {
  }

  lemma HexDigit(x: bv32, n: nat)
    ensures Num(OPS, x, n + 4) == 16 * Num(OPS, x >> 4, n) + Nibble(x)
  {
    FourBits(x);
    var h := Half(x);
    var q := Half(h);
    assert Num(OPS, x, n + 4) == 2 * Num(OPS, h, n + 3) + Digit(Last(x));
    assert Num(OPS, h, n + 3) == 2 * Num(OPS, q, n + 2) + Digit(Last(h));
    assert Num(OPS, q, n + 2) == 2 * Num(OPS, Half(q), n + 1) + Digit(Last(q));
    assert Num(OPS, Half(q), n + 1) == 2 * Num(OPS, Four(x), n) + Digit(Last(Half(q)));
  }

  /** The number of the last `n` hexadecimal digits. */
  function Hex(x: bv32, n: nat): nat
    decreases n
  {
    if n == 0 then 0 else 16 * Hex(x >> 4, n - 1) + Nibble(x)
  }

  lemma {:induction false} NumIsHex(x: bv32, n: nat)
    ensures Num(OPS, x, 4 * n) == Hex(x, n)
    decreases n
  {
    if n > 0 {
      HexDigit(x, 4 * (n - 1));
      NumIsHex(x >> 4, n - 1);
    }
  }

  lemma ValIsHex(x: bv32)
    ensures Val(x) == Hex(x, 8)
  {
    NumIsHex(x, 8);
  }
}
