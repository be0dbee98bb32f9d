/** Numbers in registers of bits. The arithmetic is proved for any type that can be
    halved and doubled, and then used for 32-bit vectors. */
module BitNumbers {
  import opened Bits

  /** Shifting right by one, the last bit, shifting left by one and putting in a
      last bit, exclusive-or, addition with a carry, and equality under a mask. */
  datatype Ops<!T> = Ops(
    half: T -> T, last: T -> bool, twice: (T, bool) -> T, xor: (T, T) -> T, add: (T, T, bool) -> T,
    like: (T, T, T) -> bool)

  function Digit(b: bool): nat {
    if b then 1 else 0
  }

  /** The number in the low `n` bits. */
  function Num<T>(o: Ops<T>, x: T, n: nat): nat {
    if n == 0 then 0 else 2 * Num(o, o.half(x), n - 1) + Digit(o.last(x))
  }

  function Carry(u: bool, v: bool, w: bool): bool {
    (u && v) || (u && w) || (v && w)
  }

  // ----- what the operations do bit by bit --------------------------------

  predicate PartsAt<T(==)>(o: Ops<T>, x: T) {
    x == o.twice(o.half(x), o.last(x))
  }

  predicate XorAt<T(==)>(o: Ops<T>, x: T, y: T) {
    o.half(o.xor(x, y)) == o.xor(o.half(x), o.half(y)) && o.last(o.xor(x, y)) == (o.last(x) != o.last(y))
  }

  predicate AddAt<T(==)>(o: Ops<T>, a: T, b: T, u: bool, v: bool, w: bool) {
    o.add(o.twice(a, u), o.twice(b, v), w) == o.twice(o.add(a, b, Carry(u, v, w)), (u != v) != w)
  }

  /** Under the mask `m` doubling and halving is undone. */
  predicate TwiceAt<T>(o: Ops<T>, m: T, a: T, u: bool) {
    o.like(m, o.half(o.twice(a, u)), a) && o.last(o.twice(a, u)) == u
  }

  predicate LikeAt<T>(o: Ops<T>, m: T, x: T, y: T) {
    o.like(m, x, y) ==> o.like(o.half(m), o.half(x), o.half(y)) && (o.last(m) ==> o.last(x) == o.last(y))
  }

  /** `n` ones at the low end. */
  predicate Ones<T>(o: Ops<T>, m: T, n: nat) {
    n > 0 ==> o.last(m) && Ones(o, o.half(m), n - 1)
  }

  /** Registers of one bit more than the mask has. */
  ghost predicate Works<T(!new)>(o: Ops<T>, m: T, bits: nat) {
    && (forall x :: PartsAt(o, x)) && (forall x, y :: XorAt(o, x, y))
    && (forall a, b, u, v, w :: AddAt(o, a, b, u, v, w)) && (forall a, u :: TwiceAt(o, m, a, u))
    && (forall k, x, y :: LikeAt(o, k, x, y)) && Ones(o, m, bits)
  }

  // ----- the numbers ------------------------------------------------------

  lemma {:induction false} LikeNum<T(!new)>(o: Ops<T>, m: T, x: T, y: T, bits: nat, n: nat)
    requires (forall k, x, y :: LikeAt(o, k, x, y)) && Ones(o, m, bits) && o.like(m, x, y) && n <= bits
    ensures Num(o, x, n) == Num(o, y, n)
    decreases n
  {
    if n > 0 {
      assert LikeAt(o, m, x, y);
      LikeNum(o, o.half(m), o.half(x), o.half(y), bits - 1, n - 1);
    }
  }

  lemma LastOf(x: nat, u: bool)
    ensures (2 * x + Digit(u)) / 2 == x && (2 * x + Digit(u)) % 2 == Digit(u)
  {
  }

  lemma XorColumn(x: nat, y: nat, u: bool, v: bool)
    ensures Xor(2 * x + Digit(u), 2 * y + Digit(v)) == 2 * Xor(x, y) + Digit(u != v)
  {
    LastOf(x, u);
    LastOf(y, v);
    XorDigit(2 * x + Digit(u), 2 * y + Digit(v));
  }

  lemma {:induction false} NumXor<T(!new)>(o: Ops<T>, x: T, y: T, n: nat)
    requires forall x, y :: XorAt(o, x, y)
    ensures Num(o, o.xor(x, y), n) == Xor(Num(o, x, n), Num(o, y, n))
    decreases n
  {
    if n > 0 {
      var k := n - 1;
      assert XorAt(o, x, y);
      NumXor(o, o.half(x), o.half(y), k);
      XorColumn(Num(o, o.half(x), k), Num(o, o.half(y), k), o.last(x), o.last(y));
    }
  }

  lemma {:induction false} FewerBits<T>(o: Ops<T>, x: T, n: nat, k: nat)
    requires k <= n
    ensures Num(o, x, k) == Low(Num(o, x, n), k)
  {
    if k > 0 {
      FewerBits(o, o.half(x), n - 1, k - 1);
    }
  }

  lemma OneColumn(x: nat, y: nat, u: bool, v: bool, w: bool, n: nat)
    requires n > 0
    ensures Low(2 * x + Digit(u) + (2 * y + Digit(v)) + Digit(w), n)
         == 2 * Low(x + y + Digit(Carry(u, v, w)), n - 1) + Digit((u != v) != w)
  {
  }

  lemma NumTwice<T(!new)>(o: Ops<T>, m: T, a: T, u: bool, bits: nat, n: nat)
    requires Works(o, m, bits) && n <= bits
    ensures Num(o, o.twice(a, u), n + 1) == 2 * Num(o, a, n) + Digit(u)
  {
    assert TwiceAt(o, m, a, u);
    LikeNum(o, m, o.half(o.twice(a, u)), a, bits, n);
  }

  lemma AddParts<T(!new)>(o: Ops<T>, m: T, x: T, y: T, w: bool, bits: nat)
    requires Works(o, m, bits)
    ensures var u, v := o.last(x), o.last(y);
      o.add(x, y, w) == o.twice(o.add(o.half(x), o.half(y), Carry(u, v, w)), (u != v) != w)
  {
    assert PartsAt(o, x) && PartsAt(o, y) && AddAt(o, o.half(x), o.half(y), o.last(x), o.last(y), w);
  }

  lemma {:induction false} NumSum<T(!new)>(o: Ops<T>, m: T, x: T, y: T, w: bool, bits: nat, n: nat)
    requires Works(o, m, bits) && n <= bits + 1
    ensures Num(o, o.add(x, y, w), n) == Low(Num(o, x, n) + Num(o, y, n) + Digit(w), n)
    decreases n
  {
    if n > 0 {
      var u, v, k := o.last(x), o.last(y), n - 1;
      var d := Carry(u, v, w);
      AddParts(o, m, x, y, w, bits);
      NumTwice(o, m, o.add(o.half(x), o.half(y), d), (u != v) != w, bits, k);
      NumSum(o, m, o.half(x), o.half(y), d, bits, k);
      var a, b := Num(o, o.half(x), k), Num(o, o.half(y), k);
      assert Num(o, x, n) == 2 * a + Digit(u) && Num(o, y, n) == 2 * b + Digit(v);
      OneColumn(a, b, u, v, w, n);
    }
  }

  function Halves<T>(o: Ops<T>, x: T, n: nat): T {
    if n == 0 then x else Halves(o, o.half(x), n - 1)
  }

  lemma {:induction false} TopIsClear<T>(o: Ops<T>, x: T, n: nat)
    requires !o.last(Halves(o, x, n))
    ensures Num(o, x, n + 1) == Num(o, x, n)
  {
    if n > 0 {
      TopIsClear(o, o.half(x), n - 1);
    }
  }
}
