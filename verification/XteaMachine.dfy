/** The cipher is that of 32-bit registers, and its known answer. */
module XteaMachine {
  import opened Common
  import opened Machine
  import opened MachineNumbers
  import opened Xtea

  type KeyWords = k: seq<bv32> | |k| == 4 witness [0, 0, 0, 0]

  /** The machine after `n` rounds. */
  function Run(r: Registers, k: KeyWords, n: nat): Registers
    decreases n
  {
    if n == 0 then r
    else Next(Run(r, k, n - 1), k[Schedule(n - 1) % 4], k[Schedule(n) / 2048 % 4])
  }

  function BlockIn(r: Registers): Block {
    Block(Val(r.v0), Val(r.v1))
  }

  function KeyIn(k: KeyWords): Key {
    [Val(k[0]), Val(k[1]), Val(k[2]), Val(k[3])]
  }

  // ----- round by round ---------------------------------------------------

  lemma ValMixed(v: bv32, s: bv32, k: bv32)
    ensures Val(Mixed(v, s, k)) == Mix32(Val(v), Val(s), Val(k))
  {
    var x := Differ(Left(v), Right(v));
    ValLeft(v);
    ValRight(v);
    ValDiffer(Left(v), Right(v));
    ValAdd(x, v);
    ValAdd(s, k);
    ValDiffer(Add(x, v), Add(s, k));
  }

  lemma HalfRound(v: bv32, w: bv32, s: bv32, k: bv32)
    ensures Val(Add(v, Mixed(w, s, k))) == Add32(Val(v), Mix32(Val(w), Val(s), Val(k)))
  {
    ValMixed(w, s, k);
    ValAdd(v, Mixed(w, s, k));
  }

  lemma StepIsDelta()
    ensures Val(STEP) == DELTA
  {
    ValIsHex(0x9E3779B9);
  }

  lemma NextVals(r: Registers, k0: bv32, k1: bv32, n: Registers)
    requires n == Next(r, k0, k1)
    ensures Val(n.s) == Add32(Val(r.s), DELTA)
    ensures Val(n.v0) == Add32(Val(r.v0), Mix32(Val(r.v1), Val(r.s), Val(k0)))
    ensures Val(n.v1) == Add32(Val(r.v1), Mix32(Val(n.v0), Val(n.s), Val(k1)))
  {
    StepIsDelta();
    HalfRound(r.v0, r.v1, r.s, k0);
    ValAdd(r.s, STEP);
    HalfRound(r.v1, n.v0, n.s, k1);
  }

  lemma BlockFits(r: Registers)
    ensures Fits(BlockIn(r))
  {
    ValIsShort(r.v0);
    ValIsShort(r.v1);
  }

  lemma NextRound(r: Registers, k: Key, k0: bv32, k1: bv32)
    requires Val(k0) == k[Val(r.s) % 4] && Val(k1) == k[Add32(Val(r.s), DELTA) / 2048 % 4]
    ensures Fits(BlockIn(r)) && Round(BlockIn(r), Val(r.s), k) == BlockIn(Next(r, k0, k1))
    ensures Val(Next(r, k0, k1).s) == Add32(Val(r.s), DELTA)
  {
    BlockFits(r);
    RoundIs32Bit(BlockIn(r), Val(r.s), k);
    NextVals(r, k0, k1, Next(r, k0, k1));
  }

  lemma ZeroIsNought()
    ensures Val(0) == 0
  {
    ValIsHex(0);
  }

  // ----- all rounds -------------------------------------------------------

  predicate Stands(run: nat -> Registers, i: nat) {
    Fits(BlockIn(run(i))) && Val(run(i).s) == Schedule(i)
  }

  predicate Follows(run: nat -> Registers, k: Key, i: nat) {
    Stands(run, i) ==> Stands(run, i + 1) && Round(BlockIn(run(i)), Schedule(i), k) == BlockIn(run(i + 1))
  }

  lemma OneMoreRound(b: Block, k: Key, n: nat)
    requires Fits(b)
    ensures Encrypted(b, k, n + 1) == Round(Encrypted(b, k, n), Schedule(n), k)
  {
  }

  predicate Reached(run: nat -> Registers, b: Block, k: Key, n: nat)
    requires Fits(b)
  {
    Stands(run, n) && Encrypted(b, k, n) == BlockIn(run(n))
  }

  lemma StepsOn(run: nat -> Registers, b: Block, k: Key, n: nat)
    requires Fits(b) && Reached(run, b, k, n) && Follows(run, k, n)
    ensures Reached(run, b, k, n + 1)
  {
    OneMoreRound(b, k, n);
  }

  lemma ReachesOn(run: nat -> Registers, b: Block, k: Key, holds: nat -> bool)
    requires Fits(b) && forall i: nat :: Follows(run, k, i)
    requires forall n: nat :: holds(n) <==> Reached(run, b, k, n)
    ensures forall n: nat :: holds(n) ==> holds(n + 1)
  {
    forall n: nat | holds(n) ensures holds(n + 1) {
      StepsOn(run, b, k, n);
    }
  }

  lemma RunsAlong(run: nat -> Registers, b: Block, k: Key, n: nat)
    requires Fits(b) && Reached(run, b, k, 0) && forall i: nat :: Follows(run, k, i)
    ensures Reached(run, b, k, n)
  {
    var holds := (i: nat) => Reached(run, b, k, i);
    ReachesOn(run, b, k, holds);
    StepByStep(holds, n);
    assert holds(n);
  }

  lemma RunFollows(r: Registers, k: KeyWords, i: nat)
    requires Val(Run(r, k, i).s) == Schedule(i)
    ensures var q, q' := Run(r, k, i), Run(r, k, i + 1);
      && Fits(BlockIn(q)) && Fits(BlockIn(q')) && Val(q'.s) == Schedule(i + 1)
      && Round(BlockIn(q), Schedule(i), KeyIn(k)) == BlockIn(q')
  {
    NextRound(Run(r, k, i), KeyIn(k), k[Schedule(i) % 4], k[Schedule(i + 1) / 2048 % 4]);
  }

  /** For every block, every key and every number of rounds the cipher computes on
      unbounded integers what a 32-bit machine computes. */
  lemma EncryptsAsRegisters(r: Registers, k: KeyWords, n: nat)
    requires r.s == 0
    ensures Fits(BlockIn(r)) && Encrypted(BlockIn(r), KeyIn(k), n) == BlockIn(Run(r, k, n))
  {
    var run := (i: nat) => Run(r, k, i);
    forall i: nat ensures Follows(run, KeyIn(k), i) {
      if Stands(run, i) {
        RunFollows(r, k, i);
      }
    }
    ZeroIsNought();
    ValIsShort(r.v0);
    ValIsShort(r.v1);
    RunsAlong(run, BlockIn(r), KeyIn(k), n);
  }

  // ----- the known answer -------------------------------------------------

  lemma ZerosFollow(k: Key, i: nat)
    requires k == [0, 0, 0, 0] && Val(FromZeros(i).s) == Schedule(i)
    ensures Fits(BlockIn(FromZeros(i))) && Fits(BlockIn(FromZeros(i + 1))) && Val(FromZeros(i + 1).s) == Schedule(i + 1)
    ensures Round(BlockIn(FromZeros(i)), Schedule(i), k) == BlockIn(FromZeros(i + 1))
  {
    ZeroIsNought();
    NextRound(FromZeros(i), k, 0, 0);
  }

  lemma ZerosEncrypted(b: Block, k: Key, n: nat)
    requires b == Block(0, 0) && k == [0, 0, 0, 0]
    ensures Encrypted(b, k, n) == BlockIn(FromZeros(n))
  {
    forall i: nat ensures Follows(FromZeros, k, i) {
      if Stands(FromZeros, i) {
        ZerosFollow(k, i);
      }
    }
    ZeroIsNought();
    RunsAlong(FromZeros, b, k, n);
  }

  lemma LeftHalf()
    ensures Val(0xDEE9D4D8) == 0xDEE9D4D8
  {
    ValIsHex(0xDEE9D4D8);
  }

  lemma RightHalf()
    ensures Val(0xF7131ED9) == 0xF7131ED9
  {
    ValIsHex(0xF7131ED9);
  }

  lemma EndsAs(b: Block, r: Registers)
    requires b == BlockIn(r) && r.v0 == 0xDEE9D4D8 && r.v1 == 0xF7131ED9
    ensures b == Block(0xDEE9D4D8, 0xF7131ED9)
  {
    LeftHalf();
    RightHalf();
  }

  lemma ZerosEnd(b: Block, k: Key, n: nat)
    requires b == Block(0, 0) && k == [0, 0, 0, 0]
    requires FromZeros(n) == Registers(0xDEE9D4D8, 0xF7131ED9, 0xC6EF3720)
    ensures Encrypted(b, k, n) == Block(0xDEE9D4D8, 0xF7131ED9)
  {
    ZerosEncrypted(b, k, n);
    EndsAs(Encrypted(b, k, n), FromZeros(n));
  }

  /** Eight zero bytes under the zero key, and back. */
  lemma KnownAnswer(b: Block, k: Key, n: nat)
    requires b == Block(0, 0) && k == [0, 0, 0, 0] && n == 32
    ensures Encrypted(b, k, n) == Block(0xDEE9D4D8, 0xF7131ED9)
  {
    ZerosAfter32(0, n);
    ZerosEnd(b, k, n);
  }

  lemma KnownAnswerBack(b: Block, k: Key, n: nat)
    requires b == Block(0xDEE9D4D8, 0xF7131ED9) && k == [0, 0, 0, 0] && n == 32
    ensures Decrypted(b, k, n) == Block(0, 0)
  {
    KnownAnswer(Block(0, 0), k, n);
    DecryptAfterEncrypt(Block(0, 0), k, n);
  }
}
