/** The archive's block cipher, on Python's unbounded integers. */
module Xtea {
  import opened Bits

  const DELTA: nat := 0x9E3779B9
  const ROUNDS: nat := 32

  type Key = k: seq<nat> | |k| == 4 witness [0, 0, 0, 0]

  /** The two halves of a block. */
  datatype Block = Block(v0: int, v1: int)

  predicate Fits(b: Block) {
    0 <= b.v0 < U32 && 0 <= b.v1 < U32
  }

  function Mix(v: nat, s: nat, k: nat): nat {
    Xor(Xor(v * 16, v / 32) + v, s + k)
  }

  /** The same expression with every operation cut to 32 bits. */
  function Mix32(v: nat, s: nat, k: nat): nat {
    Xor((Xor(v * 16 % U32, v / 32) + v) % U32, (s + k) % U32)
  }

  /** The round constant after `n` rounds. */
  function Schedule(n: nat): (s: nat)
    ensures s < U32
  {
    if n == 0 then 0 else Add32(Schedule(n - 1), DELTA)
  }

  function Add32(v: int, f: int): (r: nat)
    ensures r < U32
  {
    (v + f) % U32
  }

  function Sub32(v: int, f: int): (r: nat)
    ensures r < U32
  {
    (v - f) % U32
  }

  /** The two halves of a round, with the constant `s` they read. */
  function Even(v: nat, s: nat, k: Key): nat {
    Mix(v, s, k[s % 4])
  }

  function Odd(v: nat, s: nat, k: Key): nat {
    Mix(v, s, k[s / 2048 % 4])
  }

  function Round(b: Block, s: nat, k: Key): (r: Block)
    requires Fits(b)
    ensures Fits(r)
  {
    var v0 := Add32(b.v0, Even(b.v1, s, k));
    Block(v0, Add32(b.v1, Odd(v0, Add32(s, DELTA), k)))
  }

  function Unround(b: Block, s: nat, k: Key): (r: Block)
    requires Fits(b)
    ensures Fits(r)
  {
    var v1 := Sub32(b.v1, Odd(b.v0, Add32(s, DELTA), k));
    Block(Sub32(b.v0, Even(v1, s, k)), v1)
  }

  /** The first `n` rounds. */
  function Encrypted(b: Block, k: Key, n: nat): (r: Block)
    requires Fits(b)
    ensures Fits(r)
  {
    if n == 0 then b else Round(Encrypted(b, k, n - 1), Schedule(n - 1), k)
  }

  /** The first `n` rounds taken back, the last one first. */
  function Decrypted(b: Block, k: Key, n: nat): (r: Block)
    requires Fits(b)
    ensures Fits(r)
    decreases n
  {
    if n == 0 then b else Decrypted(Unround(b, Schedule(n - 1), k), k, n - 1)
  }

  lemma {:induction false} ScheduleIsMultiple(n: nat)
    ensures Schedule(n) == DELTA * n % U32
  {
    if n > 0 {
      ScheduleIsMultiple(n - 1);
      ModAdds(DELTA * (n - 1), DELTA);
    }
  }

  lemma ModAdds(x: nat, d: nat)
    ensures (x % U32 + d) % U32 == (x + d) % U32
  {
  }

  lemma ScheduleGoesBack(n: nat)
    ensures Schedule(n) == Sub32(Schedule(n + 1), DELTA)
  {
  }

  method EncryptBlock(v0: nat, v1: nat, k: Key, rounds: nat := ROUNDS) returns (r0: nat, r1: nat)
    requires Fits(Block(v0, v1))
    ensures Block(r0, r1) == Encrypted(Block(v0, v1), k, rounds)
  {
    r0, r1 := v0, v1;
    var s := 0;
    for i := 0 to rounds
      invariant Block(r0, r1) == Encrypted(Block(v0, v1), k, i) && s == Schedule(i)
    {
      r0 := Add32(r0, Mix(r1, s, k[s % 4]));
      s := Add32(s, DELTA);
      r1 := Add32(r1, Mix(r0, s, k[s / 2048 % 4]));
    }
  }

  method DecryptBlock(v0: nat, v1: nat, k: Key, rounds: nat := ROUNDS) returns (r0: nat, r1: nat)
    requires Fits(Block(v0, v1))
    ensures Block(r0, r1) == Decrypted(Block(v0, v1), k, rounds)
  {
    r0, r1 := v0, v1;
    ScheduleIsMultiple(rounds);
    var s := DELTA * rounds % U32;
    for i := 0 to rounds
      invariant Fits(Block(r0, r1)) && s == Schedule(rounds - i)
      invariant Decrypted(Block(r0, r1), k, rounds - i) == Decrypted(Block(v0, v1), k, rounds)
    {
      ScheduleGoesBack(rounds - i - 1);
      r1 := Sub32(r1, Mix(r0, s, k[s / 2048 % 4]));
      s := Sub32(s, DELTA);
      r0 := Sub32(r0, Mix(r1, s, k[s % 4]));
    }
  }

  // ----- decryption and encryption are inverse ----------------------------

  lemma SubtractsBack(v: nat, f: int)
    requires v < U32
    ensures Sub32(Add32(v, f), f) == v && Add32(Sub32(v, f), f) == v
  {
    WrapsTo(v + f - (v + f) / U32 * U32 - f, -((v + f) / U32), v);
    WrapsTo(v - f - (v - f) / U32 * U32 + f, -((v - f) / U32), v);
  }

  lemma WrapsTo(a: int, q: int, r: int)
    requires a == q * U32 + r && 0 <= r < U32
    ensures a % U32 == r
  {
  }

  lemma UnroundAfterRound(b: Block, s: nat, k: Key)
    requires Fits(b)
    ensures Unround(Round(b, s, k), s, k) == b
  {
    var r := Round(b, s, k);
    SubtractsBack(b.v1, Odd(r.v0, Add32(s, DELTA), k));
    SubtractsBack(b.v0, Even(b.v1, s, k));
  }

  lemma RoundAfterUnround(b: Block, s: nat, k: Key)
    requires Fits(b)
    ensures Round(Unround(b, s, k), s, k) == b
  {
    var u := Unround(b, s, k);
    SubtractsBack(b.v1, Odd(b.v0, Add32(s, DELTA), k));
    SubtractsBack(b.v0, Even(u.v1, s, k));
  }

  /** For every block, every key and every number of rounds. */
  lemma {:induction false} DecryptAfterEncrypt(b: Block, k: Key, n: nat)
    requires Fits(b)
    ensures Decrypted(Encrypted(b, k, n), k, n) == b
  {
    if n > 0 {
      UnroundAfterRound(Encrypted(b, k, n - 1), Schedule(n - 1), k);
      DecryptAfterEncrypt(b, k, n - 1);
    }
  }

  lemma {:induction false} EncryptAfterDecrypt(b: Block, k: Key, n: nat)
    requires Fits(b)
    ensures Encrypted(Decrypted(b, k, n), k, n) == b
    decreases n
  {
    if n > 0 {
      EncryptAfterDecrypt(Unround(b, Schedule(n - 1), k), k, n - 1);
      RoundAfterUnround(b, Schedule(n - 1), k);
    }
  }

  // ----- the late masks are enough ----------------------------------------

  /** Cutting only the result to 32 bits gives what 32-bit registers give. */
  lemma LateMaskIsEnough(v: nat, s: nat, k: nat)
    requires v < U32
    ensures Mix(v, s, k) % U32 == Mix32(v, s, k)
  {
    var x := Xor(v * 16, v / 32);
    ShiftMask(v);
    AddsMasked(x, v);
    XorMod(x + v, s + k);
  }

  lemma ShiftMask(v: nat)
    requires v < U32
    ensures Xor(v * 16, v / 32) % U32 == Xor(v * 16 % U32, v / 32)
  {
    XorMod(v * 16, v / 32);
    WrapsTo(v / 32, 0, v / 32);
  }

  lemma AddsMasked(x: nat, v: nat)
    ensures (x + v) % U32 == (x % U32 + v) % U32
  {
  }

  /** So a round is the 32-bit round of the cipher: shifts by four and five, keys
      chosen by the bits 0 and 1 of the constant and then by its bits 11 and 12. */
  lemma RoundIs32Bit(b: Block, s: nat, k: Key)
    requires Fits(b)
    ensures var s' := Add32(s, DELTA); var r := Round(b, s, k);
      && r.v0 == Add32(b.v0, Mix32(b.v1, s, k[s % 4]))
      && r.v1 == Add32(b.v1, Mix32(r.v0, s', k[s' / 2048 % 4]))
  {
    var s' := Add32(s, DELTA);
    var r := Round(b, s, k);
    LateMaskIsEnough(b.v1, s, k[s % 4]);
    LateMaskIsEnough(r.v0, s', k[s' / 2048 % 4]);
    AddMasked(b.v0, Mix(b.v1, s, k[s % 4]));
    AddMasked(b.v1, Mix(r.v0, s', k[s' / 2048 % 4]));
  }

  lemma AddMasked(v: int, f: nat)
    ensures Add32(v, f) == Add32(v, f % U32)
  {
  }

  /** And taking a round back is too. */
  lemma UnroundIs32Bit(b: Block, s: nat, k: Key)
    requires Fits(b)
    ensures var s' := Add32(s, DELTA); var r := Unround(b, s, k);
      && r.v1 == Sub32(b.v1, Mix32(b.v0, s', k[s' / 2048 % 4]))
      && r.v0 == Sub32(b.v0, Mix32(r.v1, s, k[s % 4]))
  {
    var s' := Add32(s, DELTA);
    var r := Unround(b, s, k);
    LateMaskIsEnough(b.v0, s', k[s' / 2048 % 4]);
    LateMaskIsEnough(r.v1, s, k[s % 4]);
    SubMasked(b.v1, Mix(b.v0, s', k[s' / 2048 % 4]));
    SubMasked(b.v0, Mix(r.v1, s, k[s % 4]));
  }

  lemma SubMasked(v: int, f: nat)
    ensures Sub32(v, f) == Sub32(v, f % U32)
  {
  }

  /** The numbers in it: shifts by four and five, 32 bits, the golden ratio. */
  lemma RoundNumbers(v: nat, s: nat, k: nat)
    ensures Mix32(v, s, k)
         == Xor((Xor(v * 16 % 0x1_0000_0000, v / 32) + v) % 0x1_0000_0000, (s + k) % 0x1_0000_0000)
    ensures Add32(v, s) == (v + s) % 0x1_0000_0000 && Sub32(v, s) == (v - s) % 0x1_0000_0000
    ensures DELTA == 0x9E3779B9
  {
  }

  /** Encryption runs the rounds forward, the constant going up by one step each. */
  lemma RoundsRunForward(b: Block, k: Key, n: nat)
    requires Fits(b)
    ensures Encrypted(b, k, 0) == b
    ensures Encrypted(b, k, n + 1) == Round(Encrypted(b, k, n), 0x9E3779B9 * n % 0x1_0000_0000, k)
  {
    ScheduleIsMultiple(n);
  }

  // ----- byte strings -----------------------------------------------------

  function BlockOf(b: bytes): (r: Block)
    requires |b| == 8
    ensures Fits(r)
  {
    Block(Word(b[..4]), Word(b[4..]))
  }

  function BlockBytes(b: Block): (r: bytes)
    requires Fits(b)
    ensures |r| == 8 && BlockOf(r) == b
  {
    var r := WordBytes(b.v0) + WordBytes(b.v1);
    assert r[..4] == WordBytes(b.v0) && r[4..] == WordBytes(b.v1);
    r
  }

  lemma BlockBytesOfBlock(b: bytes)
    requires |b| == 8
    ensures BlockBytes(BlockOf(b)) == b
  {
    WordBytesOfWord(b[..4]);
    WordBytesOfWord(b[4..]);
  }

  function Ciphered(b: Block, k: Key, encrypt: bool): (r: Block)
    requires Fits(b)
    ensures Fits(r)
  {
    if encrypt then Encrypted(b, k, ROUNDS) else Decrypted(b, k, ROUNDS)
  }

  /** Whole blocks are ciphered; what is left of eight bytes is copied. */
  function Stream(data: bytes, k: Key, encrypt: bool): (r: bytes)
    ensures |r| == |data|
  {
    if |data| < 8 then data
    else BlockBytes(Ciphered(BlockOf(data[..8]), k, encrypt)) + Stream(data[8..], k, encrypt)
  }

  lemma StreamSplits(data: bytes, k: Key, encrypt: bool)
    requires |data| >= 8
    ensures var r := Stream(data, k, encrypt);
      r[..8] == BlockBytes(Ciphered(BlockOf(data[..8]), k, encrypt)) && r[8..] == Stream(data[8..], k, encrypt)
  {
  }

  lemma BlockOfRest(b: bytes, i: nat, j: nat)
    requires i == j + 1 && 8 * i + 8 <= |b|
    ensures b[8..][8 * j..8 * j + 8] == b[8 * i..8 * i + 8]
  {
  }

  lemma FirstBlock(data: bytes, k: Key, encrypt: bool)
    requires |data| >= 8
    ensures BlockOf(Stream(data, k, encrypt)[..8]) == Ciphered(BlockOf(data[..8]), k, encrypt)
  {
    StreamSplits(data, k, encrypt);
  }

  /** Every whole block stands in its place, encrypted with 32 rounds, or decrypted
      with as many. */
  lemma {:induction false} StreamOutcome(data: bytes, k: Key, encrypt: bool, i: nat)
    requires 8 * i + 8 <= |data|
    ensures BlockOf(Stream(data, k, encrypt)[8 * i..8 * i + 8]) ==
      if encrypt then Encrypted(BlockOf(data[8 * i..8 * i + 8]), k, 32)
      else Decrypted(BlockOf(data[8 * i..8 * i + 8]), k, 32)
    decreases i
  {
    if i == 0 {
      FirstBlock(data, k, encrypt);
    } else {
      var j := i - 1;
      StreamOutcome(data[8..], k, encrypt, j);
      StreamSplits(data, k, encrypt);
      BlockOfRest(data, i, j);
      BlockOfRest(Stream(data, k, encrypt), i, j);
    }
  }

  /** What is left of eight bytes is the data's own. */
  lemma {:induction false} TailOutcome(data: bytes, k: Key, encrypt: bool, blocks: nat)
    requires 8 * blocks <= |data| < 8 * blocks + 8
    ensures Stream(data, k, encrypt)[8 * blocks..] == data[8 * blocks..]
    decreases blocks
  {
    if blocks > 0 {
      StreamSplits(data, k, encrypt);
      TailOutcome(data[8..], k, encrypt, blocks - 1);
      assert Stream(data, k, encrypt)[8..][8 * blocks - 8..] == Stream(data, k, encrypt)[8 * blocks..];
      assert data[8..][8 * blocks - 8..] == data[8 * blocks..];
    }
  }

  lemma StreamNextBlock(data: bytes, i: nat, k: Key, encrypt: bool)
    requires i + 8 <= |data|
    ensures Stream(data[i..], k, encrypt) ==
      BlockBytes(Ciphered(Block(Word(data[i..i + 4]), Word(data[i + 4..i + 8])), k, encrypt))
      + Stream(data[i + 8..], k, encrypt)
  {
    var rest := data[i..];
    assert rest[..8][..4] == data[i..i + 4] && rest[..8][4..] == data[i + 4..i + 8];
    assert rest[8..] == data[i + 8..];
  }

  /** struct.pack_into: eight bytes at position `i`. */
  method PutBlock(out: array<byte>, i: nat, b: Block)
    requires i + 8 <= out.Length && Fits(b)
    modifies out
    ensures out[..] == old(out[..i]) + BlockBytes(b) + old(out[i + 8..])
  {
    var packed := BlockBytes(b);
    forall j | 0 <= j < 8 {
      out[i + j] := packed[j];
    }
  }

  method CipherBlock(v0: nat, v1: nat, k: Key, encrypt: bool) returns (a: nat, b: nat)
    requires Fits(Block(v0, v1))
    ensures Block(a, b) == Ciphered(Block(v0, v1), k, encrypt)
  {
    if encrypt {
      a, b := EncryptBlock(v0, v1, k);
    } else {
      a, b := DecryptBlock(v0, v1, k);
    }
  }

  method Apply(data: bytes, k: Key, encrypt: bool) returns (r: bytes)
    ensures r == Stream(data, k, encrypt)
  {
    var out := new byte[|data|](_ => 0);
    var i := 0;
    ghost var done: bytes := [];
    ghost var blocks := 0;
    while i < |data| - 7
      invariant i == 8 * blocks <= |data|
      invariant out[..i] == done
      invariant done + Stream(data[i..], k, encrypt) == Stream(data, k, encrypt)
    {
      StreamNextBlock(data, i, k, encrypt);
      var a, b := CipherBlock(Word(data[i..i + 4]), Word(data[i + 4..i + 8]), k, encrypt);
      PutBlock(out, i, Block(a, b));
      Regroup(done, BlockBytes(Block(a, b)), Stream(data[i + 8..], k, encrypt));
      done := done + BlockBytes(Block(a, b));
      i := i + 8;
      blocks := blocks + 1;
    }
    TailStart(|data|, blocks);
    CopyTail(data, out, i);
    return out[..];
  }

  lemma TailStart(n: nat, blocks: nat)
    requires 8 * blocks <= n < 8 * blocks + 8
    ensures 8 * blocks == n - n % 8
  {
  }

  lemma Regroup(a: bytes, b: bytes, c: bytes)
    ensures a + (b + c) == (a + b) + c
  {
  }

  /** The bytes that do not fill a block are copied as they are. */
  method CopyTail(data: bytes, out: array<byte>, i: nat)
    requires i <= |data| == out.Length && i == |data| - |data| % 8
    modifies out
    ensures out[..] == old(out[..i]) + data[i..]
  {
    var tail := |data| % 8;
    if tail != 0 {
      forall j | |data| - tail <= j < |data| {
        out[j] := data[j];
      }
    }
  }

  lemma CipheredBack(b: Block, k: Key, encrypt: bool)
    requires Fits(b)
    ensures Ciphered(Ciphered(b, k, encrypt), k, !encrypt) == b
  {
    DecryptAfterEncrypt(b, k, ROUNDS);
    EncryptAfterDecrypt(b, k, ROUNDS);
  }

  lemma BlockComesBack(data: bytes, k: Key, encrypt: bool)
    requires |data| == 8
    ensures var c := BlockBytes(Ciphered(BlockOf(data), k, encrypt));
      BlockBytes(Ciphered(BlockOf(c), k, !encrypt)) == data
  {
    CipheredBack(BlockOf(data), k, encrypt);
    BlockBytesOfBlock(data);
  }

  /** For byte strings of every length, in both directions. */
  lemma {:induction false} StreamInverts(data: bytes, k: Key, encrypt: bool)
    ensures Stream(Stream(data, k, encrypt), k, !encrypt) == data
    decreases |data|
  {
    if |data| >= 8 {
      var s := Stream(data, k, encrypt);
      StreamSplits(data, k, encrypt);
      StreamSplits(s, k, !encrypt);
      BlockComesBack(data[..8], k, encrypt);
      StreamInverts(data[8..], k, encrypt);
      var back := Stream(s, k, !encrypt);
      assert back == back[..8] + back[8..] && data == data[..8] + data[8..];
    }
  }
}
