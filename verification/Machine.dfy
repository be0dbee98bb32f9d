/** A 32-bit machine, as far as the cipher needs one, and what it makes of zeros. */
module Machine {
  function Differ(x: bv32, y: bv32): bv32 {
    x ^ y
  }

  function Add(x: bv32, y: bv32): bv32 {
    x + y
  }

  function Left(x: bv32): bv32 {
    x << 4
  }

  function Right(x: bv32): bv32 {
    x >> 5
  }

  const STEP: bv32 := 0x9E3779B9

  /** The two halves of a block and the running sum. */
  datatype Registers = Registers(v0: bv32, v1: bv32, s: bv32)

  function Mixed(v: bv32, s: bv32, k: bv32): bv32 {
    Differ(Add(Differ(Left(v), Right(v)), v), Add(s, k))
  }

  /** One round, given the two key words it calls for. */
  function Next(r: Registers, k0: bv32, k1: bv32): Registers {
    var v0 := Add(r.v0, Mixed(r.v1, r.s, k0));
    var s := Add(r.s, STEP);
    Registers(v0, Add(r.v1, Mixed(v0, s, k1)), s)
  }

  /** Zeros after `n` rounds under the zero key. */
  function FromZeros(n: nat): Registers {
    if n == 0 then Registers(0, 0, 0) else Next(FromZeros(n - 1), 0, 0)
  }

  lemma Onward(n: nat, r: Registers, q: Registers)
    requires FromZeros(n) == r && Next(r, 0, 0) == q
    ensures FromZeros(n + 1) == q
  {
  }

  lemma Rounds0To8(n: nat)
    requires FromZeros(n) == Registers(0, 0, 0)
    ensures FromZeros(n + 8) == Registers(0x2FCA0CF4, 0x16428170, 0xF1BBCDC8)
  {
    Onward(n, Registers(0, 0, 0), Registers(0x00000000, 0x9E3779B9, 0x9E3779B9));
    Onward(n + 1, Registers(0x00000000, 0x9E3779B9, 0x9E3779B9), Registers(0x1B8AE3AF, 0x8DCB1CA7, 0x3C6EF372));
    Onward(n + 2, Registers(0x1B8AE3AF, 0x8DCB1CA7, 0x3C6EF372), Registers(0x764F3FFD, 0x9501C7AE, 0xDAA66D2B));
    Onward(n + 3, Registers(0x764F3FFD, 0x9501C7AE, 0xDAA66D2B), Registers(0xA95F919D, 0xD7D057CB, 0x78DDE6E4));
    Onward(n + 4, Registers(0xA95F919D, 0xD7D057CB, 0x78DDE6E4), Registers(0xD4B144DA, 0x0D46C4C8, 0x1715609D));
    Onward(n + 5, Registers(0xD4B144DA, 0x0D46C4C8, 0x1715609D), Registers(0xCB09A4CD, 0x41CE415D, 0xB54CDA56));
    Onward(n + 6, Registers(0xCB09A4CD, 0x41CE415D, 0xB54CDA56), Registers(0xA0FE182E, 0x3A2F1F9D, 0x5384540F));
    Onward(n + 7, Registers(0xA0FE182E, 0x3A2F1F9D, 0x5384540F), Registers(0x2FCA0CF4, 0x16428170, 0xF1BBCDC8));
  }

  lemma Rounds8To16(n: nat)
    requires FromZeros(n) == Registers(0x2FCA0CF4, 0x16428170, 0xF1BBCDC8)
    ensures FromZeros(n + 8) == Registers(0x2A72A594, 0x1072425F, 0xE3779B90)
  {
    Onward(n, Registers(0x2FCA0CF4, 0x16428170, 0xF1BBCDC8), Registers(0xBB3156A7, 0x144FF25D, 0x8FF34781));
    Onward(n + 1, Registers(0xBB3156A7, 0x144FF25D, 0x8FF34781), Registers(0x928F61C5, 0xA52AFA76, 0x2E2AC13A));
    Onward(n + 2, Registers(0x928F61C5, 0xA52AFA76, 0x2E2AC13A), Registers(0x652A8BD8, 0x1FF949BB, 0xCC623AF3));
    Onward(n + 3, Registers(0x652A8BD8, 0x1FF949BB, 0xCC623AF3), Registers(0x38312D23, 0xF196868B, 0x6A99B4AC));
    Onward(n + 4, Registers(0x38312D23, 0xF196868B, 0x6A99B4AC), Registers(0xB31404C6, 0xE0D465F4, 0x08D12E65));
    Onward(n + 5, Registers(0xB31404C6, 0xE0D465F4, 0x08D12E65), Registers(0x96D850CC, 0x87D91D00, 0xA708A81E));
    Onward(n + 6, Registers(0x96D850CC, 0x87D91D00, 0xA708A81E), Registers(0x3D58EEC2, 0xDCD658CF, 0x454021D7));
    Onward(n + 7, Registers(0x3D58EEC2, 0xDCD658CF, 0x454021D7), Registers(0x2A72A594, 0x1072425F, 0xE3779B90));
  }

  lemma Rounds16To24(n: nat)
    requires FromZeros(n) == Registers(0x2A72A594, 0x1072425F, 0xE3779B90)
    ensures FromZeros(n + 8) == Registers(0xFB9F49AA, 0x991824E1, 0xD5336958)
  {
    Onward(n, Registers(0x2A72A594, 0x1072425F, 0xE3779B90), Registers(0x25E10765, 0x1501D2F8, 0x81AF1549));
    Onward(n + 1, Registers(0x25E10765, 0x1501D2F8, 0x81AF1549), Registers(0x09FAE8AB, 0xCB3C9C9A, 0x1FE68F02));
    Onward(n + 2, Registers(0x09FAE8AB, 0xCB3C9C9A, 0x1FE68F02), Registers(0xA9252F87, 0xC99BA4C2, 0xBE1E08BB));
    Onward(n + 3, Registers(0xA9252F87, 0xC99BA4C2, 0xBE1E08BB), Registers(0x80B16CFA, 0x9D2CD877, 0x5C558274));
    Onward(n + 4, Registers(0x80B16CFA, 0x9D2CD877, 0x5C558274), Registers(0xAFB5A558, 0xF47E3AA6, 0xFA8CFC2D));
    Onward(n + 5, Registers(0xAFB5A558, 0xF47E3AA6, 0xFA8CFC2D), Registers(0x7DE80FCE, 0xB811F430, 0x98C475E6));
    Onward(n + 6, Registers(0x7DE80FCE, 0xB811F430, 0x98C475E6), Registers(0x221DC505, 0x2C236112, 0x36FBEF9F));
    Onward(n + 7, Registers(0x221DC505, 0x2C236112, 0x36FBEF9F), Registers(0xFB9F49AA, 0x991824E1, 0xD5336958));
  }

  lemma Rounds24To32(n: nat)
    requires FromZeros(n) == Registers(0xFB9F49AA, 0x991824E1, 0xD5336958)
    ensures FromZeros(n + 8) == Registers(0xDEE9D4D8, 0xF7131ED9, 0xC6EF3720)
  {
    Onward(n, Registers(0xFB9F49AA, 0x991824E1, 0xD5336958), Registers(0xF6F126EA, 0xC6161271, 0x736AE311));
    Onward(n + 1, Registers(0xF6F126EA, 0xC6161271, 0x736AE311), Registers(0x54FE71CF, 0x79B34FF8, 0x11A25CCA));
    Onward(n + 2, Registers(0x54FE71CF, 0x79B34FF8, 0x11A25CCA), Registers(0x580D5B0C, 0xEFAE339F, 0xAFD9D683));
    Onward(n + 3, Registers(0x580D5B0C, 0xEFAE339F, 0xAFD9D683), Registers(0x9AA30594, 0xF7474ADB, 0x4E11503C));
    Onward(n + 4, Registers(0x9AA30594, 0xF7474ADB, 0x4E11503C), Registers(0xBFA7B891, 0x4AADEF6B, 0xEC48C9F5));
    Onward(n + 5, Registers(0xBFA7B891, 0x4AADEF6B, 0xEC48C9F5), Registers(0xDF18F954, 0xA6BDF7DB, 0x8A8043AE));
    Onward(n + 6, Registers(0xDF18F954, 0xA6BDF7DB, 0x8A8043AE), Registers(0x7E41C39B, 0xF5563DFB, 0x28B7BD67));
    Onward(n + 7, Registers(0x7E41C39B, 0xF5563DFB, 0x28B7BD67), Registers(0xDEE9D4D8, 0xF7131ED9, 0xC6EF3720));
  }

  lemma AllRounds(n: nat)
    requires FromZeros(n) == Registers(0, 0, 0)
    ensures FromZeros(n + 32) == Registers(0xDEE9D4D8, 0xF7131ED9, 0xC6EF3720)
  {
    Rounds0To8(n);
    Rounds8To16(n + 8);
    Rounds16To24(n + 16);
    Rounds24To32(n + 24);
  }

  /** What 32 rounds under the zero key make of zeros. */
  lemma ZerosAfter32(none: nat, n: nat)
    requires none == 0 && n == 32
    ensures FromZeros(n) == Registers(0xDEE9D4D8, 0xF7131ED9, 0xC6EF3720)
  {
    assert FromZeros(none) == Registers(0, 0, 0);
    AllRounds(none);
    assert n == none + 32;
  }
}
