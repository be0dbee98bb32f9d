/** WebSocket framing as the bridge does it (RFC 6455, sections 5.2 and 5.3):
    reading masked client frames, writing unmasked server frames. */
module WsFrames {
  import opened Common
  import opened Bits

  // ----- big-endian integers ----------------------------------------------

  function Pow256(n: nat): (p: nat)
    ensures p >= 1
  {
    if n == 0 then 1 else 256 * Pow256(n - 1)
  }

  const U16: nat := 0x1_0000
  const U64: nat := 0x1_0000_0000_0000_0000

  lemma Pow256Of()
    ensures Pow256(2) == U16 && Pow256(8) == U64
  {
    assert Pow256(4) == U16 * U16;
    assert Pow256(6) == U16 * U16 * U16;
  }

  /** int.from_bytes(b, "big") */
  function FromBytes(b: bytes): (v: nat)
    ensures v < Pow256(|b|)
  {
    if b == [] then 0 else 256 * FromBytes(b[..|b| - 1]) + Byte(b[|b| - 1])
  }

  /** v.to_bytes(n, "big"), for a `v` that fits. */
  function ToBytes(v: nat, n: nat): (b: bytes)
    ensures |b| == n
  {
    if n == 0 then [] else ToBytes(v / 256, n - 1) + [v % 256]
  }

  lemma {:induction false} FromToBytes(v: nat, n: nat)
    requires v < Pow256(n)
    ensures FromBytes(ToBytes(v, n)) == v
  {
    if n > 0 {
      FromToBytes(v / 256, n - 1);
      assert ToBytes(v, n)[..n - 1] == ToBytes(v / 256, n - 1);
    }
  }

  lemma {:induction false} ToFromBytes(b: bytes)
    ensures ToBytes(FromBytes(b), |b|) == b
  {
    if b != [] {
      ToFromBytes(b[..|b| - 1]);
    }
  }

  // ----- masking ----------------------------------------------------------

  function Repeat(key: bytes, n: nat): (r: bytes)
    ensures |r| == n * |key|
  {
    if n == 0 then [] else Repeat(key, n - 1) + key
  }

  /** The whole payload as one integer, exclusive-or the repeated key. */
  function Unmask(data: bytes, key: bytes): (r: bytes)
    requires |key| == 4
    ensures |r| == |data|
  {
    if data == [] then data
    else
      var pad := Repeat(key, |data| / 4 + 1)[..|data|];
      ToBytes(Xor(FromBytes(data), FromBytes(pad)), |data|)
  }

  lemma {:induction false} RepeatAt(key: bytes, n: nat, i: nat)
    requires |key| == 4 && i < 4 * n
    ensures Repeat(key, n)[i] == key[i % 4]
  {
    if i < 4 * (n - 1) {
      RepeatAt(key, n - 1, i);
    } else {
      assert i % 4 == i - 4 * (n - 1);
    }
  }

  lemma XorOfBytes(a: byte, b: byte)
    ensures Xor(a, b) < 256
  {
    assert Shl(1, 8) == 256 by { ShlByte(1); }
    XorBelow(a, b, 8);
  }

  lemma XorLastByte(a: nat, x: byte, b: nat, y: byte)
    ensures Xor(256 * a + x, 256 * b + y) == 256 * Xor(a, b) + Xor(x, y)
  {
    ShlByte(a);
    ShlByte(b);
    ShlByte(Xor(a, b));
    assert Shl(1, 8) == 256 by { ShlByte(1); }
    XorParts(a, x, b, y, 8);
  }

  /** One exclusive-or of long integers is the exclusive-or of their bytes. */
  lemma {:induction false} BigXorIsBytewise(a: bytes, b: bytes, i: nat)
    requires |a| == |b| && i < |a|
    ensures Xor(FromBytes(a), FromBytes(b)) < Pow256(|a|)
    ensures ToBytes(Xor(FromBytes(a), FromBytes(b)), |a|)[i] == Xor(a[i], b[i])
    decreases |a|
  {
    var n := |a| - 1;
    var u, v := FromBytes(a[..n]), FromBytes(b[..n]);
    XorLastByte(u, a[n], v, b[n]);
    XorOfBytes(a[n], b[n]);
    assert Xor(FromBytes(a), FromBytes(b)) / 256 == Xor(u, v);
    if n == 0 {
      assert Xor(0, 0) == 0;
    } else {
      BigXorIsBytewise(a[..n], b[..n], if i < n then i else 0);
    }
  }

  /** Masking section 5.3: byte i is exclusive-or'ed with key byte i mod 4. */
  lemma UnmaskIsBytewise(data: bytes, key: bytes, i: nat)
    requires |key| == 4 && i < |data|
    ensures Unmask(data, key)[i] == Xor(data[i], key[i % 4])
  {
    var pad := Repeat(key, |data| / 4 + 1)[..|data|];
    BigXorIsBytewise(data, pad, i);
    RepeatAt(key, |data| / 4 + 1, i);
  }

  /** So the same key unmasks what it masked. */
  lemma UnmaskTwice(data: bytes, key: bytes)
    requires |key| == 4
    ensures Unmask(Unmask(data, key), key) == data
  {
    var m := Unmask(data, key);
    forall i | 0 <= i < |data| ensures Unmask(m, key)[i] == data[i] {
      UnmaskIsBytewise(data, key, i);
      UnmaskIsBytewise(m, key, i);
      XorTwice(data[i], key[i % 4]);
    }
  }

  // ----- reading ----------------------------------------------------------

  datatype Frame = Frame(fin: bool, opcode: nat, payload: bytes)

  datatype Fault = ReservedBits | NotMasked | TooLong | BadControl

  /** `Ended` is the clean end of the stream, also in the middle of a frame. */
  datatype Read = Got(frame: Frame) | Ended | Refused(fault: Fault)

  predicate Control(opcode: nat) {
    opcode == 8 || opcode == 9 || opcode == 10
  }

  /** The bytes of a connection and how far they have been read. */
  class Stream {
    const data: bytes
    var pos: nat

    constructor (data: bytes)
      ensures this.data == data && pos == 0
    {
      this.data, pos := data, 0;
    }

    ghost predicate Valid()
      reads this
    {
      pos <= |data|
    }

    ghost function Rest(): bytes
      reads this
      requires Valid()
    {
      data[pos..]
    }

    /** A short read at the end of the stream uses up what was left. */
    method ReadExactly(n: nat) returns (r: Option<bytes>)
      requires Valid()
      modifies this`pos
      ensures Valid()
      ensures old(|Rest()|) < n ==> r == None && Rest() == []
      ensures old(|Rest()|) >= n ==> r == Some(old(Rest())[..n]) && Rest() == old(Rest())[n..]
    {
      if n == 0 {
        assert Rest()[..0] == [] && Rest()[0..] == Rest();
        return Some([]);
      }
      if |data| - pos < n {
        pos := |data|;
        assert Rest() == [];
        return None;
      }
      assert data[pos..pos + n] == Rest()[..n] && data[pos + n..] == Rest()[n..];
      r := Some(data[pos..pos + n]);
      pos := pos + n;
    }

    method ReadFrame(maxFrame: int) returns (r: Read)
      requires Valid()
      modifies this`pos
      ensures Valid()
      ensures (r, Rest()) == NextFrame(old(Rest()), maxFrame)
    {
      ghost var s := Rest();
      var head := ReadExactly(2);
      if head.None? {
        return Ended;
      }
      var b0, b1 := head.value[0], head.value[1];
      if b0 / 16 % 8 != 0 {
        return Refused(ReservedBits);
      }
      var fin, opcode, masked := b0 >= 128, b0 % 16, b1 >= 128;
      var length: nat := b1 % 128;
      if length == 126 {
        var ext := ReadExactly(2);
        if ext.None? {
          return Ended;
        }
        length := FromBytes(ext.value);
        assert ext.value == s[2..4];
      } else if length == 127 {
        var ext := ReadExactly(8);
        if ext.None? {
          return Ended;
        }
        length := FromBytes(ext.value);
        assert ext.value == s[2..10];
      }
      ghost var rest := Rest();
      assert rest == s[2 + ExtraBytes(b1)..];
      assert NextFrame(s, maxFrame) == FrameBody(b0, masked, length, rest, maxFrame);
      r := ReadBody(fin, opcode, masked, length, maxFrame, b0);
    }

    method ReadBody(fin: bool, opcode: nat, masked: bool, length: nat, maxFrame: int, ghost b0: byte) returns (r: Read)
      requires Valid() && fin == (b0 >= 128) && opcode == b0 % 16
      modifies this`pos
      ensures Valid()
      ensures (r, Rest()) == FrameBody(b0, masked, length, old(Rest()), maxFrame)
    {
      ghost var rest := Rest();
      if !masked {
        return Refused(NotMasked);
      }
      if length > maxFrame {
        return Refused(TooLong);
      }
      if Control(opcode) && (length > 125 || !fin) {
        return Refused(BadControl);
      }
      var key := ReadExactly(4);
      if key.None? {
        return Ended;
      }
      var payload := ReadExactly(length);
      if payload.None? {
        return Ended;
      }
      assert payload.value == rest[4..4 + length];
      return Got(Frame(fin, opcode, Unmask(payload.value, key.value)));
    }
  }

  /** How many bytes of extended length follow the second byte. */
  function ExtraBytes(b1: byte): nat {
    if b1 % 128 == 126 then 2 else if b1 % 128 == 127 then 8 else 0
  }

  function LengthOf(b1: byte, ext: bytes): nat {
    if ExtraBytes(b1) == 0 then b1 % 128 else FromBytes(ext)
  }

  /** The checks once the length is known, then key and payload. */
  function FrameBody(b0: byte, masked: bool, length: nat, rest: bytes, maxFrame: int): (r: (Read, bytes))
    ensures |r.1| <= |rest|
  {
    if !masked then (Refused(NotMasked), rest)
    else if length > maxFrame then (Refused(TooLong), rest)
    else if Control(b0 % 16) && (length > 125 || b0 < 128) then (Refused(BadControl), rest)
    else if |rest| < 4 + length then (Ended, [])
    else (Got(Frame(b0 >= 128, b0 % 16, Unmask(rest[4..4 + length], rest[..4]))), rest[4 + length..])
  }

  /** The next frame of a stream, and what is left of the stream. */
  function NextFrame(s: bytes, maxFrame: int): (r: (Read, bytes))
    ensures r.0.Got? ==> |r.1| < |s|
  {
    if |s| < 2 then (Ended, [])
    else if s[0] / 16 % 8 != 0 then (Refused(ReservedBits), s[2..])
    else
      var at := 2 + ExtraBytes(s[1]);
      if |s| < at then (Ended, [])
      else FrameBody(s[0], s[1] >= 128, LengthOf(s[1], s[2..at]), s[at..], maxFrame)
  }

  // ----- the reference encoder --------------------------------------------

  /** The three ways section 5.2 writes a length. */
  datatype Form = Short | Medium | Long

  predicate FormFits(form: Form, n: nat) {
    match form
    case Short => n < 126
    case Medium => n < U16
    case Long => n < U64
  }

  function LengthBytes(form: Form, n: nat): bytes
    requires FormFits(form, n)
  {
    match form
    case Short => [128 + n]
    case Medium => [254] + ToBytes(n, 2)
    case Long => [255] + ToBytes(n, 8)
  }

  predicate Accepted(f: Frame, form: Form, maxFrame: int) {
    && f.opcode < 16
    && FormFits(form, |f.payload|)
    && |f.payload| <= maxFrame
    && (Control(f.opcode) ==> f.fin && |f.payload| <= 125)
  }

  function FirstByte(f: Frame): byte
    requires f.opcode < 16
  {
    (if f.fin then 128 else 0) + f.opcode
  }

  /** A client frame as section 5.2 lays it out, masked with `key`. */
  function Masked(f: Frame, form: Form, key: bytes): bytes
    requires f.opcode < 16 && FormFits(form, |f.payload|) && |key| == 4
  {
    [FirstByte(f)] + LengthBytes(form, |f.payload|) + key + Unmask(f.payload, key)
  }

  lemma LengthBytesRead(form: Form, n: nat)
    requires FormFits(form, n)
    ensures var l := LengthBytes(form, n);
      l[0] >= 128 && |l| == 1 + ExtraBytes(l[0]) && LengthOf(l[0], l[1..]) == n
  {
    Pow256Of();
    match form
    case Short =>
    case Medium => FromToBytes(n, 2); assert LengthBytes(form, n)[1..] == ToBytes(n, 2);
    case Long => FromToBytes(n, 8); assert LengthBytes(form, n)[1..] == ToBytes(n, 8);
  }

  lemma BodyReads(f: Frame, b0: byte, key: bytes, after: bytes, maxFrame: int)
    requires |key| == 4 && f.fin == (b0 >= 128) && f.opcode == b0 % 16 && |f.payload| <= maxFrame
    requires Control(f.opcode) ==> f.fin && |f.payload| <= 125
    ensures FrameBody(b0, true, |f.payload|, key + Unmask(f.payload, key) + after, maxFrame) == (Got(f), after)
  {
    var m := Unmask(f.payload, key);
    var rest := key + m + after;
    assert rest[..4] == key && rest[4..4 + |m|] == m && rest[4 + |m|..] == after;
    UnmaskTwice(f.payload, key);
  }

  /** Every accepted frame reads back, and exactly its bytes are used. */
  lemma ReadsWhatWasMasked(f: Frame, form: Form, key: bytes, after: bytes, maxFrame: int)
    requires Accepted(f, form, maxFrame) && |key| == 4
    ensures NextFrame(Masked(f, form, key) + after, maxFrame) == (Got(f), after)
  {
    var n := |f.payload|;
    var l := LengthBytes(form, n);
    var b0 := FirstByte(f);
    var tail := key + Unmask(f.payload, key) + after;
    LengthBytesRead(form, n);
    HeadReads(b0, l, tail, maxFrame);
    Regroup([b0], l, key, Unmask(f.payload, key), after);
    FirstByteParts(f);
    BodyReads(f, b0, key, after, maxFrame);
  }

  lemma Regroup(a: bytes, b: bytes, c: bytes, d: bytes, e: bytes)
    ensures a + b + c + d + e == a + b + (c + d + e)
  {
  }

  lemma FirstByteParts(f: Frame)
    requires f.opcode < 16
    ensures var b0 := FirstByte(f); b0 / 16 % 8 == 0 && (b0 >= 128) == f.fin && b0 % 16 == f.opcode
  {
  }

  /** First byte and length are peeled off, whatever follows. */
  lemma HeadReads(b0: byte, l: bytes, tail: bytes, maxFrame: int)
    requires b0 / 16 % 8 == 0 && |l| >= 1 && |l| == 1 + ExtraBytes(l[0])
    ensures NextFrame([b0] + l + tail, maxFrame) == FrameBody(b0, l[0] >= 128, LengthOf(l[0], l[1..]), tail, maxFrame)
  {
    HeadSplits(b0, l, tail);
  }

  lemma HeadSplits(b0: byte, l: bytes, tail: bytes)
    requires |l| >= 1
    ensures var s := [b0] + l + tail;
      s[0] == b0 && s[1] == l[0] && s[2..1 + |l|] == l[1..] && s[1 + |l|..] == tail
  {
  }

  function FormOf(b1: byte): Form {
    if ExtraBytes(b1) == 0 then Short else if ExtraBytes(b1) == 2 then Medium else Long
  }

  lemma LengthWasWritten(b1: byte, ext: bytes)
    requires b1 >= 128 && |ext| == ExtraBytes(b1)
    ensures FormFits(FormOf(b1), LengthOf(b1, ext)) && LengthBytes(FormOf(b1), LengthOf(b1, ext)) == [b1] + ext
  {
    Pow256Of();
    ToFromBytes(ext);
  }

  /** And only accepted frames are read: whatever comes out was in the stream
      as the encoding of that very frame. */
  lemma ReadFrameWasMasked(s: bytes, maxFrame: int)
    requires NextFrame(s, maxFrame).0.Got?
    ensures var f := NextFrame(s, maxFrame).0.frame; var form := FormOf(s[1]); var at := 2 + ExtraBytes(s[1]);
      && |s| >= at + 4 && Accepted(f, form, maxFrame)
      && s == Masked(f, form, s[at..at + 4]) + NextFrame(s, maxFrame).1
  {
    var at := 2 + ExtraBytes(s[1]);
    BodyWasMasked(s[0], LengthOf(s[1], s[2..at]), s[at..], maxFrame);
    LengthWasWritten(s[1], s[2..at]);
    FirstByteIs(s[0], NextFrame(s, maxFrame).0.frame);
    var f := NextFrame(s, maxFrame).0.frame;
    Ungroup(s, at, Unmask(f.payload, s[at..][..4]), NextFrame(s, maxFrame).1);
  }

  lemma Ungroup(s: bytes, at: nat, m: bytes, after: bytes)
    requires 2 <= at && at + 4 <= |s| && s[at..] == s[at..][..4] + m + after
    ensures s[at..][..4] == s[at..at + 4]
    ensures s == [s[0]] + ([s[1]] + s[2..at]) + s[at..at + 4] + m + after
  {
    assert s[at..][..4] == s[at..at + 4];
    assert s == [s[0]] + ([s[1]] + s[2..at]) + s[at..];
  }

  lemma BodyWasMasked(b0: byte, n: nat, rest: bytes, maxFrame: int)
    requires FrameBody(b0, true, n, rest, maxFrame).0.Got?
    ensures var (r, after) := FrameBody(b0, true, n, rest, maxFrame);
      |rest| >= 4 && |r.frame.payload| == n && rest == rest[..4] + Unmask(r.frame.payload, rest[..4]) + after
  {
    UnmaskTwice(rest[4..4 + n], rest[..4]);
  }

  lemma FirstByteIs(b0: byte, f: Frame)
    requires b0 / 16 % 8 == 0 && f.fin == (b0 >= 128) && f.opcode == b0 % 16
    ensures FirstByte(f) == b0
  {
  }

  // ----- whole streams ----------------------------------------------------

  /** All the frames of a stream up to the first that is not one, and the rest. */
  function AllFrames(s: bytes, maxFrame: int): (seq<Frame>, bytes)
    decreases |s|
  {
    var (r, rest) := NextFrame(s, maxFrame);
    if r.Got? then
      var (more, end) := AllFrames(rest, maxFrame);
      ([r.frame] + more, end)
    else ([], s)
  }

  /** One frame with the way it is written. */
  datatype Coded = Coded(frame: Frame, form: Form, key: bytes)

  predicate Sendable(c: Coded, maxFrame: int) {
    Accepted(c.frame, c.form, maxFrame) && |c.key| == 4
  }

  predicate AllSendable(cs: seq<Coded>, maxFrame: int) {
    forall i | 0 <= i < |cs| :: Sendable(cs[i], maxFrame)
  }

  function MaskedAll(cs: seq<Coded>, maxFrame: int): bytes
    requires AllSendable(cs, maxFrame)
  {
    if cs == [] then []
    else
      assert Sendable(cs[0], maxFrame);
      Masked(cs[0].frame, cs[0].form, cs[0].key) + MaskedAll(cs[1..], maxFrame)
  }

  function Frames(cs: seq<Coded>): (r: seq<Frame>)
    ensures |r| == |cs|
  {
    if cs == [] then [] else [cs[0].frame] + Frames(cs[1..])
  }

  /** A stream of accepted frames, however each one is masked and its length
      written, reads as exactly those frames, in order, and leaves what follows. */
  lemma {:induction false} StreamRoundTrip(cs: seq<Coded>, after: bytes, maxFrame: int)
    requires AllSendable(cs, maxFrame)
    requires !NextFrame(after, maxFrame).0.Got?
    ensures AllFrames(MaskedAll(cs, maxFrame) + after, maxFrame) == (Frames(cs), after)
  {
    if cs == [] {
      assert MaskedAll(cs, maxFrame) + after == after;
    } else {
      assert Sendable(cs[0], maxFrame);
      var first := Masked(cs[0].frame, cs[0].form, cs[0].key);
      var rest := MaskedAll(cs[1..], maxFrame);
      StreamRoundTrip(cs[1..], after, maxFrame);
      ReadsWhatWasMasked(cs[0].frame, cs[0].form, cs[0].key, rest + after, maxFrame);
      assert MaskedAll(cs, maxFrame) + after == first + (rest + after);
    }
  }

  // ----- writing ----------------------------------------------------------

  /** An unmasked server frame. `None` when the length does not fit 64 bits. */
  function ServerFrame(payload: bytes, opcode: nat): Option<bytes>
    requires opcode < 16
  {
    var n := |payload|;
    if n < 126 then Some([128 + opcode, n] + payload)
    else if n < U16 then Some([128 + opcode, 126] + ToBytes(n, 2) + payload)
    else if n < U64 then Some([128 + opcode, 127] + ToBytes(n, 8) + payload)
    else None
  }

  /** A browser's reading of an unmasked frame: final bit, opcode, payload, rest. */
  function BrowserReads(s: bytes): Option<(nat, bytes, bytes)> {
    if |s| < 2 || s[0] < 128 || s[1] >= 128 then None
    else
      var size := ExtraBytes(s[1]);
      if |s| < 2 + size then None
      else
        var n: nat := if size == 0 then s[1] else FromBytes(s[2..2 + size]);
        if |s| < 2 + size + n then None
        else Some((s[0] - 128, s[2 + size..2 + size + n], s[2 + size + n..]))
  }

  lemma BrowserReadsServerFrame(payload: bytes, opcode: nat, after: bytes)
    requires opcode < 16 && ServerFrame(payload, opcode).Some?
    ensures BrowserReads(ServerFrame(payload, opcode).value + after) == Some((opcode, payload, after))
  {
    var n := |payload|;
    var s := ServerFrame(payload, opcode).value + after;
    if n >= 126 {
      var size := ExtraBytes(s[1]);
      assert s[2..2 + size] == ToBytes(n, size);
      Pow256Of();
      FromToBytes(n, size);
    }
  }

  /** What a prefix of a stream already reads as, the whole stream reads as too. */
  lemma PrefixReads(t: bytes, s: bytes)
    requires t <= s && BrowserReads(t).Some?
    ensures BrowserReads(s).Some? && |BrowserReads(s).value.2| == |BrowserReads(t).value.2| + |s| - |t|
  {
    var size := ExtraBytes(t[1]);
    assert t[2..2 + size] == s[2..2 + size];
  }
}
