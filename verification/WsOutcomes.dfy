/** The bridge in numbers: what a frame's bytes say, what each thread answers, and
    what each handler of the accounting does next. */
module WsOutcomes {
  import opened Common
  import opened Bits
  import opened WsFrames
  import opened WsPipe
  import opened WsSlots

  // ----- a frame's bytes --------------------------------------------------

  /** Two and eight bytes, the most significant first. */
  function Two(b: bytes): nat
    requires |b| == 2
  {
    256 * Byte(b[0]) + Byte(b[1])
  }

  function Eight(b: bytes): nat
    requires |b| == 8
  {
    0x1_0000_0000_0000 * Two(b[..2]) + 0x1_0000_0000 * Two(b[2..4]) + 0x1_0000 * Two(b[4..6]) + Two(b[6..])
  }

  lemma FromTwo(b: bytes)
    requires |b| == 2
    ensures FromBytes(b) == Two(b)
  {
    assert b[..1][..0] == [] && b[..1][0] == b[0];
    assert FromBytes(b[..1]) == b[0];
  }

  lemma TwoMore(b: bytes)
    requires |b| >= 2
    ensures FromBytes(b) == 0x1_0000 * FromBytes(b[..|b| - 2]) + Two(b[|b| - 2..])
  {
    var n := |b| - 1;
    var c := b[..n];
    assert c[..n - 1] == b[..n - 1];
    assert FromBytes(b) == 256 * FromBytes(c) + Byte(b[n]);
    assert FromBytes(c) == 256 * FromBytes(b[..n - 1]) + Byte(b[n - 1]);
  }

  lemma FromEight(b: bytes)
    requires |b| == 8
    ensures FromBytes(b) == Eight(b)
  {
    TwoMore(b);
    TwoMore(b[..6]);
    TwoMore(b[..4]);
    FromTwo(b[..2]);
    assert b[..6][..4] == b[..4] && b[..4][..2] == b[..2] && b[..6][4..] == b[4..6] && b[..4][2..] == b[2..4];
  }

  /** The payload's length and where the mask stands, by the second byte. */
  predicate LengthIs(s: bytes, at: nat, n: nat) {
    && |s| >= at
    && match at
       case 2 => s[1] % 128 < 126 && n == s[1] % 128
       case 4 => s[1] % 128 == 126 && n == Two(s[2..4])
       case 10 => s[1] % 128 == 127 && n == Eight(s[2..10])
       case _ => false
  }

  /** What the first bytes of a stream read as: an unmasked frame is refused before
      its length is judged, a long one before it is looked at as a control frame,
      and only then are mask and payload waited for. */
  lemma FrameOutcome(s: bytes, at: nat, n: nat, maxFrame: int)
    requires |s| >= 2 && s[0] % 128 < 16 && LengthIs(s, at, n)
    ensures var (r, rest) := NextFrame(s, maxFrame); var control := 8 <= s[0] % 16 <= 10;
      && (s[1] < 128 ==> r == Refused(NotMasked))
      && (s[1] >= 128 && n > maxFrame ==> r == Refused(TooLong))
      && (s[1] >= 128 && n <= maxFrame && control && (n > 125 || s[0] < 128) ==> r == Refused(BadControl))
      && (s[1] >= 128 && n <= maxFrame && !(control && (n > 125 || s[0] < 128)) ==>
            if |s| < at + 4 + n then r == Ended
            else
              && r.Got? && r.frame.fin == (s[0] >= 128) && r.frame.opcode == s[0] % 16
              && |r.frame.payload| == n && rest == s[at + 4 + n..]
              && forall i | 0 <= i < n :: r.frame.payload[i] == Xor(s[at + 4 + i], s[at + i % 4]))
  {
    assert s[0] / 16 % 8 == 0 && at == 2 + ExtraBytes(s[1]);
    LengthRead(s, at, n);
    BodyOutcome(s, at, n, maxFrame);
  }

  lemma LengthRead(s: bytes, at: nat, n: nat)
    requires |s| >= 2 && LengthIs(s, at, n)
    ensures LengthOf(s[1], s[2..at]) == n
  {
    if at == 4 {
      FromTwo(s[2..4]);
    } else if at == 10 {
      FromEight(s[2..10]);
    }
  }

  lemma BodyOutcome(s: bytes, at: nat, n: nat, maxFrame: int)
    requires 2 <= at <= |s|
    ensures var (r, rest) := FrameBody(s[0], true, n, s[at..], maxFrame);
      r.Got? ==>
        && at + 4 + n <= |s| && |r.frame.payload| == n && rest == s[at + 4 + n..]
        && forall i | 0 <= i < n :: r.frame.payload[i] == Xor(s[at + 4 + i], s[at + i % 4])
  {
    if at + 4 + n <= |s| {
      var key, data := s[at..][..4], s[at..][4..4 + n];
      assert s[at..][4 + n..] == s[at + 4 + n..];
      forall i | 0 <= i < n ensures Unmask(data, key)[i] == Xor(s[at + 4 + i], s[at + i % 4]) {
        UnmaskIsBytewise(data, key, i);
      }
    }
  }

  /** A stream that stops before the length is known has ended, unless a reserved
      bit was seen first. */
  lemma HeadOutcome(s: bytes, maxFrame: int)
    ensures var r := NextFrame(s, maxFrame).0;
      && (|s| < 2 ==> r == Ended)
      && (|s| >= 2 && s[0] % 128 >= 16 ==> r == Refused(ReservedBits))
      && (2 <= |s| < 4 && s[0] % 128 < 16 && s[1] % 128 == 126 ==> r == Ended)
      && (2 <= |s| < 10 && s[0] % 128 < 16 && s[1] % 128 == 127 ==> r == Ended)
  {
  }

  /** A server frame: final bit and opcode, the shortest form of the length, no mask. */
  lemma ServerFrameOutcome(payload: bytes, opcode: nat)
    requires opcode < 16
    ensures var r, n := ServerFrame(payload, opcode), |payload|;
      && (r.Some? <==> n < 0x1_0000_0000_0000_0000)
      && (n < 126 ==> r == Some([128 + opcode, n] + payload))
      && (126 <= n < 0x1_0000 ==>
            |r.value| == 4 + n && r.value[..2] == [128 + opcode, 126] && Two(r.value[2..4]) == n
            && r.value[4..] == payload)
      && (0x1_0000 <= n < 0x1_0000_0000_0000_0000 ==>
            |r.value| == 10 + n && r.value[..2] == [128 + opcode, 127] && Eight(r.value[2..10]) == n
            && r.value[10..] == payload)
  {
    Pow256Of();
    var n := |payload|;
    if 126 <= n < U16 {
      FromToBytes(n, 2);
      FromTwo(ToBytes(n, 2));
      assert ServerFrame(payload, opcode).value[2..4] == ToBytes(n, 2);
    } else if U16 <= n < U64 {
      FromToBytes(n, 8);
      FromEight(ToBytes(n, 8));
      assert ServerFrame(payload, opcode).value[2..10] == ToBytes(n, 8);
    }
  }

  // ----- what the two threads answer --------------------------------------

  /** The frame in hand, when the send it leads to succeeds: data goes to the game,
      a ping is answered by a pong with its payload, a pong by nothing, a close ends
      the thread, and text or anything else is complained about. */
  lemma HandledOutcome(l: Link, f: Frame, maxFrame: int)
    requires l.up.pump == Handling(f) && Can(l, HandleFrame(All))
    ensures var (k, op) := (Step(l, HandleFrame(All), maxFrame), f.opcode);
      && k.closed == l.closed && k.up.cut == l.up.cut && k.up.rest == l.up.rest && k.down.torn == l.down.torn
      && k.up.toGame == l.up.toGame + (if op == 0 || op == 2 then f.payload else [])
      && k.down.sent == l.down.sent + (if op == 9 then [Message(10, f.payload)] else [])
      && k.up.pump == if op == 0 || op == 2 || op == 9 || op == 10 then Checking
                      else if op == 8 then Finishing else Complaining
  {
    assert l.up.toGame + [] == l.up.toGame && l.down.sent + [] == l.down.sent;
  }

  /** When it fails, what did get through is kept, the socket is dead, and the
      thread is cut off; a frame without a send cannot fail. */
  lemma FailedOutcome(l: Link, f: Frame, n: nat, maxFrame: int)
    requires l.up.pump == Handling(f) && Can(l, HandleFrame(Only(n)))
    ensures var (k, op) := (Step(l, HandleFrame(Only(n)), maxFrame), f.opcode);
      && ((op == 0 || op == 2) && f.payload != [] ==>
            && n <= |f.payload| && k.up.toGame == l.up.toGame + f.payload[..n] && k.up.dead
            && k.up.pump == Finishing && k.up.cut && k.down == l.down)
      && (op == 9 ==>
            && k.down.sent == l.down.sent && k.down.dead && k.up.pump == Finishing && k.up.cut
            && k.up.toGame == l.up.toGame
            && k.down.torn == if n > 0 then Some((Message(10, f.payload), n)) else l.down.torn)
      && (op != 9 && (op == 0 || op == 2 ==> f.payload == []) ==>
            k == Step(l, HandleFrame(All), maxFrame))
  {
  }

  /** The close frames: code 1000 when the game is done, code 1002 and the reason
      for a client that broke the protocol. */
  lemma CloseOutcome(l: Link, text: bytes, maxFrame: int)
    ensures Can(l, SayGoodbye(All)) ==>
      var k := Step(l, SayGoodbye(All), maxFrame);
      k.down.sent == l.down.sent + [Message(8, [3, 232])] && k.down.pump == Closing && k.up == l.up
    ensures Can(l, Complain(text, All)) ==>
      var k := Step(l, Complain(text, All), maxFrame);
      k.down.sent == l.down.sent + [Message(8, [3, 234] + text)] && k.up.pump == Finishing
  {
    assert ToBytes(3, 1) == [3];
    assert ToBytes(1000, 2) == [3, 232] && ToBytes(1002, 2) == [3, 234];
  }

  /** The game's bytes go out as one binary frame a chunk, and the thread takes the
      next chunk unless the send failed or the connection was closed meanwhile. */
  lemma ChunkOutcome(l: Link, chunk: bytes, how: Outcome, maxFrame: int)
    requires l.down.pump == Holding(chunk) && Can(l, ForwardChunk(how))
    ensures var k := Step(l, ForwardChunk(how), maxFrame);
      && k.up == l.up && k.closed == l.closed && k.down.game == l.down.game
      && k.down.sent == l.down.sent + (if how == All then [Message(2, chunk)] else [])
      && k.down.pump == (if how == All && !l.closed then Receiving else Ending)
  {
    assert l.down.sent + [] == l.down.sent;
  }

  /** The other steps: reading, the shared flag, and shutting down, which sets the
      flag and ends both sockets. */
  lemma FlagOutcome(l: Link, e: Event, maxFrame: int)
    requires Can(l, e)
    ensures var (k, r) := (Step(l, e, maxFrame), NextFrame(l.up.rest, maxFrame).0);
      && (e == BrowserCheck ==> k.down == l.down && k.up.pump == (if l.closed then Finishing else Reading))
      && (e == BrowserFrame ==>
            k.down == l.down && k.up.toGame == l.up.toGame && k.up.rest == NextFrame(l.up.rest, maxFrame).1
            && k.up.pump == match r case Got(f) => Handling(f) case Ended => Finishing case Refused(_) => Complaining)
      && (e == BrowserFails ==> k.down == l.down && k.up.pump == Finishing && k.up.toGame == l.up.toGame)
      && (e == CheckFlag ==> k.up == l.up && k.down.pump == (if l.closed then Closing else Farewell))
      && (e == GameEnds || e == GameFails ==> k.up == l.up && k.down.pump == Ending && k.down.sent == l.down.sent)
      && (e == GameShutdown ==> k.closed && k.down.pump == Stopped && (l.closed || (k.down.dead && k.up.dead)))
      && (e == BrowserShutdown ==> k.closed && k.up.pump == Over && (l.closed || (k.down.dead && k.up.dead)))
  {
  }

  /** The game may send 1 to 16384 bytes at a time, and a send on a live socket may
      succeed or stop after any number of bytes. */
  lemma GameMaySend(l: Link, chunk: bytes, f: Frame, how: Outcome)
    ensures l.down.pump == Receiving ==> (Can(l, GameSends(chunk)) <==> 1 <= |chunk| <= 16384)
    ensures l.down.pump == Holding(chunk) && |chunk| <= 16384 && !l.down.dead ==> Can(l, ForwardChunk(how))
    ensures l.up.pump == Handling(f) && (f.opcode == 0 || f.opcode == 2) && !l.up.dead ==>
      Can(l, HandleFrame(All)) && forall n: nat | n <= |f.payload| :: Can(l, HandleFrame(Only(n)))
  {
  }

  /** A connection starts open, with nothing sent, one thread waiting for the game
      and the other for the first frame. */
  lemma FreshOutcome(input: bytes)
    ensures var l := Fresh(input);
      && !l.closed && !l.down.dead && !l.up.dead && !l.down.cut && !l.up.cut
      && l.down.pump == Receiving && l.down.game == [] && l.down.sent == [] && l.down.torn == None
      && l.up.pump == Checking && l.up.rest == input && l.up.toGame == []
  {
  }

  /** Neither thread ever waits for the other: each has a step until it is over. */
  lemma NeitherIsStuck(l: Link) returns (down: Event, up: Event)
    requires l.down.pump.Holding? ==> |l.down.pump.chunk| < U64
    requires l.up.pump.Handling? ==> |l.up.pump.frame.payload| < U64
    ensures l.down.pump != Stopped ==> Can(l, down)
    ensures l.up.pump != Over ==> Can(l, up)
  {
    down := match l.down.pump
      case Receiving => GameFails
      case Holding(_) => ForwardChunk(Only(0))
      case Ending => CheckFlag
      case Farewell => SayGoodbye(Only(0))
      case _ => GameShutdown;
    up := match l.up.pump
      case Checking => BrowserCheck
      case Reading => BrowserFrame
      case Handling(_) => HandleFrame(Only(0))
      case Complaining => Complain([], Only(0))
      case _ => BrowserShutdown;
  }

  // ----- what each handler does next --------------------------------------

  /** Places an address has taken. */
  function Places(perIp: map<Address, nat>, ip: Address): nat {
    if ip in perIp then perIp[ip] else 0
  }

  /** Only the count of one address differs, and a count of nought is not kept. */
  predicate CountBecomes(was: map<Address, nat>, now: map<Address, nat>, ip: Address, n: nat) {
    if n == 0 then now == was - {ip} else now == was[ip := n]
  }

  predicate SlotBack(b: Bridge, m: Limits, k: Bridge, at: Stage) {
    && k.perIp == b.perIp
    && if b.free < m.connections then at == Gone && k.free == b.free + 1 else at == Broken && k.free == b.free
  }

  /** An arriving handler takes a slot when one is free and is turned away when not;
      one with a slot is served below its address's limit and gives the slot back at
      it; a served one first gives its address's place back and then the slot, which
      the semaphore refuses when it is full. The others stay where they are. */
  lemma AdvanceOutcome(b: Bridge, m: Limits, i: nat)
    requires i < |b.handlers|
    ensures var (h, k) := (b.handlers[i], Next(b, m, Advance(i)));
      && |k.handlers| == |b.handlers| && k.handlers[i].ip == h.ip
      && (forall j | 0 <= j < |b.handlers| && j != i :: k.handlers[j] == b.handlers[j])
      && var (at, n) := (k.handlers[i].stage, Places(b.perIp, h.ip));
         match h.stage
         case Arriving =>
           k.perIp == b.perIp && if b.free > 0 then at == HasSlot && k.free == b.free - 1 else at == Gone && k.free == 0
         case HasSlot =>
           k.free == b.free && if n < m.perIp then at == Serving && CountBecomes(b.perIp, k.perIp, h.ip, n + 1)
                               else at == GivingBack && k.perIp == b.perIp
         case GivingBack => SlotBack(b, m, k, at)
         case Serving =>
           at == Leaving && k.free == b.free && CountBecomes(b.perIp, k.perIp, h.ip, if n > 0 then n - 1 else 0)
         case Leaving => SlotBack(b, m, k, at)
         case _ => k == b
  {
  }
}
