/** One browser connection joined to one game connection: two threads that copy
    in opposite directions and share a closed flag, in any scheduling. */
module WsPipe {
  import opened Common
  import opened Bits
  import opened WsFrames

  const RECV: nat := 16384

  // ----- what each side should see ----------------------------------------

  /** The bytes a client stream carries to the game: the payloads of opcodes 0
      and 2 up to the first close, bad or foreign frame, or the end. */
  function Carried(s: bytes, maxFrame: int): bytes
    decreases |s|, 0
  {
    var (r, rest) := NextFrame(s, maxFrame);
    if !r.Got? then [] else CarriedFrom(r.frame, rest, maxFrame)
  }

  function CarriedFrom(f: Frame, rest: bytes, maxFrame: int): bytes
    decreases |rest|, 1
  {
    if f.opcode == 0 || f.opcode == 2 then f.payload + Carried(rest, maxFrame)
    else if f.opcode == 9 || f.opcode == 10 then Carried(rest, maxFrame)
    else []
  }

  datatype Message = Message(opcode: nat, payload: bytes)

  /** All the frames a browser can read from a server stream. */
  function Received(s: bytes): seq<Message>
    decreases |s|
  {
    match BrowserReads(s)
    case None => []
    case Some((opcode, payload, rest)) => [Message(opcode, payload)] + Received(rest)
  }

  function Data(ms: seq<Message>): bytes {
    if ms == [] then []
    else Data(ms[..|ms| - 1]) + (if ms[|ms| - 1].opcode == 2 then ms[|ms| - 1].payload else [])
  }

  // ----- the two threads --------------------------------------------------

  datatype GamePump = Receiving | Holding(chunk: bytes) | Ending | Farewell | Closing | Stopped

  datatype BrowserPump = Checking | Reading | Handling(frame: Frame) | Complaining | Finishing | Over

  /** The direction from the game: what the game has sent so far, the frames
      written whole to the browser, and a last one that broke off after some
      bytes. `cut` says that the pump was ended by an error or by the other
      thread instead of by its own stream. */
  datatype Down = Down(
    game: bytes, pump: GamePump, cut: bool, sent: seq<Message>, torn: Option<(Message, nat)>, dead: bool)

  /** The direction to the game: what the browser still has on its way, and the
      bytes written to the game. */
  datatype Up = Up(rest: bytes, pump: BrowserPump, cut: bool, toGame: bytes, dead: bool)

  datatype Link = Link(closed: bool, down: Down, up: Up)

  /** How one `sendall` ends: all of it, or an error after some bytes, at most
      all but one of a frame. */
  datatype Outcome = All | Only(n: nat)

  datatype Event =
    | GameSends(chunk: bytes)
    | GameEnds
    | GameFails
    | ForwardChunk(how: Outcome)
    | CheckFlag
    | SayGoodbye(how: Outcome)
    | GameShutdown
    | BrowserCheck
    | BrowserFrame
    | BrowserFails
    | HandleFrame(how: Outcome)
    | Complain(text: bytes, how: Outcome)
    | BrowserShutdown

  /** A send on a dead socket fails before the first byte. */
  predicate SendCan(dead: bool, how: Outcome) {
    dead ==> how == Only(0)
  }

  predicate Whole(m: Message) {
    m.opcode < 16 && |m.payload| < U64
  }

  function WireBytes(m: Message): (b: bytes)
    requires Whole(m)
  {
    ServerFrame(m.payload, m.opcode).value
  }

  /** The send lock makes one frame one step. */
  predicate FrameCan(d: Down, m: Message, how: Outcome) {
    Whole(m) && SendCan(d.dead, how)
  }

  function SendFrame(d: Down, m: Message, how: Outcome): Down
    requires FrameCan(d, m, how)
  {
    match how
    case All => d.(sent := d.sent + [m])
    case Only(n) => d.(torn := if n > 0 then Some((m, n)) else d.torn, dead := true)
  }

  /** Close frames: code 1000, and code 1002 with the reason. */
  function Goodbye(): Message {
    Message(8, ToBytes(1000, 2))
  }

  function Complaint(text: bytes): Message {
    Message(8, ToBytes(1002, 2) + text)
  }

  predicate CanHandle(l: Link, f: Frame, how: Outcome) {
    if f.opcode == 0 || f.opcode == 2 then
      f.payload == [] || (SendCan(l.up.dead, how) && (how.Only? ==> how.n <= |f.payload|))
    else if f.opcode == 9 then FrameCan(l.down, Pong(f), how)
    else true
  }

  function Pong(ping: Frame): Message {
    Message(10, ping.payload)
  }

  predicate Can(l: Link, e: Event) {
    match e
    case GameSends(chunk) => l.down.pump == Receiving && 0 < |chunk| <= RECV
    case GameEnds => l.down.pump == Receiving && !l.closed && !l.up.dead
    case GameFails => l.down.pump == Receiving
    case ForwardChunk(how) => l.down.pump.Holding? && FrameCan(l.down, Message(2, l.down.pump.chunk), how)
    case CheckFlag => l.down.pump == Ending
    case SayGoodbye(how) => l.down.pump == Farewell && FrameCan(l.down, Goodbye(), how)
    case GameShutdown => l.down.pump == Closing
    case BrowserCheck => l.up.pump == Checking
    case BrowserFrame => l.up.pump == Reading
    case BrowserFails => l.up.pump == Reading
    case HandleFrame(how) => l.up.pump.Handling? && CanHandle(l, l.up.pump.frame, how)
    case Complain(text, how) => l.up.pump == Complaining && |text| <= 100 && FrameCan(l.down, Complaint(text), how)
    case BrowserShutdown => l.up.pump == Finishing
  }

  /** Both sockets go down with the flag, once. */
  function Shutdown(l: Link): Link {
    if l.closed then l else Link(true, l.down.(dead := true), l.up.(dead := true))
  }

  function Forwarded(d: Down, chunk: bytes, how: Outcome, closed: bool): Down
    requires FrameCan(d, Message(2, chunk), how)
  {
    SendFrame(d, Message(2, chunk), how)
      .(pump := if how.All? && !closed then Receiving else Ending, cut := d.cut || !how.All? || closed)
  }

  /** The game-bound thread reads a frame and looks at what came. */
  function TookNext(u: Up, maxFrame: int): Up {
    var (r, rest) := NextFrame(u.rest, maxFrame);
    match r
    case Got(f) => u.(rest := rest, pump := Handling(f))
    case Ended => u.(rest := rest, pump := Finishing)
    case Refused(_) => u.(rest := rest, pump := Complaining)
  }

  /** And then does what the opcode asks for on its own side. */
  function Handled(u: Up, f: Frame, how: Outcome): Up
    requires how.Only? && (f.opcode == 0 || f.opcode == 2) ==> how.n <= |f.payload| || f.payload == []
  {
    if f.opcode == 0 || f.opcode == 2 then
      if f.payload == [] then u.(pump := Checking)
      else
        (match how
         case All => u.(toGame := u.toGame + f.payload, pump := Checking)
         case Only(n) => u.(toGame := u.toGame + f.payload[..n], dead := true, pump := Finishing, cut := true))
    else if f.opcode == 9 then
      (if how.All? then u.(pump := Checking) else u.(pump := Finishing, cut := true))
    else if f.opcode == 10 then u.(pump := Checking)
    else if f.opcode == 8 then u.(pump := Finishing)
    else u.(pump := Complaining)
  }

  function Step(l: Link, e: Event, maxFrame: int): Link
    requires Can(l, e)
  {
    match e
    case GameSends(chunk) => l.(down := l.down.(game := l.down.game + chunk, pump := Holding(chunk)))
    case GameEnds => l.(down := l.down.(pump := Ending))
    case GameFails => l.(down := l.down.(pump := Ending, cut := true))
    case ForwardChunk(how) => l.(down := Forwarded(l.down, l.down.pump.chunk, how, l.closed))
    case CheckFlag => l.(down := l.down.(pump := if l.closed then Closing else Farewell))
    case SayGoodbye(how) => l.(down := SendFrame(l.down, Goodbye(), how).(pump := Closing))
    case GameShutdown => var s := Shutdown(l); s.(down := s.down.(pump := Stopped))
    case BrowserCheck =>
      l.(up := if l.closed then l.up.(pump := Finishing, cut := true) else l.up.(pump := Reading))
    case BrowserFrame => l.(up := TookNext(l.up, maxFrame))
    case BrowserFails => l.(up := l.up.(pump := Finishing, cut := true))
    case HandleFrame(how) =>
      var f := l.up.pump.frame;
      l.(up := Handled(l.up, f, how), down := if f.opcode == 9 then SendFrame(l.down, Pong(f), how) else l.down)
    case Complain(text, how) => l.(down := SendFrame(l.down, Complaint(text), how), up := l.up.(pump := Finishing))
    case BrowserShutdown => var s := Shutdown(l); s.(up := s.up.(pump := Over))
  }

  function Fresh(input: bytes): Link {
    Link(false, Down([], Receiving, false, [], None, false), Up(input, Checking, false, [], false))
  }

  predicate CanAll(l: Link, es: seq<Event>, maxFrame: int)
    decreases |es|, 0
  {
    es == [] || (
      var k := |es| - 1;
      CanAll(l, es[..k], maxFrame) && Can(Steps(l, es[..k], maxFrame), es[k]))
  }

  function Steps(l: Link, es: seq<Event>, maxFrame: int): Link
    requires CanAll(l, es, maxFrame)
    decreases |es|, 1
  {
    if es == [] then l
    else Step(Steps(l, es[..|es| - 1], maxFrame), es[|es| - 1], maxFrame)
  }

  // ----- towards the browser ----------------------------------------------

  predicate AllWhole(ms: seq<Message>) {
    forall i | 0 <= i < |ms| :: Whole(ms[i])
  }

  function Wire(ms: seq<Message>): bytes
    requires AllWhole(ms)
  {
    if ms == [] then []
    else
      assert Whole(ms[0]);
      WireBytes(ms[0]) + Wire(ms[1..])
  }

  predicate TornFits(torn: Option<(Message, nat)>) {
    torn.Some? ==> Whole(torn.value.0)
  }

  /** The bytes on the browser's socket. */
  function Out(d: Down): bytes
    requires AllWhole(d.sent) && TornFits(d.torn)
  {
    Wire(d.sent) + TornBytes(d.torn)
  }

  function TornBytes(torn: Option<(Message, nat)>): bytes
    requires TornFits(torn)
  {
    match torn
    case None => []
    case Some((m, n)) =>
      var b := WireBytes(m);
      if n < |b| then b[..n] else b[..|b| - 1]
  }

  /** A frame that broke off is no frame to the browser. */
  lemma TornDoesNotRead(torn: Option<(Message, nat)>)
    requires TornFits(torn)
    ensures BrowserReads(TornBytes(torn)).None?
  {
    if torn.Some? {
      var m := torn.value.0;
      var s, t := WireBytes(m), TornBytes(torn);
      BrowserReadsServerFrame(m.payload, m.opcode, []);
      assert s + [] == s;
      if BrowserReads(t).Some? {
        PrefixReads(t, s);
      }
    }
  }

  lemma {:induction false} WireIsReceived(ms: seq<Message>, torn: Option<(Message, nat)>)
    requires AllWhole(ms) && TornFits(torn)
    ensures Received(Wire(ms) + TornBytes(torn)) == ms
  {
    var tail := TornBytes(torn);
    if ms == [] {
      assert Wire(ms) + tail == tail;
      TornDoesNotRead(torn);
    } else {
      assert Whole(ms[0]);
      var rest := Wire(ms[1..]) + tail;
      assert Wire(ms) + tail == WireBytes(ms[0]) + rest;
      BrowserReadsServerFrame(ms[0].payload, ms[0].opcode, rest);
      WireIsReceived(ms[1..], torn);
    }
  }

  /** Whole frames, then at most one torn frame, and that only once the socket
      is dead; the data among them is what the game sent, but for the chunk in
      hand, unless the pump was cut off. */
  predicate BrowserSide(d: Down) {
    && AllWhole(d.sent) && TornFits(d.torn) && (d.torn.Some? ==> d.dead)
    && Data(d.sent) <= d.game
    && match d.pump
       case Receiving => Data(d.sent) == d.game
       case Holding(chunk) => Data(d.sent) + chunk == d.game
       case _ => !d.cut ==> Data(d.sent) == d.game
  }

  lemma DataGrows(ms: seq<Message>, m: Message)
    ensures Data(ms + [m]) == Data(ms) + if m.opcode == 2 then m.payload else []
  {
    assert (ms + [m])[..|ms|] == ms;
  }

  lemma ForwardKeeps(d: Down, chunk: bytes, how: Outcome, closed: bool)
    requires BrowserSide(d) && d.pump == Holding(chunk) && FrameCan(d, Message(2, chunk), how)
    ensures BrowserSide(Forwarded(d, chunk, how, closed))
  {
    DataGrows(d.sent, Message(2, chunk));
  }

  /** A frame that is no data changes nothing the browser side depends on. */
  lemma ControlKeeps(d: Down, m: Message, how: Outcome)
    requires BrowserSide(d) && FrameCan(d, m, how) && m.opcode != 2
    ensures BrowserSide(SendFrame(d, m, how))
  {
    DataGrows(d.sent, m);
    assert Data(d.sent) + [] == Data(d.sent);
  }

  lemma BrowserSideStep(l: Link, e: Event, maxFrame: int)
    requires Can(l, e) && BrowserSide(l.down)
    ensures BrowserSide(Step(l, e, maxFrame).down)
  {
    match e
    case ForwardChunk(how) => ForwardKeeps(l.down, l.down.pump.chunk, how, l.closed);
    case SayGoodbye(how) => ControlKeeps(l.down, Goodbye(), how);
    case HandleFrame(how) =>
      if l.up.pump.frame.opcode == 9 {
        ControlKeeps(l.down, Pong(l.up.pump.frame), how);
      }
    case Complain(text, how) => ControlKeeps(l.down, Complaint(text), how);
    case _ =>
  }

  // ----- towards the game -------------------------------------------------

  /** What has reached the game, plus what the rest of the stream carries, is
      what the whole stream carries. */
  predicate GameSide(u: Up, input: bytes, maxFrame: int) {
    var all := Carried(input, maxFrame);
    && u.toGame <= all
    && match u.pump
       case Checking => u.toGame + Carried(u.rest, maxFrame) == all
       case Reading => u.toGame + Carried(u.rest, maxFrame) == all
       case Handling(f) => u.toGame + CarriedFrom(f, u.rest, maxFrame) == all
       case Complaining => u.toGame == all
       case _ => !u.cut ==> u.toGame == all
  }

  lemma PrefixOfThree(a: bytes, p: bytes, rest: bytes, n: nat)
    requires n <= |p|
    ensures a + p + rest == a + (p + rest) && a + p[..n] <= a + (p + rest)
  {
    assert p == p[..n] + p[n..];
    assert a + (p + rest) == a + p[..n] + (p[n..] + rest);
  }

  lemma HandleCarries(u: Up, f: Frame, how: Outcome, input: bytes, maxFrame: int)
    requires u.pump == Handling(f) && GameSide(u, input, maxFrame)
    requires how.Only? && (f.opcode == 0 || f.opcode == 2) ==> how.n <= |f.payload| || f.payload == []
    ensures GameSide(Handled(u, f, how), input, maxFrame)
  {
    if f.opcode == 0 || f.opcode == 2 {
      var n := if how.Only? && f.payload != [] then how.n else 0;
      PrefixOfThree(u.toGame, f.payload, Carried(u.rest, maxFrame), n);
      assert f.payload == [] ==> u.toGame + f.payload == u.toGame;
    }
  }

  lemma TakeCarries(u: Up, input: bytes, maxFrame: int)
    requires u.pump == Reading && GameSide(u, input, maxFrame)
    ensures GameSide(TookNext(u, maxFrame), input, maxFrame)
  {
  }

  lemma GameSideStep(l: Link, e: Event, input: bytes, maxFrame: int)
    requires Can(l, e) && GameSide(l.up, input, maxFrame)
    ensures GameSide(Step(l, e, maxFrame).up, input, maxFrame)
  {
    match e
    case HandleFrame(how) => HandleCarries(l.up, l.up.pump.frame, how, input, maxFrame);
    case BrowserFrame => TakeCarries(l.up, input, maxFrame);
    case _ =>
  }

  // ----- the main results -------------------------------------------------

  /** Under every scheduling of the two threads: what a browser reads from its
      stream are the whole frames written to it, their data is a prefix of what
      the game sent, and all of it once the game's side ended by itself. */
  lemma {:induction false} BrowserGetsGameData(input: bytes, es: seq<Event>, maxFrame: int)
    requires CanAll(Fresh(input), es, maxFrame)
    ensures var l := Steps(Fresh(input), es, maxFrame);
      && BrowserSide(l.down)
      && Received(Out(l.down)) == l.down.sent
      && Data(Received(Out(l.down))) <= l.down.game
      && (l.down.pump == Stopped && !l.down.cut ==> Data(Received(Out(l.down))) == l.down.game)
  {
    if es != [] {
      var k := |es| - 1;
      BrowserGetsGameData(input, es[..k], maxFrame);
      BrowserSideStep(Steps(Fresh(input), es[..k], maxFrame), es[k], maxFrame);
    }
    var l := Steps(Fresh(input), es, maxFrame);
    WireIsReceived(l.down.sent, l.down.torn);
  }

  /** And the game receives a prefix of what the browser's stream carries, all
      of it when the browser's side was ended by its own stream. */
  lemma {:induction false} GameGetsBrowserData(input: bytes, es: seq<Event>, maxFrame: int)
    requires CanAll(Fresh(input), es, maxFrame)
    ensures var l := Steps(Fresh(input), es, maxFrame);
      && GameSide(l.up, input, maxFrame)
      && l.up.toGame <= Carried(input, maxFrame)
      && (l.up.pump == Over && !l.up.cut ==> l.up.toGame == Carried(input, maxFrame))
  {
    if es != [] {
      var k := |es| - 1;
      GameGetsBrowserData(input, es[..k], maxFrame);
      GameSideStep(Steps(Fresh(input), es[..k], maxFrame), es[k], input, maxFrame);
    }
  }

  /** Not a failed receive from the game, nor a failed send of a chunk. */
  predicate FineDown(e: Event) {
    !e.GameFails? && !(e.ForwardChunk? && e.how.Only?)
  }

  predicate WholeDown(l: Link) {
    (l.closed ==> l.down.dead) && !l.down.cut
  }

  lemma WholeDownStep(l: Link, e: Event, maxFrame: int)
    requires Can(l, e) && WholeDown(l) && FineDown(e)
    ensures WholeDown(Step(l, e, maxFrame))
  {
  }

  lemma {:induction false} StaysWholeDown(input: bytes, es: seq<Event>, maxFrame: int)
    requires CanAll(Fresh(input), es, maxFrame) && forall e | e in es :: FineDown(e)
    ensures WholeDown(Steps(Fresh(input), es, maxFrame))
  {
    if es != [] {
      StaysWholeDown(input, es[..|es| - 1], maxFrame);
      assert es[|es| - 1] in es;
      WholeDownStep(Steps(Fresh(input), es[..|es| - 1], maxFrame), es[|es| - 1], maxFrame);
    }
  }

  /** If no receive from the game and no chunk sent to the browser fails, the
      browser lacks nothing once the game's stream has ended, whatever else went
      wrong: a close from the browser's side shows as one of those failures. */
  lemma BrowserGetsEverything(input: bytes, es: seq<Event>, maxFrame: int)
    requires CanAll(Fresh(input), es, maxFrame) && forall e | e in es :: FineDown(e)
    ensures var l := Steps(Fresh(input), es, maxFrame);
      && BrowserSide(l.down)
      && (!l.down.pump.Receiving? && !l.down.pump.Holding? ==> Data(Received(Out(l.down))) == l.down.game)
  {
    BrowserGetsGameData(input, es, maxFrame);
    StaysWholeDown(input, es, maxFrame);
  }

  /** The game-bound thread has read all it is going to read. */
  predicate StreamEnded(u: Up) {
    u.pump == Complaining || u.pump == Finishing || u.pump == Over
  }

  /** No receive from the browser and no send on its behalf failed, and the other
      thread closed the connection only when the browser's stream had ended. */
  predicate NothingFailsUp(l: Link, es: seq<Event>, maxFrame: int)
    requires CanAll(l, es, maxFrame)
  {
    es == [] || (
      var k := |es| - 1;
      && NothingFailsUp(l, es[..k], maxFrame)
      && !es[k].BrowserFails? && !(es[k].HandleFrame? && es[k].how.Only?)
      && (es[k].GameShutdown? ==> StreamEnded(Steps(l, es[..k], maxFrame).up)))
  }

  lemma NotCutStep(l: Link, e: Event, maxFrame: int)
    requires Can(l, e) && !l.up.cut && (l.closed ==> StreamEnded(l.up))
    requires !e.BrowserFails? && !(e.HandleFrame? && e.how.Only?) && (e.GameShutdown? ==> StreamEnded(l.up))
    ensures var s := Step(l, e, maxFrame); !s.up.cut && (s.closed ==> StreamEnded(s.up))
  {
  }

  /** Then the game gets everything the browser's stream carries. */
  lemma {:induction false} GameGetsEverything(input: bytes, es: seq<Event>, maxFrame: int)
    requires CanAll(Fresh(input), es, maxFrame) && NothingFailsUp(Fresh(input), es, maxFrame)
    ensures var l := Steps(Fresh(input), es, maxFrame);
      && !l.up.cut && (l.closed ==> StreamEnded(l.up))
      && (StreamEnded(l.up) ==> l.up.toGame == Carried(input, maxFrame))
  {
    GameGetsBrowserData(input, es, maxFrame);
    if es != [] {
      var k := |es| - 1;
      GameGetsEverything(input, es[..k], maxFrame);
      NotCutStep(Steps(Fresh(input), es[..k], maxFrame), es[k], maxFrame);
    }
  }

  /** What a list of frames carries, however they were written. */
  function CarriedOf(fs: seq<Frame>): bytes {
    if fs == [] then []
    else if fs[0].opcode == 0 || fs[0].opcode == 2 then fs[0].payload + CarriedOf(fs[1..])
    else if fs[0].opcode == 9 || fs[0].opcode == 10 then CarriedOf(fs[1..])
    else []
  }

  lemma {:induction false} CarriedByFrames(s: bytes, maxFrame: int)
    ensures Carried(s, maxFrame) == CarriedOf(AllFrames(s, maxFrame).0)
    decreases |s|
  {
    var (r, rest) := NextFrame(s, maxFrame);
    if r.Got? {
      CarriedByFrames(rest, maxFrame);
      assert AllFrames(s, maxFrame).0[1..] == AllFrames(rest, maxFrame).0;
    }
  }

  /** However a client masks its frames and writes their lengths, the game gets
      the payloads of its data frames up to the first close or foreign frame. */
  lemma WritingDoesNotMatter(cs: seq<Coded>, after: bytes, maxFrame: int)
    requires AllSendable(cs, maxFrame) && !NextFrame(after, maxFrame).0.Got?
    ensures Carried(MaskedAll(cs, maxFrame) + after, maxFrame) == CarriedOf(Frames(cs))
  {
    StreamRoundTrip(cs, after, maxFrame);
    CarriedByFrames(MaskedAll(cs, maxFrame) + after, maxFrame);
  }

  function Payloads(fs: seq<Frame>): bytes {
    if fs == [] then []
    else (if fs[0].opcode == 0 || fs[0].opcode == 2 then fs[0].payload else []) + Payloads(fs[1..])
  }

  predicate Carries(opcode: nat) {
    opcode == 0 || opcode == 2 || opcode == 9 || opcode == 10
  }

  /** Nor does it matter how the bytes were cut into fragments and mixed with
      pings and pongs: up to a frame `stop` that ends it, all payloads arrive. */
  lemma {:induction false} CutsDoNotMatter(fs: seq<Frame>, stop: Frame, more: seq<Frame>)
    requires (forall i | 0 <= i < |fs| :: Carries(fs[i].opcode)) && !Carries(stop.opcode)
    ensures CarriedOf(fs + [stop] + more) == Payloads(fs) && CarriedOf(fs) == Payloads(fs)
  {
    if fs != [] {
      CutsDoNotMatter(fs[1..], stop, more);
      assert (fs + [stop] + more)[1..] == fs[1..] + [stop] + more;
    } else {
      assert (fs + [stop] + more)[0] == stop;
    }
  }
}
