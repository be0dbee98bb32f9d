/** The bridge's connection accounting: a bounded semaphore and a counter per
    address, shared by any number of handler threads. */
module WsSlots {
  type Address = string

  function Held(perIp: map<Address, nat>, ip: Address): nat {
    if ip in perIp then perIp[ip] else 0
  }

  function Taken(perIp: map<Address, nat>, ip: Address): map<Address, nat> {
    perIp[ip := Held(perIp, ip) + 1]
  }

  function Freed(perIp: map<Address, nat>, ip: Address): map<Address, nat> {
    if Held(perIp, ip) > 1 then perIp[ip := perIp[ip] - 1] else perIp - {ip}
  }

  class Counters {
    const maxConnections: nat
    const maxPerIp: int
    var free: nat
    var perIp: map<Address, nat>

    constructor (maxConnections: nat, maxPerIp: int)
      ensures this.maxConnections == maxConnections && this.maxPerIp == maxPerIp
      ensures free == maxConnections && perIp == map[]
    {
      this.maxConnections, this.maxPerIp := maxConnections, maxPerIp;
      free, perIp := maxConnections, map[];
    }

    method Acquire() returns (ok: bool)
      modifies this`free
      ensures ok <==> old(free) > 0
      ensures free == if ok then old(free) - 1 else old(free)
    {
      ok := free > 0;
      if ok {
        free := free - 1;
      }
    }

    /** A bounded semaphore refuses to be released more often than acquired. */
    method Release() returns (ok: bool)
      modifies this`free
      ensures ok <==> old(free) < maxConnections
      ensures free == if ok then old(free) + 1 else old(free)
    {
      ok := free < maxConnections;
      if ok {
        free := free + 1;
      }
    }

    method TakeIpSlot(ip: Address) returns (ok: bool)
      modifies this`perIp
      ensures ok <==> Held(old(perIp), ip) < maxPerIp
      ensures perIp == if ok then Taken(old(perIp), ip) else old(perIp)
    {
      if Held(perIp, ip) >= maxPerIp {
        return false;
      }
      perIp := perIp[ip := Held(perIp, ip) + 1];
      return true;
    }

    method FreeIpSlot(ip: Address)
      modifies this`perIp
      ensures perIp == Freed(old(perIp), ip)
    {
      var n := Held(perIp, ip) - 1;
      if n > 0 {
        perIp := perIp[ip := n];
      } else {
        perIp := perIp - {ip};
      }
    }

    /** What an upgrade takes before the game server is dialled. A client over
        its own limit gives the slot back, so a refusal leaves no trace. */
    method Admit(ip: Address) returns (ok: bool)
      requires free <= maxConnections
      modifies this
      ensures ok <==> old(free) > 0 && Held(old(perIp), ip) < maxPerIp
      ensures !ok ==> free == old(free) && perIp == old(perIp)
      ensures ok ==> free == old(free) - 1 && perIp == Taken(old(perIp), ip)
    {
      var got := Acquire();
      if !got {
        return false;
      }
      ok := TakeIpSlot(ip);
      if !ok {
        var back := Release();
        assert back;
      }
    }

    /** What the end of a connection gives back; the result says whether the
        semaphore took its slot. */
    method Finish(ip: Address) returns (ok: bool)
      modifies this
      ensures ok <==> old(free) < maxConnections
      ensures free == if ok then old(free) + 1 else old(free)
      ensures perIp == Freed(old(perIp), ip)
    {
      FreeIpSlot(ip);
      ok := Release();
    }
  }

  /** What a connection took it gives back: the counters of everybody else, and
      its own, are as if it had never been. */
  lemma AdmissionIsUndone(perIp: map<Address, nat>, ip: Address)
    requires ip in perIp ==> perIp[ip] > 0
    ensures Freed(Taken(perIp, ip), ip) == perIp
  {
    if ip !in perIp {
      assert Taken(perIp, ip) - {ip} == perIp;
    } else {
      assert Freed(Taken(perIp, ip), ip)[ip] == perIp[ip];
    }
  }

  // ----- any number of handlers -------------------------------------------

  /** Where a handler stands between its upgrade request and its return. */
  datatype Stage = Arriving | HasSlot | GivingBack | Serving | Leaving | Gone | Broken

  datatype Handler = Handler(ip: Address, stage: Stage)

  datatype Bridge = Bridge(free: nat, perIp: map<Address, nat>, handlers: seq<Handler>)

  datatype Limits = Limits(connections: nat, perIp: int)

  /** One locked operation of handler `i`, or a new handler. */
  datatype Turn = Arrive(ip: Address) | Advance(i: nat)

  predicate HoldsSlot(h: Handler) {
    h.stage == HasSlot || h.stage == GivingBack || h.stage == Serving || h.stage == Leaving
  }

  predicate Possible(b: Bridge, t: Turn) {
    t.Advance? ==> t.i < |b.handlers|
  }

  function GiveBack(b: Bridge, m: Limits, i: nat): Bridge
    requires i < |b.handlers|
  {
    if b.free < m.connections then
      b.(free := b.free + 1, handlers := b.handlers[i := b.handlers[i].(stage := Gone)])
    else b.(handlers := b.handlers[i := b.handlers[i].(stage := Broken)])
  }

  function Next(b: Bridge, m: Limits, t: Turn): Bridge
    requires Possible(b, t)
  {
    match t
    case Arrive(ip) => b.(handlers := b.handlers + [Handler(ip, Arriving)])
    case Advance(i) =>
      var h := b.handlers[i];
      match h.stage
      case Arriving =>
        if b.free > 0 then b.(free := b.free - 1, handlers := b.handlers[i := h.(stage := HasSlot)])
        else b.(handlers := b.handlers[i := h.(stage := Gone)])
      case HasSlot =>
        if Held(b.perIp, h.ip) < m.perIp then
          b.(perIp := Taken(b.perIp, h.ip), handlers := b.handlers[i := h.(stage := Serving)])
        else b.(handlers := b.handlers[i := h.(stage := GivingBack)])
      case GivingBack => GiveBack(b, m, i)
      case Serving => b.(perIp := Freed(b.perIp, h.ip), handlers := b.handlers[i := h.(stage := Leaving)])
      case Leaving => GiveBack(b, m, i)
      case _ => b
  }

  function Holders(hs: seq<Handler>): nat {
    if hs == [] then 0 else Holders(hs[..|hs| - 1]) + if HoldsSlot(hs[|hs| - 1]) then 1 else 0
  }

  function ServingFrom(hs: seq<Handler>, ip: Address): nat {
    if hs == [] then 0
    else ServingFrom(hs[..|hs| - 1], ip) + if hs[|hs| - 1] == Handler(ip, Serving) then 1 else 0
  }

  lemma {:induction false} CountsAfterUpdate(hs: seq<Handler>, i: nat, h: Handler, ip: Address)
    requires i < |hs|
    ensures Holders(hs[i := h]) + (if HoldsSlot(hs[i]) then 1 else 0) == Holders(hs) + (if HoldsSlot(h) then 1 else 0)
    ensures ServingFrom(hs[i := h], ip) + (if hs[i] == Handler(ip, Serving) then 1 else 0)
         == ServingFrom(hs, ip) + (if h == Handler(ip, Serving) then 1 else 0)
  {
    var n := |hs| - 1;
    if i < n {
      CountsAfterUpdate(hs[..n], i, h, ip);
      assert hs[i := h][..n] == hs[..n][i := h];
    } else {
      assert hs[i := h][..n] == hs[..n];
    }
  }

  /** Slots are neither lost nor made, and the map holds exactly the handlers
      it should: never more than the limit per address, never a zero. */
  ghost predicate Balanced(b: Bridge, m: Limits) {
    && b.free + Holders(b.handlers) == m.connections
    && (forall ip: Address :: Held(b.perIp, ip) == ServingFrom(b.handlers, ip))
    && (forall ip | ip in b.perIp :: 0 < b.perIp[ip] <= m.perIp)
    && forall i | 0 <= i < |b.handlers| :: b.handlers[i].stage != Broken
  }

  lemma TakenHeld(perIp: map<Address, nat>, ip: Address, limit: int)
    requires Held(perIp, ip) < limit && forall a | a in perIp :: 0 < perIp[a] <= limit
    ensures forall a :: Held(Taken(perIp, ip), a) == Held(perIp, a) + (if a == ip then 1 else 0)
    ensures forall a | a in Taken(perIp, ip) :: 0 < Taken(perIp, ip)[a] <= limit
  {
  }

  lemma FreedHeld(perIp: map<Address, nat>, ip: Address, limit: int)
    requires Held(perIp, ip) > 0 && forall a | a in perIp :: 0 < perIp[a] <= limit
    ensures forall a :: Held(Freed(perIp, ip), a) + (if a == ip then 1 else 0) == Held(perIp, a)
    ensures forall a | a in Freed(perIp, ip) :: 0 < Freed(perIp, ip)[a] <= limit
  {
  }

  /** One handler's move keeps the books if the counters moved with it. */
  lemma MoveBalanced(b: Bridge, b': Bridge, m: Limits, i: nat, h: Handler)
    requires Balanced(b, m) && i < |b.handlers| && h.ip == b.handlers[i].ip && h.stage != Broken
    requires b'.handlers == b.handlers[i := h]
    requires b'.free + (if HoldsSlot(h) then 1 else 0) == b.free + (if HoldsSlot(b.handlers[i]) then 1 else 0)
    requires forall ip: Address :: Held(b'.perIp, ip) + (if b.handlers[i] == Handler(ip, Serving) then 1 else 0)
                                == Held(b.perIp, ip) + (if h == Handler(ip, Serving) then 1 else 0)
    requires forall ip | ip in b'.perIp :: 0 < b'.perIp[ip] <= m.perIp
    ensures Balanced(b', m)
  {
    CountsAfterUpdate(b.handlers, i, h, h.ip);
    forall ip: Address ensures Held(b'.perIp, ip) == ServingFrom(b'.handlers, ip) {
      CountsAfterUpdate(b.handlers, i, h, ip);
    }
  }

  lemma GiveBackBalanced(b: Bridge, m: Limits, i: nat)
    requires Balanced(b, m) && i < |b.handlers|
    requires b.handlers[i].stage == GivingBack || b.handlers[i].stage == Leaving
    ensures Balanced(GiveBack(b, m, i), m)
  {
    HolderCounted(b.handlers, i);
    MoveBalanced(b, GiveBack(b, m, i), m, i, b.handlers[i].(stage := Gone));
  }

  lemma TakeBalanced(b: Bridge, m: Limits, i: nat)
    requires Balanced(b, m) && i < |b.handlers| && b.handlers[i].stage == HasSlot
    ensures Balanced(Next(b, m, Advance(i)), m)
  {
    var h, b' := b.handlers[i], Next(b, m, Advance(i));
    if Held(b.perIp, h.ip) < m.perIp {
      TakenHeld(b.perIp, h.ip, m.perIp);
    }
    MoveBalanced(b, b', m, i, b'.handlers[i]);
  }

  lemma FreeBalanced(b: Bridge, m: Limits, i: nat)
    requires Balanced(b, m) && i < |b.handlers| && b.handlers[i].stage == Serving
    ensures Balanced(Next(b, m, Advance(i)), m)
  {
    ServerCounted(b.handlers, i);
    FreedHeld(b.perIp, b.handlers[i].ip, m.perIp);
    MoveBalanced(b, Next(b, m, Advance(i)), m, i, b.handlers[i].(stage := Leaving));
  }

  lemma NextBalanced(b: Bridge, m: Limits, t: Turn)
    requires Balanced(b, m) && Possible(b, t)
    ensures Balanced(Next(b, m, t), m)
  {
    var b' := Next(b, m, t);
    match t
    case Arrive(ip) => assert b'.handlers[..|b.handlers|] == b.handlers;
    case Advance(i) =>
      match b.handlers[i].stage
      case Arriving => MoveBalanced(b, b', m, i, b'.handlers[i]);
      case HasSlot => TakeBalanced(b, m, i);
      case Serving => FreeBalanced(b, m, i);
      case Gone =>
      case Broken =>
      case _ => GiveBackBalanced(b, m, i);
  }

  lemma {:induction false} ServerCounted(hs: seq<Handler>, i: nat)
    requires i < |hs| && hs[i].stage == Serving
    ensures ServingFrom(hs, hs[i].ip) > 0
  {
    if i < |hs| - 1 {
      ServerCounted(hs[..|hs| - 1], i);
    }
  }

  lemma {:induction false} HolderCounted(hs: seq<Handler>, i: nat)
    requires i < |hs| && HoldsSlot(hs[i])
    ensures Holders(hs) > 0
  {
    if i < |hs| - 1 {
      HolderCounted(hs[..|hs| - 1], i);
    }
  }

  predicate AllPossible(b: Bridge, m: Limits, ts: seq<Turn>)
    decreases |ts|, 0
  {
    ts == [] || (
      var k := |ts| - 1;
      AllPossible(b, m, ts[..k]) && Possible(After(b, m, ts[..k]), ts[k]))
  }

  function After(b: Bridge, m: Limits, ts: seq<Turn>): Bridge
    requires AllPossible(b, m, ts)
    decreases |ts|, 1
  {
    if ts == [] then b else Next(After(b, m, ts[..|ts| - 1]), m, ts[|ts| - 1])
  }

  /** In every interleaving of any number of handlers the books balance, no
      release fails, and once every handler is gone the map is empty and every
      slot is back. */
  lemma {:induction false} SlotsAlwaysBalance(m: Limits, ts: seq<Turn>)
    requires AllPossible(Bridge(m.connections, map[], []), m, ts)
    ensures var e := After(Bridge(m.connections, map[], []), m, ts);
      && Balanced(e, m)
      && ((forall i | 0 <= i < |e.handlers| :: e.handlers[i].stage == Gone) ==>
            e.free == m.connections && e.perIp == map[])
  {
    if ts != [] {
      SlotsAlwaysBalance(m, ts[..|ts| - 1]);
      NextBalanced(After(Bridge(m.connections, map[], []), m, ts[..|ts| - 1]), m, ts[|ts| - 1]);
    }
    var e := After(Bridge(m.connections, map[], []), m, ts);
    if forall i | 0 <= i < |e.handlers| :: e.handlers[i].stage == Gone {
      forall ip: Address ensures ServingFrom(e.handlers, ip) == 0 && Holders(e.handlers) == 0 {
        AllGone(e.handlers, ip);
      }
      assert Holders(e.handlers) == 0 by { AllGone(e.handlers, ""); }
      assert forall ip | ip in e.perIp :: Held(e.perIp, ip) == 0;
    }
  }

  lemma {:induction false} AllGone(hs: seq<Handler>, ip: Address)
    requires forall i | 0 <= i < |hs| :: hs[i].stage == Gone
    ensures Holders(hs) == 0 && ServingFrom(hs, ip) == 0
  {
    if hs != [] {
      AllGone(hs[..|hs| - 1], ip);
    }
  }
}
