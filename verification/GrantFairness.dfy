/** Lanes over whole runs: how many rows a worker may have out, and how long a
    due grant can wait. */
module GrantFairness {
  import opened Common
  import opened GrantQueue
  import opened GrantSelect
  import opened GrantRuns

  // ----- final states -----------------------------------------------------

  /** A closed or withdrawn grant never changes again, and a grant's order
      never does. */
  lemma FinalStays(w: World, s: Step, k: Worker, id: nat)
    requires Inv(w) && Enabled(w, s) && id < |GrantsOf(w, k)|
    ensures id < |GrantsOf(After(w, s), k)|
    ensures var g := GrantsOf(w, k)[id]; var g' := GrantsOf(After(w, s), k)[id];
      && g' == g.(status := g'.status, queueId := g'.queueId, nextTry := g'.nextTry)
      && (g.status == Withdrawn || g.status.Closed? ==> g' == g)
  {
    match s
    case Tick(k', o) =>
      if k' == k { TickChanges(View(w, k), o, w.now, id); }
      assert k' != k ==> GrantsOf(After(w, s), k) == GrantsOf(w, k);
    case RecordBatch(k', o, players) =>
      if k' == k && RecordAll(GrantsOf(w, k), o, players, w.now).Some? {
        RecordAllAppends(GrantsOf(w, k), o, players, w.now);
        assert GrantsOf(After(w, s), k)[..|GrantsOf(w, k)|][id] == GrantsOf(w, k)[id];
      }
    case _ =>
  }

  /** What one tick can do to one grant: nothing, unless it was queued, or was
      waiting and got picked. A grant that waits afterwards and was picked or
      queued before was put back with a later `next_try`. */
  lemma TickChanges(t: Tables, o: Outside, now: int, id: nat)
    requires Consistent(t) && ListsQueued(t.grants, o.order) && id < |t.grants|
    ensures var t' := Ticked(t, o, now); var g := t.grants[id]; var g' := t'.grants[id];
      && |t'.grants| == |t.grants|
      && g' == g.(status := g'.status, queueId := g'.queueId, nextTry := g'.nextTry)
      && (g.status == Withdrawn || g.status.Closed? ==> g' == g)
      && (g'.status == Waiting ==> g' == g || (g.status == Queued && g'.nextTry == now + OFFLINE_RETRY_SECONDS))
  {
    TickPicks(t, o, now);
    var m := SettleAll(t, o.order, now);
    SettleChanges(t, o.order, now, id);
    var p := PickFor(m, o, now);
    PickedAreDue(m.grants, Capacity(o), o.seen, o.online, o.bots, now);
    DispatchChanges(m, p.ids, p.fast, o.lookup, now, id);
  }

  lemma SettleOneChanges(snap: Tables, t: Tables, i: nat, now: int, id: nat)
    requires i < |snap.grants| == |t.grants| && id < |t.grants|
    ensures var g := t.grants[id]; var g' := SettleOne(snap, t, i, now).grants[id];
      && g' == g.(status := g'.status, queueId := g'.queueId, nextTry := g'.nextTry)
      && (id != i ==> g' == g)
      && (g'.status == Waiting ==> g' == g || g'.nextTry == now + OFFLINE_RETRY_SECONDS)
  {
  }

  lemma {:induction false} SettleChanges(t: Tables, ids: seq<nat>, now: int, id: nat)
    requires ValidIds(ids, |t.grants|) && Distinct(ids) && id < |t.grants|
    ensures var g := t.grants[id]; var g' := SettleAll(t, ids, now).grants[id];
      && g' == g.(status := g'.status, queueId := g'.queueId, nextTry := g'.nextTry)
      && (id !in ids ==> g' == g)
      && (g'.status == Waiting ==> g' == g || g'.nextTry == now + OFFLINE_RETRY_SECONDS)
  {
    if ids != [] {
      var k := |ids| - 1;
      SettleChanges(t, ids[..k], now, id);
      SettleOneChanges(t, SettleAll(t, ids[..k], now), ids[k], now, id);
      assert ids == ids[..k] + [ids[k]];
    }
  }

  lemma {:induction false} DispatchChanges(
    t: Tables, ids: seq<nat>, fast: nat, lookup: Grant -> Lookup, now: int, id: nat)
    requires ValidIds(ids, |t.grants|) && id < |t.grants|
    ensures var g := t.grants[id]; var g' := DispatchAll(t, ids, fast, lookup, now).grants[id];
      && g' == g.(status := g'.status, queueId := g'.queueId)
      && (id !in ids ==> g' == g)
  {
    if ids != [] {
      var k := |ids| - 1;
      DispatchChanges(t, ids[..k], fast, lookup, now, id);
      assert ids == ids[..k] + [ids[k]];
    }
  }

  /** After a tick nothing it picked is waiting, and the rest is as settled. */
  lemma TickPicks(t: Tables, o: Outside, now: int)
    requires Consistent(t) && ListsQueued(t.grants, o.order)
    ensures var m := SettleAll(t, o.order, now); var p := PickFor(m, o, now); var t' := Ticked(t, o, now);
      && Consistent(m) && |m.grants| == |t.grants| == |t'.grants|
      && (forall i | i in p.ids :: m.grants[i].status == Waiting && t'.grants[i].status != Waiting)
      && (forall i | 0 <= i < |m.grants| && i !in p.ids :: t'.grants[i] == m.grants[i])
  {
    SettleAllSteps(t, o.order, now);
    var m := SettleAll(t, o.order, now);
    PickedAreDue(m.grants, Capacity(o), o.seen, o.online, o.bots, now);
    var p := PickFor(m, o, now);
    DispatchAllSteps(m, p.ids, p.fast, o.lookup, now);
  }

  // ----- bounded waiting --------------------------------------------------

  ghost predicate WaitingAt(w: World, k: Worker, id: nat) {
    id < |GrantsOf(w, k)| && GrantsOf(w, k)[id].status == Waiting
  }

  /** The waiting grants that come before `id` in (next_try, id). */
  ghost function Ahead(grants: seq<Grant>, id: nat): set<nat>
    requires id < |grants|
  {
    set j: nat | j < |grants| && grants[j].status == Waiting && Before(grants, j, id)
  }

  /** A tick of worker `k` that commits, counts a free place after settling, and
      sees `id` as possibly online: it is in the snapshot, is no bot, or there
      is no usable snapshot. */
  ghost predicate ChanceFor(w: World, s: Step, k: Worker, id: nat)
    requires Inv(w) && Enabled(w, s) && id < |GrantsOf(w, k)|
  {
    && s.Tick? && s.worker == k
    && Capacity(s.outside) > 0
    && (s.outside.online.None? || Fast(GrantsOf(w, k)[id], s.outside.online.value, s.outside.bots))
  }

  /** While a due grant keeps waiting, no step puts anything ahead of it. */
  lemma NothingOvertakes(w: World, s: Step, k: Worker, id: nat)
    requires Inv(w) && Enabled(w, s) && WaitingAt(w, k, id) && GrantsOf(w, k)[id].nextTry <= w.now
    requires WaitingAt(After(w, s), k, id)
    ensures var a := GrantsOf(w, k); var b := GrantsOf(After(w, s), k);
      b[id] == a[id] && Ahead(b, id) <= Ahead(a, id)
  {
    var a := GrantsOf(w, k);
    var b := GrantsOf(After(w, s), k);
    match s
    case Tick(k', o) =>
      if k' == k {
        TickChanges(View(w, k), o, w.now, id);
        forall j | j in Ahead(b, id) ensures j in Ahead(a, id) {
          TickChanges(View(w, k), o, w.now, j);
        }
      }
    case RecordBatch(k', o, players) =>
      if k' == k && RecordAll(a, o, players, w.now).Some? {
        RecordAllAppends(a, o, players, w.now);
        assert b[id] == b[..|a|][id];
        forall j | |a| <= j < |b| ensures !Before(b, j, id) {
          assert b[j] == NewGrant(o, players[j - |a|], w.now);
        }
        forall j | j in Ahead(b, id) ensures j in Ahead(a, id) {
          assert b[j] == b[..|a|][j];
        }
      }
    case _ =>
  }

  /** A tick that could have taken a due grant and did not took another one
      from ahead of it. */
  lemma PassedOverOnce(w: World, s: Step, k: Worker, id: nat)
    requires Inv(w) && Enabled(w, s) && WaitingAt(w, k, id) && GrantsOf(w, k)[id].nextTry <= w.now
    requires ChanceFor(w, s, k, id) && WaitingAt(After(w, s), k, id)
    ensures Ahead(GrantsOf(After(w, s), k), id) < Ahead(GrantsOf(w, k), id)
  {
    NothingOvertakes(w, s, k, id);
    var t := View(w, k);
    var o := s.outside;
    TickPicks(t, o, w.now);
    TickChanges(t, o, w.now, id);
    var m := SettleAll(t, o.order, w.now);
    SettleChanges(t, o.order, w.now, id);
    var p := PickFor(m, o, w.now);
    assert id !in p.ids && m.grants[id] == t.grants[id];
    var lane := if o.online.None? then AnyDue else FastLane(o.online.value, o.bots);
    LimitKeepsFirst(m.grants, lane, w.now, Capacity(o), id);
    var first := Limit(Select(m.grants, lane, w.now, |m.grants|), Capacity(o));
    assert first <= p.ids && forall x | x in first :: x in p.ids;
    var j := first[0];
    assert j in p.ids && Before(m.grants, j, id);
    SelectIsOrderedLane(m.grants, lane, w.now, |m.grants|);
    LimitIsPrefix(Select(m.grants, lane, w.now, |m.grants|), Capacity(o));
    assert j in first && m.grants[j].nextTry <= m.grants[id].nextTry <= w.now;
    SettleChanges(t, o.order, w.now, j);
    assert m.grants[j] == t.grants[j];
    assert j in Ahead(t.grants, id) && j !in Ahead(GrantsOf(After(w, s), k), id);
  }

  lemma ChanceUsesOneAhead(w: World, s: Step, k: Worker, id: nat)
    requires Inv(w) && Enabled(w, s) && WaitingAt(w, k, id) && GrantsOf(w, k)[id].nextTry <= w.now
    requires WaitingAt(After(w, s), k, id)
    ensures GrantsOf(After(w, s), k)[id] == GrantsOf(w, k)[id] && w.now <= After(w, s).now
    ensures |Ahead(GrantsOf(After(w, s), k), id)| + (if ChanceFor(w, s, k, id) then 1 else 0)
         <= |Ahead(GrantsOf(w, k), id)|
  {
    NothingOvertakes(w, s, k, id);
    var a := Ahead(GrantsOf(w, k), id);
    var b := Ahead(GrantsOf(After(w, s), k), id);
    if ChanceFor(w, s, k, id) {
      PassedOverOnce(w, s, k, id);
      var j :| j in a && j !in b;
      SubsetSize(b, a - {j});
    } else {
      SubsetSize(b, a);
    }
  }

  /** How many ticks of a run could have taken `id`. */
  ghost function Chances(w: World, steps: seq<Step>, k: Worker, id: nat): nat
    requires Inv(w) && Possible(w, steps)
  {
    if steps == [] then 0
    else
      var n := |steps| - 1;
      var e := Run(w, steps[..n]);
      RunKeepsInv(w, steps[..n]);
      Chances(w, steps[..n], k, id) +
      (if id < |GrantsOf(e, k)| && ChanceFor(e, steps[n], k, id) then 1 else 0)
  }

  ghost predicate KeepsWaiting(w: World, steps: seq<Step>, k: Worker, id: nat)
    requires Possible(w, steps)
  {
    WaitingAt(Run(w, steps), k, id) && (steps != [] ==> KeepsWaiting(w, steps[..|steps| - 1], k, id))
  }

  /** A due grant is taken within one more chance than there were grants ahead
      of it, whatever else happens in between. */
  lemma {:induction false} BoundedWaiting(w: World, steps: seq<Step>, k: Worker, id: nat)
    requires Inv(w) && Possible(w, steps) && WaitingAt(w, k, id) && GrantsOf(w, k)[id].nextTry <= w.now
    requires KeepsWaiting(w, steps, k, id)
    ensures var e := Run(w, steps);
      && GrantsOf(e, k)[id] == GrantsOf(w, k)[id] && w.now <= e.now
      && Chances(w, steps, k, id) + |Ahead(GrantsOf(e, k), id)| <= |Ahead(GrantsOf(w, k), id)|
  {
    if steps != [] {
      var n := |steps| - 1;
      BoundedWaiting(w, steps[..n], k, id);
      RunKeepsInv(w, steps[..n]);
      var e := Run(w, steps[..n]);
      ChanceUsesOneAhead(e, steps[n], k, id);
    }
  }

  lemma {:induction false} SubsetSize<T>(a: set<T>, b: set<T>)
    requires a <= b
    ensures |a| <= |b|
    decreases a
  {
    if a != {} {
      var x :| x in a;
      SubsetSize(a - {x}, b - {x});
    }
  }

  // ----- how many rows may be out -----------------------------------------

  predicate PendingProbe(queue: seq<Option<Row>>, origin: seq<Origin>, k: Worker, r: nat) {
    OwnPending(queue, origin, k, r) && origin[r].probe
  }

  function ProbesIn(queue: seq<Option<Row>>, origin: seq<Origin>, k: Worker, n: nat): (c: nat)
    requires n <= |queue|
    ensures c <= OwnIn(queue, origin, k, n)
  {
    if n == 0 then 0
    else ProbesIn(queue, origin, k, n - 1) + (if PendingProbe(queue, origin, k, n - 1) then 1 else 0)
  }

  function ProbeCount(queue: seq<Option<Row>>, origin: seq<Origin>, k: Worker): (c: nat)
    ensures c <= OwnCount(queue, origin, k)
  {
    ProbesIn(queue, origin, k, |queue|)
  }

  /** Pending rows of the panels' one-off commands. */
  function PanelIn(queue: seq<Option<Row>>, origin: seq<Origin>, n: nat): nat
    requires n <= |queue|
  {
    if n == 0 then 0
    else
      PanelIn(queue, origin, n - 1)
      + (if StillPending(queue, n - 1) && n <= |origin| && origin[n - 1].Panel? then 1 else 0)
  }

  /** Every pending row was put there by one worker, the other, or a panel. */
  lemma {:induction false} CountsAddUp(queue: seq<Option<Row>>, origin: seq<Origin>, n: nat)
    requires |queue| == |origin| && n <= |queue|
    ensures PendingIn(queue, n)
         == OwnIn(queue, origin, Tuike, n) + OwnIn(queue, origin, Seban, n) + PanelIn(queue, origin, n)
  {
    if n > 0 {
      CountsAddUp(queue, origin, n - 1);
    }
  }

  /** Moving rows never makes a row pending again. */
  lemma {:induction false} MovesOnlyDrainPending(
      q: seq<Option<Row>>, o: seq<Origin>, q': seq<Option<Row>>, o': seq<Origin>, k: Worker, n: nat)
    requires QueueMoves(q, o, q', o') && n <= |q|
    ensures PendingIn(q', n) <= PendingIn(q, n)
    ensures OwnIn(q', o', k, n) <= OwnIn(q, o, k, n) && ProbesIn(q', o', k, n) <= ProbesIn(q, o, k, n)
  {
    if n > 0 {
      MovesOnlyDrainPending(q, o, q', o', k, n - 1);
      assert RowMoves(q[n - 1], q'[n - 1], o[n - 1]);
      assert o'[n - 1] == o[n - 1];
    }
  }

  lemma {:induction false} AppendKeepsCounts(
      q: seq<Option<Row>>, o: seq<Origin>, row: Row, who: Origin, k: Worker, n: nat)
    requires |q| == |o| && n <= |q|
    ensures PendingIn(q + [Some(row)], n) == PendingIn(q, n)
    ensures OwnIn(q + [Some(row)], o + [who], k, n) == OwnIn(q, o, k, n)
    ensures ProbesIn(q + [Some(row)], o + [who], k, n) == ProbesIn(q, o, k, n)
  {
    if n > 0 {
      AppendKeepsCounts(q, o, row, who, k, n - 1);
    }
  }

  /** What dispatching one grant may add to the three counts. */
  ghost predicate CountsGrow(t: Tables, t': Tables, k: Worker, rows: int, probes: int) {
    && |t'.queue| == |t'.origin|
    && PendingCount(t'.queue) <= PendingCount(t.queue) + rows
    && OwnCount(t'.queue, t'.origin, k) <= OwnCount(t.queue, t.origin, k) + (if k == t.me then rows else 0)
    && ProbeCount(t'.queue, t'.origin, k) <= ProbeCount(t.queue, t.origin, k) + (if k == t.me then probes else 0)
  }

  lemma DispatchOneCounts(t: Tables, id: nat, probe: bool, lookup: Grant -> Lookup, now: int, k: Worker)
    requires |t.queue| == |t.origin| && id < |t.grants|
    ensures CountsGrow(t, DispatchOne(t, id, probe, lookup, now), k, 1, if probe then 1 else 0)
  {
    var g := t.grants[id];
    match lookup(g)
    case Matched(name) =>
      var row := Row(Pending, now, name, g.missing, g.vnum, g.quantity);
      AppendKeepsCounts(t.queue, t.origin, row, Handed(t.me, id, probe), k, |t.queue|);
    case _ =>
  }

  lemma {:induction false} DispatchCounts(
      t: Tables, ids: seq<nat>, fast: nat, lookup: Grant -> Lookup, now: int, k: Worker)
    requires |t.queue| == |t.origin| && ValidIds(ids, |t.grants|)
    ensures CountsGrow(t, DispatchAll(t, ids, fast, lookup, now), k, |ids|, Max(0, |ids| - fast))
  {
    if ids != [] {
      var n := |ids| - 1;
      DispatchCounts(t, ids[..n], fast, lookup, now, k);
      DispatchOneCounts(DispatchAll(t, ids[..n], fast, lookup, now), ids[n], n >= fast, lookup, now, k);
    }
  }

  /** A tick fills up its worker's own rows to MAX_PENDING at most and its own
      probes to OFFLINE_MAX_PENDING at most, whatever its count missed; and all
      rows together to MAX_PENDING at most when its count missed none. */
  lemma TickRespectsLanes(t: Tables, o: Outside, now: int, k: Worker)
    requires Consistent(t) && ListsQueued(t.grants, o.order) && SeesOwn(t, o, now)
    ensures var t' := Ticked(t, o, now); var m := SettleAll(t, o.order, now);
      && OwnCount(t'.queue, t'.origin, k) <= Max(MAX_PENDING, OwnCount(t.queue, t.origin, k))
      && ProbeCount(t'.queue, t'.origin, k) <= Max(OFFLINE_MAX_PENDING, ProbeCount(t.queue, t.origin, k))
      && (PendingCount(m.queue) <= o.seen ==> PendingCount(t'.queue) <= Max(MAX_PENDING, PendingCount(t.queue)))
  {
    SettleAllSteps(t, o.order, now);
    var m := SettleAll(t, o.order, now);
    MovesOnlyDrainPending(t.queue, t.origin, m.queue, m.origin, k, |t.queue|);
    PickedAreDue(m.grants, Capacity(o), o.seen, o.online, o.bots, now);
    var p := PickFor(m, o, now);
    DispatchCounts(m, p.ids, p.fast, o.lookup, now, k);
  }

  lemma RowMoveCounts(w: World, w': World, r: nat, k: Worker)
    requires |w.queue| == |w.origin| && r < |w.queue| && w'.origin == w.origin
    requires |w'.queue| == |w.queue| && w'.queue == w.queue[r := w'.queue[r]]
    requires RowMoves(w.queue[r], w'.queue[r], w.origin[r])
    ensures PendingCount(w'.queue) <= PendingCount(w.queue)
    ensures OwnCount(w'.queue, w'.origin, k) <= OwnCount(w.queue, w.origin, k)
    ensures ProbeCount(w'.queue, w'.origin, k) <= ProbeCount(w.queue, w.origin, k)
  {
    MovesOnlyDrainPending(w.queue, w.origin, w'.queue, w'.origin, k, |w.queue|);
  }

  /** A tick whose count missed no row: nobody else's transaction was open. */
  ghost predicate CountsAll(w: World, s: Step)
    requires Enabled(w, s)
  {
    s.Tick? ==> PendingCount(SettleAll(View(w, s.worker), s.outside.order, w.now).queue) <= s.outside.seen
  }

  lemma OthersDrain(w: World, s: Step, k: Worker)
    requires Inv(w) && Enabled(w, s) && !s.Tick? && !s.PanelCommand?
    ensures var e := After(w, s);
      && PendingCount(e.queue) <= PendingCount(w.queue)
      && OwnCount(e.queue, e.origin, k) <= OwnCount(w.queue, w.origin, k)
      && ProbeCount(e.queue, e.origin, k) <= ProbeCount(w.queue, w.origin, k)
  {
    var e := After(w, s);
    match s
    case PanelWithdraw(r) => RowMoveCounts(w, e, r, k);
    case PanelDelete(r) => RowMoveCounts(w, e, r, k);
    case Claim(r) => RowMoveCounts(w, e, r, k);
    case Reply(r, _) => RowMoveCounts(w, e, r, k);
    case Sweep(r) => RowMoveCounts(w, e, r, k);
    case _ =>
  }

  /** No step of any actor makes rows pending except a panel's own command
      and a worker's tick, and a tick stops at its limits. */
  lemma StepRespectsLanes(w: World, s: Step, k: Worker)
    requires Inv(w) && Enabled(w, s)
    ensures var e := After(w, s);
      && OwnCount(e.queue, e.origin, k) <= Max(MAX_PENDING, OwnCount(w.queue, w.origin, k))
      && ProbeCount(e.queue, e.origin, k) <= Max(OFFLINE_MAX_PENDING, ProbeCount(w.queue, w.origin, k))
      && (!s.PanelCommand? && CountsAll(w, s) ==> PendingCount(e.queue) <= Max(MAX_PENDING, PendingCount(w.queue)))
  {
    match s
    case Tick(j, o) => TickRespectsLanes(View(w, j), o, w.now, k);
    case PanelCommand(row) => AppendKeepsCounts(w.queue, w.origin, row, Panel, k, |w.queue|);
    case _ => OthersDrain(w, s, k);
  }

  /** In every run, whatever anybody else does and however ticks overlap: a
      worker's own pending rows never exceed MAX_PENDING, or what it had out at
      the start, and its own probes never exceed OFFLINE_MAX_PENDING likewise. */
  lemma {:induction false} LanesHold(w: World, steps: seq<Step>, k: Worker)
    requires Inv(w) && Possible(w, steps)
    ensures var e := Run(w, steps);
      && OwnCount(e.queue, e.origin, k) <= Max(MAX_PENDING, OwnCount(w.queue, w.origin, k))
      && ProbeCount(e.queue, e.origin, k) <= Max(OFFLINE_MAX_PENDING, ProbeCount(w.queue, w.origin, k))
  {
    if steps != [] {
      var n := |steps| - 1;
      LanesHold(w, steps[..n], k);
      RunKeepsInv(w, steps[..n]);
      StepRespectsLanes(Run(w, steps[..n]), steps[n], k);
    }
  }

  /** So both workers together never have more than twice MAX_PENDING rows out,
      beside the panels' own. */
  lemma TwoWorkersTogether(w: World, steps: seq<Step>)
    requires Inv(w) && Possible(w, steps)
    ensures var e := Run(w, steps);
      PendingCount(e.queue) <=
        Max(MAX_PENDING, OwnCount(w.queue, w.origin, Tuike)) + Max(MAX_PENDING, OwnCount(w.queue, w.origin, Seban))
        + PanelIn(e.queue, e.origin, |e.queue|)
  {
    var e := Run(w, steps);
    LanesHold(w, steps, Tuike);
    LanesHold(w, steps, Seban);
    RunKeepsInv(w, steps);
    CountsAddUp(e.queue, e.origin, |e.queue|);
  }

  /** No panel command is queued, and no tick of either worker overlaps another. */
  ghost predicate OneAtATime(w: World, steps: seq<Step>)
    requires Possible(w, steps)
  {
    steps == [] || (
      var n := |steps| - 1;
      OneAtATime(w, steps[..n]) && !steps[n].PanelCommand? && CountsAll(Run(w, steps[..n]), steps[n]))
  }

  /** Ticks that do not overlap share the limit: all pending rows together stay
      within MAX_PENDING, or what was there, with both workers running. */
  lemma {:induction false} SharedLimitHolds(w: World, steps: seq<Step>)
    requires Inv(w) && Possible(w, steps) && OneAtATime(w, steps)
    ensures PendingCount(Run(w, steps).queue) <= Max(MAX_PENDING, PendingCount(w.queue))
  {
    if steps != [] {
      var n := |steps| - 1;
      SharedLimitHolds(w, steps[..n]);
      RunKeepsInv(w, steps[..n]);
      StepRespectsLanes(Run(w, steps[..n]), steps[n], Tuike);
    }
  }

  // ----- what an overlapping tick can do ----------------------------------

  ghost predicate AllMatch(lookup: Grant -> Lookup) {
    forall g :: lookup(g).Matched?
  }

  lemma {:induction false} DispatchFills(t: Tables, ids: seq<nat>, fast: nat, lookup: Grant -> Lookup, now: int)
    requires |t.queue| == |t.origin| && ValidIds(ids, |t.grants|) && AllMatch(lookup)
    ensures var t' := DispatchAll(t, ids, fast, lookup, now);
      && |t'.queue| == |t'.origin| && PendingCount(t'.queue) == PendingCount(t.queue) + |ids|
  {
    if ids != [] {
      var n := |ids| - 1;
      DispatchFills(t, ids[..n], fast, lookup, now);
      var m := DispatchAll(t, ids[..n], fast, lookup, now);
      var g := m.grants[ids[n]];
      var row := Row(Pending, now, lookup(g).name, g.missing, g.vnum, g.quantity);
      AppendKeepsCounts(m.queue, m.origin, row, Handed(m.me, ids[n], n >= fast), m.me, |m.queue|);
    }
  }

  /** With enough due grants whose recipients are all found and no snapshot, a
      tick leaves more than MAX_PENDING rows exactly when its count missed some. */
  lemma TickOverfills(t: Tables, o: Outside, now: int)
    requires Consistent(t) && ListsQueued(t.grants, o.order) && o.seen <= MAX_PENDING
    requires o.online.None? && AllMatch(o.lookup)
    requires var m := SettleAll(t, o.order, now);
      |Select(m.grants, AnyDue, now, |m.grants|)| >= MAX_PENDING - o.seen
    ensures var m := SettleAll(t, o.order, now);
      && PendingCount(Ticked(t, o, now).queue) == PendingCount(m.queue) + MAX_PENDING - o.seen
      && (PendingCount(Ticked(t, o, now).queue) > MAX_PENDING <==> o.seen < PendingCount(m.queue))
  {
    SettleAllSteps(t, o.order, now);
    var m := SettleAll(t, o.order, now);
    var p := PickFor(m, o, now);
    DispatchFills(m, p.ids, p.fast, o.lookup, now);
  }

  lemma {:induction false} AllDueSelected(grants: seq<Grant>, now: int, n: nat)
    requires n <= |grants| && forall i | 0 <= i < n :: DueNow(grants[i], now)
    ensures |Select(grants, AnyDue, now, n)| == n
  {
    if n > 0 {
      AllDueSelected(grants, now, n - 1);
      InsertLength(grants, n - 1, Select(grants, AnyDue, now, n - 1));
    }
  }

  lemma {:induction false} InsertLength(grants: seq<Grant>, id: nat, ids: seq<nat>)
    requires id < |grants| && ValidIds(ids, |grants|)
    ensures |Insert(grants, id, ids)| == |ids| + 1
  {
    if ids != [] && !Before(grants, id, ids[0]) {
      InsertLength(grants, id, ids[1..]);
    }
  }

  function FirstPlayers(n: nat): seq<nat> {
    seq(n, i requires 0 <= i < n => i)
  }

  lemma {:induction false} RecordsFirstPlayers(o: Order, n: nat, now: int)
    ensures var r := RecordAll([], o, FirstPlayers(n), now);
      r.Some? && |r.value| == n && forall i | 0 <= i < n :: r.value[i] == NewGrant(o, i, now)
  {
    if n > 0 {
      RecordsFirstPlayers(o, n - 1, now);
      assert FirstPlayers(n)[..n - 1] == FirstPlayers(n - 1);
    }
  }

  /** A tick over freshly recorded grants that counts no row of the other worker. */
  lemma FreshTickFills(t: Tables, now: int, lookup: Grant -> Lookup)
    requires Consistent(t) && |t.grants| == MAX_PENDING && AllMatch(lookup)
    requires forall i | 0 <= i < |t.grants| :: DueNow(t.grants[i], now)
    ensures var o := Outside([], 0, None, {}, lookup);
      && ListsQueued(t.grants, o.order) && SettleAll(t, o.order, now) == t
      && PendingCount(Ticked(t, o, now).queue) == PendingCount(t.queue) + MAX_PENDING
  {
    AllDueSelected(t.grants, now, |t.grants|);
    TickOverfills(t, Outside([], 0, None, {}, lookup), now);
  }

  lemma Extended(w: World, steps: seq<Step>, s: Step)
    requires Possible(w, steps) && Enabled(Run(w, steps), s)
    ensures Possible(w, steps + [s]) && Run(w, steps + [s]) == After(Run(w, steps), s)
  {
    assert (steps + [s])[..|steps|] == steps;
  }

  /** Both workers have recorded ten grants each, all due. */
  ghost predicate BothReady(w: World) {
    && Inv(w) && w.queue == [] && w.now == 0 && |w.tuike| == |w.seban| == MAX_PENDING
    && forall i | 0 <= i < MAX_PENDING :: DueNow(w.tuike[i], 0) && DueNow(w.seban[i], 0)
  }

  lemma BothRecord(o: Order) returns (steps: seq<Step>)
    ensures var w := World([], [], [], [], {}, 0);
      Start(w) && Possible(w, steps) && BothReady(Run(w, steps))
  {
    var w, ps := World([], [], [], [], {}, 0), FirstPlayers(MAX_PENDING);
    RecordsFirstPlayers(o, MAX_PENDING, 0);
    Extended(w, [], RecordBatch(Tuike, o, ps));
    steps := [] + [RecordBatch(Tuike, o, ps)];
    Extended(w, steps, RecordBatch(Seban, o, ps));
    steps := steps + [RecordBatch(Seban, o, ps)];
    RunKeepsInv(w, steps);
  }

  lemma FirstTick(w: World, lookup: Grant -> Lookup)
    requires BothReady(w) && AllMatch(lookup)
    ensures var s := Tick(Tuike, Outside([], 0, None, {}, lookup));
      && Enabled(w, s) && PendingCount(After(w, s).queue) == MAX_PENDING
      && Inv(After(w, s)) && After(w, s).seban == w.seban && After(w, s).now == 0
  {
    FreshTickFills(View(w, Tuike), 0, lookup);
    StepKeepsInv(w, Tick(Tuike, Outside([], 0, None, {}, lookup)));
  }

  lemma SecondTick(w: World, lookup: Grant -> Lookup)
    requires Inv(w) && PendingCount(w.queue) == MAX_PENDING && w.now == 0 && AllMatch(lookup)
    requires |w.seban| == MAX_PENDING && forall i | 0 <= i < MAX_PENDING :: DueNow(w.seban[i], 0)
    ensures var s := Tick(Seban, Outside([], 0, None, {}, lookup));
      Enabled(w, s) && PendingCount(After(w, s).queue) == 2 * MAX_PENDING
  {
    NoOwnIn(View(w, Seban), |w.queue|);
    FreshTickFills(View(w, Seban), 0, lookup);
  }

  /** Twice the limit is reached: both workers record ten grants, both ticks count
      before the other commits, and twenty rows are pending. */
  lemma OverlappingTicksReachTwice(o: Order, lookup: Grant -> Lookup) returns (steps: seq<Step>)
    requires AllMatch(lookup)
    ensures var w := World([], [], [], [], {}, 0);
      && Start(w) && Possible(w, steps)
      && PendingCount(Run(w, steps).queue) == 2 * MAX_PENDING
  {
    var w, outside := World([], [], [], [], {}, 0), Outside([], 0, None, {}, lookup);
    steps := BothRecord(o);
    FirstTick(Run(w, steps), lookup);
    Extended(w, steps, Tick(Tuike, outside));
    steps := steps + [Tick(Tuike, outside)];
    SecondTick(Run(w, steps), lookup);
    Extended(w, steps, Tick(Seban, outside));
    steps := steps + [Tick(Seban, outside)];
  }

  /** A worker that queued nothing owns no pending row. */
  lemma {:induction false} NoOwnIn(t: Tables, n: nat)
    requires Consistent(t) && n <= |t.queue| && forall i | 0 <= i < |t.grants| :: t.grants[i].status == Waiting
    ensures OwnIn(t.queue, t.origin, t.me, n) == 0
  {
    if n > 0 {
      NoOwnIn(t, n - 1);
      if OwnPending(t.queue, t.origin, t.me, n - 1) {
        assert RowFits(t, n - 1) && GrantFits(t, t.origin[n - 1].grant);
        assert Owns(t, t.origin[n - 1].grant, n - 1);
      }
    }
  }

  /** A grant that closed or was withdrawn keeps that verdict for good, and no
      row of a withdrawn grant is ever carried out afterwards. */
  lemma {:induction false} VerdictIsFinal(w: World, steps: seq<Step>, k: Worker, id: nat)
    requires Inv(w) && Possible(w, steps) && id < |GrantsOf(w, k)|
    requires GrantsOf(w, k)[id].status == Withdrawn || GrantsOf(w, k)[id].status.Closed?
    ensures var e := Run(w, steps);
      && id < |GrantsOf(e, k)| && GrantsOf(e, k)[id] == GrantsOf(w, k)[id]
      && (GrantsOf(w, k)[id].status == Withdrawn ==> forall r | r in e.delivered :: !Owns(View(e, k), id, r))
  {
    RunKeepsInv(w, steps);
    if steps != [] {
      var n := |steps| - 1;
      VerdictIsFinal(w, steps[..n], k, id);
      RunKeepsInv(w, steps[..n]);
      FinalStays(Run(w, steps[..n]), steps[n], k, id);
    }
    var e := Run(w, steps);
    assert GrantFits(View(e, k), id);
    if GrantsOf(e, k)[id].status == Withdrawn {
      forall r | r in e.delivered ensures !Owns(View(e, k), id, r) {
        assert InGame(e.queue, r) && !Dead(e.queue, r);
      }
    }
  }
}
