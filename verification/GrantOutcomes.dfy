/** What becomes of a grant, said by the columns of its row: after settling, after
    picking, after dispatching, after recording and withdrawing. */
module GrantOutcomes {
  import opened Common
  import opened GrantQueue
  import opened GrantSelect
  import opened GrantRuns

  // ----- settling ---------------------------------------------------------

  /** No two queued grants point at one row. */
  ghost predicate RowsApart(t: Tables) {
    forall i, j | 0 <= i < j < |t.grants| && t.grants[i].status == Queued && t.grants[j].status == Queued ::
      t.grants[i].queueId.Some? ==> t.grants[i].queueId != t.grants[j].queueId
  }

  predicate HasRow(t: Tables, id: nat)
    requires id < |t.grants|
  {
    && t.grants[id].queueId.Some? && t.grants[id].queueId.value < |t.queue|
    && t.queue[t.grants[id].queueId.value].Some?
  }

  /** How the queued grant `id` and its row look in `t'` when `t` is settled. */
  predicate SettledAs(t: Tables, t': Tables, id: nat, now: int)
    requires id < |t.grants| == |t'.grants| && |t.queue| == |t'.queue|
  {
    var g, g' := t.grants[id], t'.grants[id];
    if !HasRow(t, id) then g' == g.(status := Closed(Review))
    else
      var r := g.queueId.value;
      var row := t.queue[r].value;
      var age := now - row.created;
      if row.status == Pending && age > 60 then
        && g' == g.(status := Waiting, queueId := None, nextTry := now + 120)
        && t'.queue[r] == Some(row.(status := Cancelled))
      else
        && t'.queue[r] == t.queue[r]
        && match row.status
           case Pending => g' == g
           case Stamp => g' == if age < 120 then g else g.(status := Closed(Review))
           case PlayerOffline => g' == g.(status := Waiting, queueId := None, nextTry := now + 120)
           case Cancelled => g' == g.(status := Withdrawn)
           case Answer(v) => g' == g.(status := Closed(if v == Foreign then Review else v))
  }

  /** The loop has not come to `id` yet. */
  predicate StillAs(t: Tables, t': Tables, id: nat)
    requires id < |t.grants| == |t'.grants| && |t.queue| == |t'.queue|
  {
    t'.grants[id] == t.grants[id] && (HasRow(t, id) ==>
      t'.queue[t.grants[id].queueId.value] == t.queue[t.grants[id].queueId.value])
  }

  lemma OneSettled(snap: Tables, t: Tables, id: nat, now: int)
    requires |t.grants| == |snap.grants| && |t.queue| == |snap.queue| && id < |snap.grants|
    requires StillAs(snap, t, id)
    ensures SettledAs(snap, SettleOne(snap, t, id, now), id, now)
  {
  }

  lemma OthersStayAsTheyAre(snap: Tables, t: Tables, id: nat, other: nat, now: int)
    requires RowsApart(snap) && |t.grants| == |snap.grants| && |t.queue| == |snap.queue|
    requires id < |snap.grants| && other < |snap.grants| && id != other
    requires snap.grants[id].status == Queued && snap.grants[other].status == Queued
    ensures var t' := SettleOne(snap, t, other, now);
      && (SettledAs(snap, t, id, now) ==> SettledAs(snap, t', id, now))
      && (StillAs(snap, t, id) ==> StillAs(snap, t', id))
  {
    assert HasRow(snap, id) ==> snap.grants[id].queueId != snap.grants[other].queueId;
  }

  /** Before the loop comes to a grant it is as it was, afterwards it is settled. */
  predicate SettledSoFar(t: Tables, t': Tables, ids: seq<nat>, now: int, id: nat)
    requires id < |t.grants| == |t'.grants| && |t.queue| == |t'.queue|
  {
    if id in ids then SettledAs(t, t', id, now) else StillAs(t, t', id)
  }

  lemma SettledOneMore(t: Tables, m: Tables, ids: seq<nat>, now: int, id: nat)
    requires RowsApart(t) && ids != [] && ValidIds(ids, |t.grants|) && Distinct(ids)
    requires id < |t.grants| == |m.grants| && |t.queue| == |m.queue| && t.grants[id].status == Queued
    requires forall i | i in ids :: t.grants[i].status == Queued
    requires SettledSoFar(t, m, ids[..|ids| - 1], now, id)
    ensures SettledSoFar(t, SettleOne(t, m, ids[|ids| - 1], now), ids, now, id)
  {
    var k := |ids| - 1;
    assert ids == ids[..k] + [ids[k]];
    assert ids[k] !in ids[..k];
    if ids[k] == id {
      OneSettled(t, m, id, now);
    } else {
      OthersStayAsTheyAre(t, m, id, ids[k], now);
    }
  }

  /** What the settling loop does to every queued grant, whatever the order. */
  lemma {:induction false} SettleOutcome(t: Tables, ids: seq<nat>, now: int, id: nat)
    requires RowsApart(t) && ValidIds(ids, |t.grants|) && Distinct(ids)
    requires id < |t.grants| && t.grants[id].status == Queued
    requires forall i | i in ids :: t.grants[i].status == Queued
    ensures SettledSoFar(t, SettleAll(t, ids, now), ids, now, id)
  {
    if ids != [] {
      SettleOutcome(t, ids[..|ids| - 1], now, id);
      SettledOneMore(t, SettleAll(t, ids[..|ids| - 1], now), ids, now, id);
    }
  }

  /** Nothing else changes: neither other grants nor rows no listed grant points at. */
  lemma {:induction false} OtherGrantsStay(t: Tables, ids: seq<nat>, now: int, id: nat)
    requires ValidIds(ids, |t.grants|) && id < |t.grants| && id !in ids
    ensures SettleAll(t, ids, now).grants[id] == t.grants[id]
  {
    if ids != [] {
      OtherGrantsStay(t, ids[..|ids| - 1], now, id);
    }
  }

  lemma {:induction false} OtherRowsStay(t: Tables, ids: seq<nat>, now: int, r: nat)
    requires ValidIds(ids, |t.grants|) && r < |t.queue| && forall id | id in ids :: t.grants[id].queueId != Some(r)
    ensures SettleAll(t, ids, now).queue[r] == t.queue[r]
  {
    if ids != [] {
      assert ids[|ids| - 1] in ids;
      OtherRowsStay(t, ids[..|ids| - 1], now, r);
    }
  }

  lemma ConsistentRowsApart(t: Tables)
    requires Consistent(t)
    ensures RowsApart(t)
  {
    forall i, j | 0 <= i < j < |t.grants| && t.grants[i].status == Queued && t.grants[j].status == Queued
      ensures t.grants[i].queueId != t.grants[j].queueId
    {
      assert GrantFits(t, i) && GrantFits(t, j);
    }
  }

  // ----- picking ----------------------------------------------------------

  predicate Due(g: Grant, now: int) {
    g.status == Waiting && g.nextTry <= now
  }

  predicate Sooner(grants: seq<Grant>, i: nat, j: nat)
    requires i < |grants| && j < |grants|
  {
    grants[i].nextTry < grants[j].nextTry || (grants[i].nextTry == grants[j].nextTry && i < j)
  }

  /** Room for ten rows less those counted; of them two probes a tick, and four out
      at once. */
  lemma PickedInNumbers(t: Tables, o: Outside, now: int)
    ensures var p := PickFor(t, o, now);
      && |p.ids| <= Max(0, 10 - o.seen)
      && |p.ids| - p.fast <= Max(0, Min(2, 4 - o.seen))
      && Distinct(p.ids) && (forall x | x in p.ids :: Due(t.grants[x], now))
      && (o.online.None? ==> p.fast == |p.ids|)
  {
    PickedAreDue(t.grants, Capacity(o), o.seen, o.online, o.bots, now);
  }

  /** Both parts are in order, and the first is exactly the bots seen online and
      the characters that are no bots. */
  lemma PickedInOrder(t: Tables, o: Outside, now: int, i: nat, j: nat)
    requires i < j < |PickFor(t, o, now).ids|
    ensures var p := PickFor(t, o, now);
      && (j < p.fast || p.fast <= i ==> Sooner(t.grants, p.ids[i], p.ids[j]))
      && (o.online.Some? ==>
            (i < p.fast <==> t.grants[p.ids[i]].player in o.online.value || t.grants[p.ids[i]].player !in o.bots))
  {
    ProbesAreOffline(t.grants, Capacity(o), o.seen, o.online, o.bots, now, i);
    if Capacity(o) > 0 && o.online.Some? {
      var lane := FastLane(o.online.value, o.bots);
      SelectInOrder(t.grants, lane, now, |t.grants|);
      SelectInOrder(t.grants, NotTaken(Limit(Select(t.grants, lane, now, |t.grants|), Capacity(o))), now, |t.grants|);
    } else {
      SelectInOrder(t.grants, AnyDue, now, |t.grants|);
    }
  }

  /** A due grant is left out only when there is no room, and for grants that come
      before it. */
  lemma LeftOutForOthers(t: Tables, o: Outside, now: int, id: nat)
    requires id < |t.grants| && Due(t.grants[id], now) && id !in PickFor(t, o, now).ids
    ensures var p, player := PickFor(t, o, now), t.grants[id].player;
      if o.online.None? || player in o.online.value || player !in o.bots then
        p.fast == |p.ids| == Max(0, 10 - o.seen) && forall x | x in p.ids :: Sooner(t.grants, x, id)
      else
        && |p.ids| - p.fast == Max(0, Min(Min(10 - o.seen - p.fast, 2), 4 - o.seen))
        && forall x | x in p.ids[p.fast..] :: Sooner(t.grants, x, id)
  {
    var p := PickFor(t, o, now);
    if Capacity(o) > 0 {
      if o.online.None? {
        LimitKeepsFirst(t.grants, AnyDue, now, Capacity(o), id);
      } else {
        var lane := FastLane(o.online.value, o.bots);
        var fast := Limit(Select(t.grants, lane, now, |t.grants|), Capacity(o));
        assert p.ids[..p.fast] == fast;
        if Fast(t.grants[id], o.online.value, o.bots) {
          LimitKeepsFirst(t.grants, lane, now, Capacity(o), id);
          assert id !in fast;
        } else if ProbesLeft(Capacity(o), |fast|, o.seen) > 0 {
          assert id !in fast;
          LimitKeepsFirst(t.grants, NotTaken(fast), now, ProbesLeft(Capacity(o), |fast|, o.seen), id);
          assert p.ids[p.fast..] == Limit(Select(t.grants, NotTaken(fast), now, |t.grants|),
                                          ProbesLeft(Capacity(o), |fast|, o.seen));
        }
      }
    }
  }

  // ----- dispatching ------------------------------------------------------

  /** How a picked grant looks once it is dispatched, and its row if it has one. */
  predicate DispatchedAs(t: Tables, t': Tables, id: nat, lookup: Grant -> Lookup, now: int)
    requires id < |t.grants| == |t'.grants|
  {
    var g, g' := t.grants[id], t'.grants[id];
    match lookup(g)
    case NoCharacter => g' == g.(status := Closed(Gone))
    case NotMatching => g' == g.(status := Closed(if g.missing then HasItem else NoSkill))
    case Matched(name) =>
      && g'.queueId.Some? && |t.queue| <= g'.queueId.value < |t'.queue|
      && g' == g.(status := Queued, queueId := g'.queueId)
      && t'.queue[g'.queueId.value] == Some(Row(Pending, now, name, g.missing, g.vnum, g.quantity))
  }

  lemma OneDispatched(t: Tables, m: Tables, id: nat, probe: bool, lookup: Grant -> Lookup, now: int)
    requires id < |t.grants| == |m.grants| && m.grants[id] == t.grants[id] && t.queue <= m.queue
    ensures DispatchedAs(t, DispatchOne(m, id, probe, lookup, now), id, lookup, now)
  {
  }

  predicate DispatchedSoFar(
    t: Tables, t': Tables, ids: seq<nat>, lookup: Grant -> Lookup, now: int, id: nat)
    requires id < |t.grants| == |t'.grants|
  {
    t.queue <= t'.queue && if id in ids then DispatchedAs(t, t', id, lookup, now) else t'.grants[id] == t.grants[id]
  }

  lemma DispatchedOneMore(
    t: Tables, m: Tables, ids: seq<nat>, probe: bool, lookup: Grant -> Lookup, now: int, id: nat)
    requires id < |t.grants| == |m.grants| && ids != [] && ValidIds(ids, |t.grants|) && Distinct(ids)
    requires DispatchedSoFar(t, m, ids[..|ids| - 1], lookup, now, id)
    ensures DispatchedSoFar(t, DispatchOne(m, ids[|ids| - 1], probe, lookup, now), ids, lookup, now, id)
  {
    var k := |ids| - 1;
    assert ids == ids[..k] + [ids[k]];
    assert ids[k] !in ids[..k];
    if ids[k] == id {
      OneDispatched(t, m, id, probe, lookup, now);
    }
  }

  /** Dispatching only appends to the queue, gives every listed grant its own row
      or its verdict, and touches no other. */
  lemma {:induction false} DispatchOutcome(
    t: Tables, ids: seq<nat>, fast: nat, lookup: Grant -> Lookup, now: int, id: nat)
    requires ValidIds(ids, |t.grants|) && Distinct(ids) && id < |t.grants|
    ensures DispatchedSoFar(t, DispatchAll(t, ids, fast, lookup, now), ids, lookup, now, id)
  {
    if ids != [] {
      var k := |ids| - 1;
      DispatchOutcome(t, ids[..k], fast, lookup, now, id);
      DispatchedOneMore(t, DispatchAll(t, ids[..k], fast, lookup, now), ids, k >= fast, lookup, now, id);
    }
  }

  // ----- an answer is reported --------------------------------------------

  /** Grant `id` is queued and its row holds the quest's word `v`. */
  predicate Answered(w: World, k: Worker, id: nat, v: Verdict) {
    && id < |GrantsOf(w, k)|
    && var g := GrantsOf(w, k)[id];
       && g.status == Queued && g.queueId.Some? && g.queueId.value < |w.queue|
       && w.queue[g.queueId.value].Some? && w.queue[g.queueId.value].value.status == Answer(v)
  }

  lemma AnswerWaitsThroughTick(w: World, j: Worker, o: Outside, k: Worker, id: nat, v: Verdict)
    requires Inv(w) && Enabled(w, Tick(j, o)) && Answered(w, k, id, v) && j != k
    ensures Answered(After(w, Tick(j, o)), k, id, v)
    ensures GrantsOf(After(w, Tick(j, o)), k) == GrantsOf(w, k)
  {
    var r, t := GrantsOf(w, k)[id].queueId.value, View(w, j);
    TickSteps(t, o, w.now);
    assert RowMoves(t.queue[r], Ticked(t, o, w.now).queue[r], t.origin[r]);
  }

  lemma AnswerWaits(w: World, s: Step, k: Worker, id: nat, v: Verdict)
    requires Inv(w) && Enabled(w, s) && Answered(w, k, id, v) && !(s.Tick? && s.worker == k)
    ensures Answered(After(w, s), k, id, v) && GrantsOf(After(w, s), k)[id] == GrantsOf(w, k)[id]
  {
    match s
    case Tick(j, o) => AnswerWaitsThroughTick(w, j, o, k, id, v);
    case RecordBatch(j, o, players) =>
      if j == k && RecordAll(GrantsOf(w, k), o, players, w.now).Some? {
        RecordAllAppends(GrantsOf(w, k), o, players, w.now);
      }
    case _ =>
  }

  predicate ClosedWith(w: World, e: World, k: Worker, id: nat, v: Verdict)
    requires id < |GrantsOf(w, k)|
  {
    id < |GrantsOf(e, k)| && GrantsOf(e, k)[id] == GrantsOf(w, k)[id].(status := Closed(v))
  }

  /** What settling left out of reach of the picking SELECT stays as it is. */
  lemma DispatchSparesSettled(m: Tables, o: Outside, now: int, id: nat)
    requires id < |m.grants| && m.grants[id].status != Waiting
    ensures Dispatch(m, o, now).grants[id] == m.grants[id]
  {
    var p := PickFor(m, o, now);
    PickedAreDue(m.grants, Capacity(o), o.seen, o.online, o.bots, now);
    DispatchOutcome(m, p.ids, p.fast, o.lookup, now, id);
  }

  lemma OwnTickReports(w: World, k: Worker, o: Outside, id: nat, v: Verdict)
    requires Inv(w) && Enabled(w, Tick(k, o)) && Answered(w, k, id, v)
    ensures ClosedWith(w, After(w, Tick(k, o)), k, id, if v == Foreign then Review else v)
  {
    ConsistentRowsApart(View(w, k));
    SettleOutcome(View(w, k), o.order, w.now, id);
    DispatchSparesSettled(SettleAll(View(w, k), o.order, w.now), o, w.now, id);
  }

  /** What the quest answered is what the panel reports: however many other steps
      come between, the worker's next tick closes the grant with that very word.
      So a grant whose row says "done" becomes done. */
  lemma {:induction false} AnswerIsReported(
    w: World, steps: seq<Step>, k: Worker, o: Outside, id: nat, v: Verdict)
    requires Inv(w) && Answered(w, k, id, v) && Possible(w, steps)
    requires forall s | s in steps :: !(s.Tick? && s.worker == k)
    ensures var e := Run(w, steps);
      && Answered(e, k, id, v)
      && (Enabled(e, Tick(k, o)) ==> ClosedWith(w, After(e, Tick(k, o)), k, id, if v == Foreign then Review else v))
  {
    AnswerKeeps(w, steps, k, id, v);
    RunKeepsInv(w, steps);
    if Enabled(Run(w, steps), Tick(k, o)) {
      OwnTickReports(Run(w, steps), k, o, id, v);
    }
  }

  lemma {:induction false} AnswerKeeps(w: World, steps: seq<Step>, k: Worker, id: nat, v: Verdict)
    requires Inv(w) && Answered(w, k, id, v) && Possible(w, steps)
    requires forall s | s in steps :: !(s.Tick? && s.worker == k)
    ensures Answered(Run(w, steps), k, id, v) && GrantsOf(Run(w, steps), k)[id] == GrantsOf(w, k)[id]
  {
    if steps != [] {
      var n := |steps| - 1;
      AnswerKeeps(w, steps[..n], k, id, v);
      RunKeepsInv(w, steps[..n]);
      assert steps[n] in steps;
      AnswerWaits(Run(w, steps[..n]), steps[n], k, id, v);
    }
  }

  // ----- counting, recording, withdrawing ---------------------------------

  function PendingRows(queue: seq<Option<Row>>, n: nat): set<nat>
    requires n <= |queue|
  {
    set r | 0 <= r < n && queue[r].Some? && queue[r].value.status == Pending
  }

  // ----- who may act ------------------------------------------------------

  lemma {:induction false} QueuedInSomeOrder(grants: seq<Grant>, n: nat) returns (ids: seq<nat>)
    requires n <= |grants|
    ensures Distinct(ids) && forall i :: i in ids <==> 0 <= i < n && grants[i].status == Queued
  {
    if n == 0 {
      ids := [];
    } else {
      ids := QueuedInSomeOrder(grants, n - 1);
      if grants[n - 1].status == Queued {
        ids := ids + [n - 1];
      }
    }
  }

  predicate RowReads(w: World, r: nat, status: RowStatus) {
    r < |w.queue| && w.queue[r].Some? && w.queue[r].value.status == status
  }

  /** A row changes its status and nothing else changes. */
  predicate OnlyStatus(w: World, w': World, r: nat, status: RowStatus)
    requires r < |w.queue| && w.queue[r].Some?
  {
    w' == w.(queue := w.queue[r := Some(w.queue[r].value.(status := status))])
  }

  /** What quest, sweep and panels do to a row when they may. */
  lemma ActorsOutcome(w: World, r: nat, v: Verdict)
    ensures Enabled(w, Claim(r)) ==> RowReads(w, r, Pending) && OnlyStatus(w, After(w, Claim(r)), r, Stamp)
    ensures Enabled(w, Sweep(r)) ==> RowReads(w, r, Pending) && OnlyStatus(w, After(w, Sweep(r)), r, PlayerOffline)
    ensures Enabled(w, Reply(r, v)) ==> RowReads(w, r, Stamp) && OnlyStatus(w, After(w, Reply(r, v)), r, Answer(v))
    ensures Enabled(w, Deliver(r)) ==>
      RowReads(w, r, Stamp) && After(w, Deliver(r)) == w.(delivered := w.delivered + {r})
    ensures Enabled(w, PanelWithdraw(r)) ==>
      RowReads(w, r, Pending) && OnlyStatus(w, After(w, PanelWithdraw(r)), r, Cancelled)
    ensures Enabled(w, PanelDelete(r)) ==>
      RowReads(w, r, Pending) && After(w, PanelDelete(r)) == w.(queue := w.queue[r := None])
  {
  }

  /** Operators, panels and the clock never have to wait either. */
  lemma PanelsMayAct(w: World, k: Worker, order: Order, players: seq<nat>, row: Row, r: nat, seconds: nat)
    ensures Enabled(w, RolledBack(k)) && Enabled(w, RecordBatch(k, order, players)) && Enabled(w, Pass(seconds))
    ensures Enabled(w, CancelBatch(k, order.batch)) && After(w, RolledBack(k)) == w
    ensures After(w, Pass(seconds)) == w.(now := w.now + seconds)
    ensures row.status == Pending ==>
      && Enabled(w, PanelCommand(row))
      && After(w, PanelCommand(row)) == w.(queue := w.queue + [Some(row)], origin := w.origin + [Panel])
    ensures RowReads(w, r, Pending) && r < |w.origin| && w.origin[r] == Panel ==>
      Enabled(w, PanelWithdraw(r)) && Enabled(w, PanelDelete(r))
  {
  }

  /** Whatever has happened, each worker may tick, by itself, and the quest and the
      sweep may take any pending row; what the quest took it may deliver and answer. */
  lemma NobodyIsLockedOut(w: World, k: Worker, r: nat, v: Verdict) returns (o: Outside)
    ensures Enabled(w, Tick(k, o)) && o == Alone(View(w, k), o, w.now)
    ensures RowReads(w, r, Pending) ==> Enabled(w, Claim(r)) && Enabled(w, Sweep(r))
    ensures RowReads(w, r, Stamp) ==>
      Enabled(w, Deliver(r)) && (v != Done || r in w.delivered ==> Enabled(w, Reply(r, v)))
  {
    var t := View(w, k);
    var order := QueuedInSomeOrder(t.grants, |t.grants|);
    assert forall i | 0 <= i < |order| :: order[i] in order;
    assert ListsQueued(t.grants, order);
    var seen := PendingCount(SettleAll(t, order, w.now).queue);
    o := Outside(order, seen, None, {}, g => NoCharacter);
  }

  /** The count is the number of rows that say pending. */
  lemma {:induction false} CountIsSize(queue: seq<Option<Row>>, n: nat)
    requires n <= |queue|
    ensures PendingIn(queue, n) == |PendingRows(queue, n)|
  {
    if n > 0 {
      CountIsSize(queue, n - 1);
      var before := PendingRows(queue, n - 1);
      assert PendingRows(queue, n) == if StillPending(queue, n - 1) then before + {n - 1} else before;
    }
  }

  predicate Has(grants: seq<Grant>, batch: string, player: nat) {
    exists g | g in grants :: g.batch == batch && g.player == player
  }

  /** A batch is recorded exactly when no recipient repeats or has it already, as
      waiting grants for what the order asks, due at once, in the order given. */
  lemma {:induction false} RecordOutcome(grants: seq<Grant>, o: Order, players: seq<nat>, now: int)
    ensures var r := RecordAll(grants, o, players, now);
      && (r.Some? <==> Distinct(players) && forall p | p in players :: !Has(grants, o.batch, p))
      && (r.Some? ==>
            && |r.value| == |grants| + |players| && r.value[..|grants|] == grants
            && forall i | 0 <= i < |players| :: r.value[|grants| + i]
                 == Grant(o.batch, players[i], o.vnum, o.quantity, o.missing, Waiting, None, now))
  {
    if players != [] {
      var k := |players| - 1;
      RecordOutcome(grants, o, players[..k], now);
      assert players == players[..k] + [players[k]];
      match RecordAll(grants, o, players[..k], now)
      case None =>
      case Some(gs) => LastRecipient(grants, o, players, gs, now);
    }
  }

  lemma LastRecipient(grants: seq<Grant>, o: Order, players: seq<nat>, gs: seq<Grant>, now: int)
    requires players != [] && |gs| == |grants| + |players| - 1 && gs[..|grants|] == grants
    requires forall i | 0 <= i < |players| - 1 ::
               gs[|grants| + i] == Grant(o.batch, players[i], o.vnum, o.quantity, o.missing, Waiting, None, now)
    ensures var p := players[|players| - 1];
      Recorded(gs, o.batch, p) <==> Has(grants, o.batch, p) || p in players[..|players| - 1]
  {
    var k, p := |players| - 1, players[|players| - 1];
    if Recorded(gs, o.batch, p) {
      var i :| 0 <= i < |gs| && gs[i].batch == o.batch && gs[i].player == p;
      if i < |grants| {
        assert gs[i] == grants[i] && grants[i] in grants;
      } else {
        assert players[..k][i - |grants|] == p;
      }
    }
    if Has(grants, o.batch, p) {
      var g :| g in grants && g.batch == o.batch && g.player == p;
      var i :| 0 <= i < |grants| && grants[i] == g;
      assert gs[i] == grants[i];
    }
    if p in players[..k] {
      var i :| 0 <= i < k && players[..k][i] == p;
      assert gs[|grants| + i].player == p;
    }
  }

  /** Withdrawing a batch reaches its waiting grants and nothing else. */
  lemma CancelOutcome(grants: seq<Grant>, batch: string, i: nat)
    requires i < |grants|
    ensures var g, g' := grants[i], CancelAll(grants, batch)[i];
      g' == if g.status == Waiting && g.batch == batch then g.(status := Withdrawn) else g
  {
  }
}
