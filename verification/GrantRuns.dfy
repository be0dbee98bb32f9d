/** Runs of the whole queue protocol: two grant workers, the operators of both
    panels, one-off panel commands, the quest and its sweep, in any order. */
module GrantRuns {
  import opened Common
  import opened GrantQueue
  import opened GrantSelect

  /** `delivered` collects the queue rows the quest ever carried out. */
  datatype World = World(
    tuike: seq<Grant>, seban: seq<Grant>,
    queue: seq<Option<Row>>, origin: seq<Origin>,
    delivered: set<nat>, now: int)

  datatype Step =
    | Tick(worker: Worker, outside: Outside)
    | RolledBack(worker: Worker)
    | RecordBatch(worker: Worker, order: Order, players: seq<nat>)
    | CancelBatch(worker: Worker, batch: string)
    | PanelCommand(row: Row)
    | PanelWithdraw(r: nat)
    | PanelDelete(r: nat)
    | Claim(r: nat)
    | Deliver(r: nat)
    | Reply(r: nat, verdict: Verdict)
    | Sweep(r: nat)
    | Pass(seconds: nat)

  function GrantsOf(w: World, k: Worker): seq<Grant> {
    if k == Tuike then w.tuike else w.seban
  }

  function SetGrants(w: World, k: Worker, grants: seq<Grant>): World {
    if k == Tuike then w.(tuike := grants) else w.(seban := grants)
  }

  function View(w: World, k: Worker): Tables {
    Tables(k, GrantsOf(w, k), w.queue, w.origin)
  }

  function SetView(w: World, t: Tables): World {
    SetGrants(w, t.me, t.grants).(queue := t.queue, origin := t.origin)
  }

  /** A transaction always sees what its own worker committed or wrote. */
  predicate SeesOwn(t: Tables, o: Outside, now: int)
    requires ListsQueued(t.grants, o.order)
  {
    var m := SettleAll(t, o.order, now);
    OwnCount(m.queue, m.origin, t.me) <= o.seen
  }

  predicate RowIs(w: World, r: nat, status: RowStatus) {
    r < |w.queue| && w.queue[r].Some? && w.queue[r].value.status == status
  }

  /** What each actor needs before it acts. Panels touch only rows they put
      there and only while those are pending; the quest claims a pending row,
      delivers and answers only what it claimed, and says "done" only after the
      work; the sweep takes pending rows; a tick may miss rows of others in its
      count, but never its own. */
  predicate Enabled(w: World, s: Step) {
    match s
    case Tick(k, o) => ListsQueued(GrantsOf(w, k), o.order) && SeesOwn(View(w, k), o, w.now)
    case RolledBack(_) => true
    case RecordBatch(_, _, _) => true
    case CancelBatch(_, _) => true
    case PanelCommand(row) => row.status == Pending
    case PanelWithdraw(r) => RowIs(w, r, Pending) && r < |w.origin| && w.origin[r] == Panel
    case PanelDelete(r) => RowIs(w, r, Pending) && r < |w.origin| && w.origin[r] == Panel
    case Claim(r) => RowIs(w, r, Pending)
    case Deliver(r) => RowIs(w, r, Stamp)
    case Reply(r, v) => RowIs(w, r, Stamp) && (v == Done ==> r in w.delivered)
    case Sweep(r) => RowIs(w, r, Pending)
    case Pass(_) => true
  }

  function After(w: World, s: Step): World
    requires Enabled(w, s)
  {
    match s
    case Tick(k, o) => SetView(w, Ticked(View(w, k), o, w.now))
    case RolledBack(_) => w
    case RecordBatch(k, o, players) =>
      (match RecordAll(GrantsOf(w, k), o, players, w.now)
       case None => w
       case Some(grants) => SetGrants(w, k, grants))
    case CancelBatch(k, batch) => SetGrants(w, k, CancelAll(GrantsOf(w, k), batch))
    case PanelCommand(row) => w.(queue := w.queue + [Some(row)], origin := w.origin + [Panel])
    case PanelWithdraw(r) => w.(queue := SetRow(w.queue, r, Cancelled))
    case PanelDelete(r) => w.(queue := w.queue[r := None])
    case Claim(r) => w.(queue := SetRow(w.queue, r, Stamp))
    case Deliver(r) => w.(delivered := w.delivered + {r})
    case Reply(r, v) => w.(queue := SetRow(w.queue, r, Answer(v)))
    case Sweep(r) => w.(queue := SetRow(w.queue, r, PlayerOffline))
    case Pass(seconds) => w.(now := w.now + seconds)
  }

  predicate Possible(w: World, steps: seq<Step>)
    decreases |steps|, 0
  {
    steps == [] || (
      var k := |steps| - 1;
      Possible(w, steps[..k]) && Enabled(Run(w, steps[..k]), steps[k]))
  }

  function Run(w: World, steps: seq<Step>): World
    requires Possible(w, steps)
    decreases |steps|, 1
  {
    if steps == [] then w
    else After(Run(w, steps[..|steps| - 1]), steps[|steps| - 1])
  }

  predicate Start(w: World) {
    w.tuike == [] && w.seban == [] && w.queue == [] && w.origin == [] && w.delivered == {}
  }

  // ----- how queue rows may change ----------------------------------------

  predicate Dead(queue: seq<Option<Row>>, r: int) {
    0 <= r < |queue| && queue[r].Some? && queue[r].value.status in {PlayerOffline, Cancelled}
  }

  predicate InGame(queue: seq<Option<Row>>, r: int) {
    0 <= r < |queue| && queue[r].Some? && (queue[r].value.status == Stamp || queue[r].value.status.Answer?)
  }

  predicate StatusMoves(a: RowStatus, b: RowStatus) {
    a == b || a == Pending || (a == Stamp && b.Answer?)
  }

  predicate RowMoves(a: Option<Row>, b: Option<Row>, o: Origin) {
    match (a, b)
    case (None, None) => true
    case (None, Some(_)) => false
    case (Some(x), None) => x.status == Pending && o == Panel
    case (Some(x), Some(y)) => y == x.(status := y.status) && StatusMoves(x.status, y.status)
  }

  /** Rows only move out of `pending` or from a claim to an answer, and only a
      panel's own pending row disappears. */
  predicate QueueMoves(q: seq<Option<Row>>, o: seq<Origin>, q': seq<Option<Row>>, o': seq<Origin>) {
    && |q| == |o| <= |q'| == |o'|
    && o == o'[..|o|]
    && forall r | 0 <= r < |q| :: RowMoves(q[r], q'[r], o[r])
  }

  // ----- the invariant ----------------------------------------------------

  predicate Owns(t: Tables, id: int, r: int) {
    0 <= r < |t.origin| && t.origin[r].Handed? && t.origin[r].worker == t.me && t.origin[r].grant == id
  }

  predicate RowFits(t: Tables, r: nat)
    requires r < |t.queue| && r < |t.origin|
  {
    t.origin[r].Handed? && t.origin[r].worker == t.me ==>
      && t.origin[r].grant < |t.grants|
      && t.queue[r].Some?
      && var g := t.grants[t.origin[r].grant];
         && t.queue[r].value.vnum == g.vnum && t.queue[r].value.quantity == g.quantity
         && t.queue[r].value.missing == g.missing
  }

  /** The words only the quest can put into a grant. */
  predicate QuestWord(v: Verdict) {
    v in {Done, Full, Failed, BadArgs, QtyTooBig, Partial, UnknownCmd}
  }

  ghost predicate GrantFits(t: Tables, id: nat)
    requires id < |t.grants|
  {
    var g := t.grants[id];
    match g.status
    case Waiting => forall r | Owns(t, id, r) :: Dead(t.queue, r)
    case Withdrawn => forall r | Owns(t, id, r) :: Dead(t.queue, r)
    case Queued => g.queueId.Some? && g.queueId.value < |t.queue| && Owns(t, id, g.queueId.value)
                   && forall r | Owns(t, id, r) :: r <= g.queueId.value
    case Closed(v) => QuestWord(v) ==>
                      exists r ::
                        Owns(t, id, r) && r < |t.queue| && t.queue[r].Some? && t.queue[r].value.status == Answer(v)
  }

  ghost predicate EarlierDead(t: Tables) {
    forall id, r, r' | Owns(t, id, r) && Owns(t, id, r') && r < r' :: Dead(t.queue, r)
  }

  ghost predicate Consistent(t: Tables) {
    && |t.queue| == |t.origin|
    && (forall r | 0 <= r < |t.queue| :: RowFits(t, r))
    && EarlierDead(t)
    && forall id | 0 <= id < |t.grants| :: GrantFits(t, id)
  }

  ghost predicate Inv(w: World) {
    && Consistent(View(w, Tuike))
    && Consistent(View(w, Seban))
    && (forall r | r in w.delivered :: InGame(w.queue, r))
    && DoneIsDelivered(w)
  }

  predicate SaysDone(queue: seq<Option<Row>>, r: nat) {
    r < |queue| && queue[r].Some? && queue[r].value.status == Answer(Done)
  }

  ghost predicate DoneIsDelivered(w: World) {
    forall r: nat | SaysDone(w.queue, r) :: r in w.delivered
  }

  /** Moving rows and appending rows of somebody else keeps a worker's tables
      consistent. */
  lemma QueueMovesKeepConsistent(t: Tables, t': Tables)
    requires Consistent(t) && t'.me == t.me && t'.grants == t.grants
    requires QueueMoves(t.queue, t.origin, t'.queue, t'.origin)
    requires forall r | |t.origin| <= r < |t'.origin| :: t'.origin[r].Handed? ==> t'.origin[r].worker != t.me
    ensures Consistent(t')
  {
    assert forall id, r :: Owns(t, id, r) <==> Owns(t', id, r);
    forall id, r | Owns(t, id, r) && Dead(t.queue, r) ensures Dead(t'.queue, r) {
      assert RowMoves(t.queue[r], t'.queue[r], t.origin[r]);
    }
    forall r | 0 <= r < |t'.queue| ensures RowFits(t', r) {
      if r < |t.queue| { assert RowFits(t, r) && RowMoves(t.queue[r], t'.queue[r], t.origin[r]); }
    }
    forall id | 0 <= id < |t.grants| ensures GrantFits(t', id) {
      assert GrantFits(t, id);
      var s := t.grants[id].status;
      if s.Closed? && QuestWord(s.verdict) {
        var r :| Owns(t, id, r) && r < |t.queue| && t.queue[r].Some? && t.queue[r].value.status == Answer(s.verdict);
        assert RowMoves(t.queue[r], t'.queue[r], t.origin[r]);
        assert Owns(t', id, r);
      }
    }
  }

  // ----- one pass of the settling loop ------------------------------------

  /** Nothing a settling pass has not reached yet has changed since the SELECT. */
  ghost predicate Untouched(snap: Tables, t: Tables, ids: seq<nat>) {
    && t.me == snap.me && t.origin == snap.origin && |t.grants| == |snap.grants| && |t.queue| == |snap.queue|
    && forall id | 0 <= id < |snap.grants| && id !in ids ::
         t.grants[id] == snap.grants[id]
         && forall r | Owns(snap, id, r) && r < |snap.queue| :: t.queue[r] == snap.queue[r]
  }

  /** `t'` differs from `t` only in grant `id` and in the status of its row. */
  ghost predicate OnlyGrant(t: Tables, t': Tables, id: nat)
    requires id < |t.grants|
  {
    && t'.me == t.me && t'.origin == t.origin && |t'.grants| == |t.grants|
    && t'.grants[id] == t.grants[id].(
         status := t'.grants[id].status, queueId := t'.grants[id].queueId, nextTry := t'.grants[id].nextTry)
    && (forall j | 0 <= j < |t.grants| && j != id :: t'.grants[j] == t.grants[j])
    && QueueMoves(t.queue, t.origin, t'.queue, t'.origin)
    && forall r | 0 <= r < |t.queue| && !Owns(t, id, r) :: t'.queue[r] == t.queue[r]
  }

  lemma OnlyGrantKeepsConsistent(t: Tables, t': Tables, id: nat)
    requires Consistent(t) && id < |t.grants| && |t'.queue| == |t.queue| && OnlyGrant(t, t', id)
    requires GrantFits(t', id)
    ensures Consistent(t')
  {
    assert forall i, r :: Owns(t, i, r) <==> Owns(t', i, r);
    forall r | 0 <= r < |t'.queue| ensures RowFits(t', r) {
      assert RowFits(t, r) && RowMoves(t.queue[r], t'.queue[r], t.origin[r]);
    }
    forall r | Dead(t.queue, r) && r < |t.origin| ensures Dead(t'.queue, r) {
      assert RowMoves(t.queue[r], t'.queue[r], t.origin[r]);
    }
    forall j | 0 <= j < |t.grants| && j != id ensures GrantFits(t', j) {
      assert GrantFits(t, j);
      var s := t.grants[j].status;
      if s.Closed? && QuestWord(s.verdict) {
        var r :| Owns(t, j, r) && r < |t.queue| && t.queue[r].Some? && t.queue[r].value.status == Answer(s.verdict);
        assert Owns(t', j, r) && t'.queue[r] == t.queue[r];
      }
    }
  }

  /** A settling pass over a queued grant whose row nobody has touched since. */
  lemma SettleOneStep(snap: Tables, t: Tables, id: nat, now: int)
    requires Consistent(t) && |t.grants| == |snap.grants| && id < |t.grants|
    requires t.me == snap.me && t.origin == snap.origin && |t.queue| == |snap.queue|
    requires t.grants[id] == snap.grants[id] && t.grants[id].status == Queued
    requires forall r | Owns(snap, id, r) && r < |snap.queue| :: t.queue[r] == snap.queue[r]
    ensures var t' := SettleOne(snap, t, id, now); OnlyGrant(t, t', id) && Consistent(t')
  {
    var t' := SettleOne(snap, t, id, now);
    assert GrantFits(t, id);
    var q := t.grants[id].queueId.value;
    assert Owns(snap, id, q) && t.queue[q] == snap.queue[q] && RowFits(t, q);
    assert Joined(snap, snap.grants[id]) == t.queue[q] && t.queue[q].Some?;
    assert OnlyGrant(t, t', id);
    assert forall r :: Owns(t', id, r) <==> Owns(t, id, r);
    forall r | Owns(t, id, r) && r != q ensures Dead(t'.queue, r) {
      assert r < q && Dead(t.queue, r);
      assert RowMoves(t.queue[r], t'.queue[r], t.origin[r]);
    }
    assert Owns(t', id, q);
    assert GrantFits(t', id);
    OnlyGrantKeepsConsistent(t, t', id);
  }

  lemma {:induction false} SettleAllSteps(snap: Tables, ids: seq<nat>, now: int)
    requires Consistent(snap) && ValidIds(ids, |snap.grants|) && Distinct(ids)
    requires forall id | id in ids :: snap.grants[id].status == Queued
    ensures var t := SettleAll(snap, ids, now);
      && Consistent(t) && Untouched(snap, t, ids)
      && QueueMoves(snap.queue, snap.origin, t.queue, t.origin)
  {
    if ids != [] {
      var k := |ids| - 1;
      var t := SettleAll(snap, ids[..k], now);
      SettleAllSteps(snap, ids[..k], now);
      var t' := SettleAll(snap, ids, now);
      assert ids[k] !in ids[..k];
      SettleOneStep(snap, t, ids[k], now);
      assert ids == ids[..k] + [ids[k]];
      QueueMovesCompose(snap, t, t');
      assert forall i, r :: Owns(snap, i, r) <==> Owns(t, i, r);
    }
  }

  /** What settling leaves in row `r` when each grant is settled by itself. */
  function SettledRow(snap: Tables, ids: seq<nat>, now: int, r: nat): Option<Row>
    requires ValidIds(ids, |snap.grants|) && r < |snap.queue| == |snap.origin|
  {
    var o := snap.origin[r];
    if o.Handed? && o.worker == snap.me && o.grant in ids then SettleOne(snap, snap, o.grant, now).queue[r]
    else snap.queue[r]
  }

  lemma SettleOneIsLocal(snap: Tables, t: Tables, id: nat, now: int)
    requires Consistent(snap) && |t.grants| == |snap.grants| && id < |t.grants| && |t.queue| == |snap.queue|
    requires t.me == snap.me && t.origin == snap.origin
    requires t.grants[id] == snap.grants[id] && t.grants[id].status == Queued
    requires forall r | Owns(snap, id, r) && r < |snap.queue| :: t.queue[r] == snap.queue[r]
    ensures var a := SettleOne(snap, t, id, now); var b := SettleOne(snap, snap, id, now);
      && a.grants == t.grants[id := b.grants[id]]
      && forall r | 0 <= r < |t.queue| :: a.queue[r] == if Owns(snap, id, r) then b.queue[r] else t.queue[r]
  {
    assert GrantFits(snap, id);
    var q := snap.grants[id].queueId.value;
    assert Owns(snap, id, q) && t.queue[q] == snap.queue[q];
  }

  /** The settling loop settles every grant as if it were the only one. */
  lemma {:induction false} SettlesEachAlone(snap: Tables, ids: seq<nat>, now: int)
    requires Consistent(snap) && ValidIds(ids, |snap.grants|) && Distinct(ids)
    requires forall id | id in ids :: snap.grants[id].status == Queued
    ensures var t := SettleAll(snap, ids, now);
      && (forall id | 0 <= id < |snap.grants| :: t.grants[id] ==
            if id in ids then SettleOne(snap, snap, id, now).grants[id] else snap.grants[id])
      && (forall r | 0 <= r < |snap.queue| :: t.queue[r] == SettledRow(snap, ids, now, r))
  {
    if ids != [] {
      var k := |ids| - 1;
      var id := ids[k];
      SettlesEachAlone(snap, ids[..k], now);
      SettleAllSteps(snap, ids[..k], now);
      assert ids == ids[..k] + [id] && id !in ids[..k];
      var t := SettleAll(snap, ids[..k], now);
      SettleOneIsLocal(snap, t, id, now);
      forall r | 0 <= r < |snap.queue|
        ensures SettleAll(snap, ids, now).queue[r] == SettledRow(snap, ids, now, r)
      {
        assert t.queue[r] == SettledRow(snap, ids[..k], now, r);
      }
    }
  }

  /** So the order in which the SELECT returns the queued grants is immaterial. */
  lemma SettlingOrderIsImmaterial(t: Tables, order: seq<nat>, order': seq<nat>, now: int)
    requires Consistent(t) && ListsQueued(t.grants, order) && ListsQueued(t.grants, order')
    ensures SettleAll(t, order, now) == SettleAll(t, order', now)
  {
    SettlesEachAlone(t, order, now);
    SettlesEachAlone(t, order', now);
    assert SettleAll(t, order, now).grants == SettleAll(t, order', now).grants;
    assert SettleAll(t, order, now).queue == SettleAll(t, order', now).queue;
  }

  lemma QueueMovesCompose(a: Tables, b: Tables, c: Tables)
    requires QueueMoves(a.queue, a.origin, b.queue, b.origin)
    requires QueueMoves(b.queue, b.origin, c.queue, c.origin)
    ensures QueueMoves(a.queue, a.origin, c.queue, c.origin)
  {
    forall r | 0 <= r < |a.queue| ensures RowMoves(a.queue[r], c.queue[r], a.origin[r]) {
      assert RowMoves(a.queue[r], b.queue[r], a.origin[r]);
      assert b.origin[r] == a.origin[r];
      assert RowMoves(b.queue[r], c.queue[r], b.origin[r]);
    }
  }

  // ----- one pass of the dispatching loop ---------------------------------

  lemma DispatchOneStep(t: Tables, id: nat, probe: bool, lookup: Grant -> Lookup, now: int)
    requires Consistent(t) && id < |t.grants| && t.grants[id].status == Waiting
    ensures var t' := DispatchOne(t, id, probe, lookup, now);
      && Consistent(t') && t'.grants[id].status != Waiting
      && (forall j | 0 <= j < |t.grants| && j != id :: t'.grants[j] == t.grants[j])
      && QueueMoves(t.queue, t.origin, t'.queue, t'.origin)
      && (forall r | |t.origin| <= r < |t'.origin| :: t'.origin[r].Handed? && t'.origin[r].worker == t.me)
  {
    var t' := DispatchOne(t, id, probe, lookup, now);
    assert GrantFits(t, id);
    if !lookup(t.grants[id]).Matched? {
      OnlyGrantKeepsConsistent(t, t', id);
    } else {
      var q := |t.queue|;
      assert forall i, r :: Owns(t', i, r) <==> Owns(t, i, r) || (i == id && r == q);
      assert Owns(t', id, q);
      forall r | 0 <= r < |t'.queue| ensures RowFits(t', r) {
        if r < q { assert RowFits(t, r); }
      }
      forall j | 0 <= j < |t.grants| ensures GrantFits(t', j) {
        assert GrantFits(t, j);
        ClosedStillFits(t, t', j);
      }
    }
  }

  /** A grant closed with a quest word keeps the row that carries it. */
  lemma ClosedStillFits(t: Tables, t': Tables, j: nat)
    requires j < |t.grants| == |t'.grants| && GrantFits(t, j) && |t.queue| <= |t'.queue|
    requires forall r | 0 <= r < |t.queue| :: t'.queue[r] == t.queue[r]
    requires forall r :: Owns(t, j, r) ==> Owns(t', j, r)
    ensures t.grants[j].status.Closed? && QuestWord(t.grants[j].status.verdict) ==>
              exists r ::
                && Owns(t', j, r) && r < |t'.queue| && t'.queue[r].Some?
                && t'.queue[r].value.status == Answer(t.grants[j].status.verdict)
  {
    var s := t.grants[j].status;
    if s.Closed? && QuestWord(s.verdict) {
      var r :| Owns(t, j, r) && r < |t.queue| && t.queue[r].Some? && t.queue[r].value.status == Answer(s.verdict);
      assert Owns(t', j, r) && t'.queue[r] == t.queue[r];
    }
  }

  lemma {:induction false} DispatchAllSteps(t: Tables, ids: seq<nat>, fast: nat, lookup: Grant -> Lookup, now: int)
    requires Consistent(t) && ValidIds(ids, |t.grants|) && Distinct(ids)
    requires forall id | id in ids :: t.grants[id].status == Waiting
    ensures var t' := DispatchAll(t, ids, fast, lookup, now);
      && Consistent(t')
      && (forall id | id in ids :: t'.grants[id].status != Waiting)
      && (forall j | 0 <= j < |t.grants| && j !in ids :: t'.grants[j] == t.grants[j])
      && QueueMoves(t.queue, t.origin, t'.queue, t'.origin)
      && (forall r | |t.origin| <= r < |t'.origin| :: t'.origin[r].Handed? && t'.origin[r].worker == t.me)
  {
    if ids != [] {
      var k := |ids| - 1;
      DispatchAllSteps(t, ids[..k], fast, lookup, now);
      var m := DispatchAll(t, ids[..k], fast, lookup, now);
      assert ids[k] !in ids[..k];
      DispatchOneStep(m, ids[k], k >= fast, lookup, now);
      var t' := DispatchAll(t, ids, fast, lookup, now);
      QueueMovesCompose(t, m, t');
      assert ids == ids[..k] + [ids[k]];
    }
  }

  lemma TickSteps(t: Tables, o: Outside, now: int)
    requires Consistent(t) && ListsQueued(t.grants, o.order)
    ensures var t' := Ticked(t, o, now);
      && Consistent(t') && |t'.grants| == |t.grants|
      && QueueMoves(t.queue, t.origin, t'.queue, t'.origin)
      && (forall r | |t.origin| <= r < |t'.origin| :: t'.origin[r].Handed? && t'.origin[r].worker == t.me)
  {
    SettleAllSteps(t, o.order, now);
    var m := SettleAll(t, o.order, now);
    PickedAreDue(m.grants, Capacity(o), o.seen, o.online, o.bots, now);
    var p := PickFor(m, o, now);
    DispatchAllSteps(m, p.ids, p.fast, o.lookup, now);
    QueueMovesCompose(t, m, Ticked(t, o, now));
  }

  /** Settling and dispatching answer nothing: answers come from the quest alone. */
  lemma {:induction false} SettleAnswersNothing(snap: Tables, ids: seq<nat>, now: int, r: nat)
    requires ValidIds(ids, |snap.grants|) && SaysDone(SettleAll(snap, ids, now).queue, r)
    ensures SaysDone(snap.queue, r)
  {
    if ids != [] {
      SettleAnswersNothing(snap, ids[..|ids| - 1], now, r);
    }
  }

  lemma {:induction false} DispatchAnswersNothing(
    t: Tables, ids: seq<nat>, fast: nat, lookup: Grant -> Lookup, now: int, r: nat)
    requires ValidIds(ids, |t.grants|) && SaysDone(DispatchAll(t, ids, fast, lookup, now).queue, r)
    ensures SaysDone(t.queue, r)
  {
    if ids != [] {
      DispatchAnswersNothing(t, ids[..|ids| - 1], fast, lookup, now, r);
    }
  }

  lemma TickAnswersNothing(t: Tables, o: Outside, now: int, r: nat)
    requires ListsQueued(t.grants, o.order) && SaysDone(Ticked(t, o, now).queue, r)
    ensures SaysDone(t.queue, r)
  {
    var m := SettleAll(t, o.order, now);
    var p := PickFor(m, o, now);
    DispatchAnswersNothing(m, p.ids, p.fast, o.lookup, now, r);
    SettleAnswersNothing(t, o.order, now, r);
  }

  // ----- every step keeps the invariant -----------------------------------

  function Other(k: Worker): Worker {
    if k == Tuike then Seban else Tuike
  }

  lemma MovedRowStep(w: World, r: nat, status: RowStatus)
    requires Inv(w) && r < |w.queue| && w.queue[r].Some? && StatusMoves(w.queue[r].value.status, status)
    requires status == Answer(Done) ==> r in w.delivered
    ensures Inv(w.(queue := SetRow(w.queue, r, status)))
  {
    var w' := w.(queue := SetRow(w.queue, r, status));
    QueueMovesKeepConsistent(View(w, Tuike), View(w', Tuike));
    QueueMovesKeepConsistent(View(w, Seban), View(w', Seban));
  }

  lemma TickStep(w: World, k: Worker, o: Outside)
    requires Inv(w) && Enabled(w, Tick(k, o))
    ensures Inv(After(w, Tick(k, o)))
  {
    var w' := After(w, Tick(k, o));
    TickSteps(View(w, k), o, w.now);
    assert View(w', k) == Ticked(View(w, k), o, w.now);
    QueueMovesKeepConsistent(View(w, Other(k)), View(w', Other(k)));
    forall r | r in w.delivered ensures InGame(w'.queue, r) {
      assert RowMoves(w.queue[r], w'.queue[r], w.origin[r]);
    }
    forall r: nat | SaysDone(w'.queue, r) ensures r in w'.delivered {
      TickAnswersNothing(View(w, k), o, w.now, r);
    }
  }

  lemma {:induction false} RecordAllAppends(grants: seq<Grant>, o: Order, players: seq<nat>, now: int)
    requires RecordAll(grants, o, players, now).Some?
    ensures var gs := RecordAll(grants, o, players, now).value;
      && |gs| == |grants| + |players| && gs[..|grants|] == grants
      && forall k | 0 <= k < |players| :: gs[|grants| + k] == NewGrant(o, players[k], now)
  {
    if players != [] {
      RecordAllAppends(grants, o, players[..|players| - 1], now);
    }
  }

  lemma RecordStep(t: Tables, o: Order, players: seq<nat>, now: int)
    requires Consistent(t) && RecordAll(t.grants, o, players, now).Some?
    ensures Consistent(t.(grants := RecordAll(t.grants, o, players, now).value))
  {
    RecordAllAppends(t.grants, o, players, now);
    var t' := t.(grants := RecordAll(t.grants, o, players, now).value);
    assert forall id, r :: Owns(t', id, r) <==> Owns(t, id, r);
    forall r | 0 <= r < |t'.queue| ensures RowFits(t', r) {
      assert RowFits(t, r);
    }
    forall id | 0 <= id < |t'.grants| ensures GrantFits(t', id) {
      if id < |t.grants| {
        assert t'.grants[id] == t'.grants[..|t.grants|][id];
        assert GrantFits(t, id);
        var s := t.grants[id].status;
        if s.Closed? && QuestWord(s.verdict) {
          var r :| Owns(t, id, r) && r < |t.queue| && t.queue[r].Some? && t.queue[r].value.status == Answer(s.verdict);
          assert Owns(t', id, r);
        }
      } else {
        assert t'.grants[id] == NewGrant(o, players[id - |t.grants|], now);
        forall r ensures !Owns(t', id, r) {
          if 0 <= r < |t.queue| { assert RowFits(t, r); }
        }
      }
    }
  }

  lemma CancelStep(t: Tables, batch: string)
    requires Consistent(t)
    ensures Consistent(t.(grants := CancelAll(t.grants, batch)))
  {
    var t' := t.(grants := CancelAll(t.grants, batch));
    assert forall id, r :: Owns(t', id, r) <==> Owns(t, id, r);
    forall r | 0 <= r < |t'.queue| ensures RowFits(t', r) {
      assert RowFits(t, r);
    }
    forall id | 0 <= id < |t'.grants| ensures GrantFits(t', id) {
      assert GrantFits(t, id);
      var s := t.grants[id].status;
      if s.Closed? && QuestWord(s.verdict) {
        var r :| Owns(t, id, r) && r < |t.queue| && t.queue[r].Some? && t.queue[r].value.status == Answer(s.verdict);
        assert Owns(t', id, r);
      }
    }
  }

  /** Every step of every actor keeps both workers' tables consistent. */
  lemma StepKeepsInv(w: World, s: Step)
    requires Inv(w) && Enabled(w, s)
    ensures Inv(After(w, s))
  {
    var w' := After(w, s);
    match s
    case Tick(k, o) => TickStep(w, k, o);
    case RolledBack(_) =>
    case RecordBatch(k, o, players) =>
      if RecordAll(GrantsOf(w, k), o, players, w.now).Some? {
        RecordStep(View(w, k), o, players, w.now);
        assert View(w', Other(k)) == View(w, Other(k));
      }
    case CancelBatch(k, batch) =>
      CancelStep(View(w, k), batch);
      assert View(w', Other(k)) == View(w, Other(k));
    case PanelCommand(row) =>
      QueueMovesKeepConsistent(View(w, Tuike), View(w', Tuike));
      QueueMovesKeepConsistent(View(w, Seban), View(w', Seban));
    case PanelWithdraw(r) => MovedRowStep(w, r, Cancelled);
    case PanelDelete(r) =>
      QueueMovesKeepConsistent(View(w, Tuike), View(w', Tuike));
      QueueMovesKeepConsistent(View(w, Seban), View(w', Seban));
    case Claim(r) => MovedRowStep(w, r, Stamp);
    case Deliver(r) =>
      assert View(w', Tuike) == View(w, Tuike) && View(w', Seban) == View(w, Seban);
    case Reply(r, v) => MovedRowStep(w, r, Answer(v));
    case Sweep(r) => MovedRowStep(w, r, PlayerOffline);
    case Pass(_) =>
      assert View(w', Tuike) == View(w, Tuike) && View(w', Seban) == View(w, Seban);
  }

  lemma {:induction false} RunKeepsInv(w: World, steps: seq<Step>)
    requires Inv(w) && Possible(w, steps)
    ensures Inv(Run(w, steps))
  {
    if steps != [] {
      RunKeepsInv(w, steps[..|steps| - 1]);
      StepKeepsInv(Run(w, steps[..|steps| - 1]), steps[|steps| - 1]);
    }
  }

  // ----- the main results -------------------------------------------------

  /** Row `r` carries what grant `id` asked for, and the grant knows it is out. */
  predicate CarriesOut(t: Tables, id: nat, r: nat)
    requires id < |t.grants|
  {
    var g := t.grants[id];
    && g.status != Waiting && g.status != Withdrawn
    && r < |t.queue| && t.queue[r].Some? && t.queue[r].value.vnum == g.vnum
    && t.queue[r].value.quantity == g.quantity && t.queue[r].value.missing == g.missing
  }

  /** One of the grant's rows holds the verdict. */
  ghost predicate GivenTo(t: Tables, id: nat, v: Verdict) {
    exists r :: Owns(t, id, r) && r < |t.queue| && t.queue[r].Some? && t.queue[r].value.status == Answer(v)
  }

  lemma DeliveredRow(e: World, k: Worker, id: nat, r: nat)
    requires Inv(e) && id < |GrantsOf(e, k)| && r in e.delivered && Owns(View(e, k), id, r)
    ensures CarriesOut(View(e, k), id, r) && !Dead(View(e, k).queue, r)
  {
    var t := View(e, k);
    assert Consistent(t) && GrantFits(t, id);
    assert InGame(t.queue, r) && RowFits(t, r);
  }

  lemma AtMostOneDelivered(e: World, k: Worker, id: nat, r: nat, r': nat)
    requires Inv(e) && id < |GrantsOf(e, k)| && r in e.delivered && r' in e.delivered
    requires Owns(View(e, k), id, r) && Owns(View(e, k), id, r')
    ensures r == r'
  {
    assert Consistent(View(e, k)) && GrantFits(View(e, k), id);
    DeliveredRow(e, k, id, r);
    DeliveredRow(e, k, id, r');
  }

  lemma VerdictHasItsRow(e: World, k: Worker, id: nat)
    requires Inv(e) && id < |GrantsOf(e, k)|
    ensures var t := View(e, k); var g := t.grants[id];
      && (g.status == Closed(Done) ==> exists r: nat :: r in e.delivered && Owns(t, id, r))
      && (g.status.Closed? && QuestWord(g.status.verdict) ==> GivenTo(t, id, g.status.verdict))
  {
    var t := View(e, k);
    assert Consistent(t) && GrantFits(t, id);
    if t.grants[id].status == Closed(Done) {
      var r :| Owns(t, id, r) && r < |t.queue| && t.queue[r].Some? && t.queue[r].value.status == Answer(Done);
      assert SaysDone(e.queue, r);
    }
  }

  /** However ticks, rollbacks, cancellations, claims, answers and sweeps
      interleave: the quest carries out at most one row of a grant, and exactly
      one of a grant closed as done; what it carries out is what the grant asked
      for, nothing was carried out for a grant that is waiting or withdrawn, and
      a verdict only the quest can give was given to one of the grant's rows. */
  lemma EveryGrantHandedOverOnce(w: World, steps: seq<Step>, k: Worker, id: nat)
    requires Start(w) && Possible(w, steps) && id < |GrantsOf(Run(w, steps), k)|
    ensures var e := Run(w, steps); var t := View(e, k); var g := t.grants[id];
      && (forall r, r' | r in e.delivered && r' in e.delivered && Owns(t, id, r) && Owns(t, id, r') :: r == r')
      && (forall r | r in e.delivered && Owns(t, id, r) :: CarriesOut(t, id, r))
      && (g.status == Closed(Done) ==> exists r: nat :: r in e.delivered && Owns(t, id, r))
      && (g.status.Closed? && QuestWord(g.status.verdict) ==> GivenTo(t, id, g.status.verdict))
  {
    RunKeepsInv(w, steps);
    var e := Run(w, steps);
    var t := View(e, k);
    forall r, r' | r in e.delivered && r' in e.delivered && Owns(t, id, r) && Owns(t, id, r') ensures r == r' {
      AtMostOneDelivered(e, k, id, r, r');
    }
    forall r | r in e.delivered && Owns(t, id, r) ensures CarriesOut(t, id, r) {
      DeliveredRow(e, k, id, r);
    }
    VerdictHasItsRow(e, k, id);
  }
}
