/** The durable grant worker: the tables it works on, what each of its loops
    does to them, and the worker itself as an object over those tables.

    Two panels run one such worker each. Both keep a grants table of their own
    and share the game's command queue. Auto-increment ids are modelled by the
    position of a row in its table: rows are only ever appended. A queue row
    that another panel deleted is `None`. */
module GrantQueue {
  import opened Common

  const MAX_PENDING: nat := 10
  const OFFLINE_PROBES_PER_TICK: nat := 2
  const OFFLINE_MAX_PENDING: nat := 4
  const QUEUE_ABANDON_SECONDS: nat := 60
  const QUEUE_REVIEW_SECONDS: nat := 120
  const OFFLINE_RETRY_SECONDS: nat := 120

  datatype Worker = Tuike | Seban

  /** The words that close a grant. `Foreign` stands for every word the quest
      can leave that the panel does not list, such as "no_gm". */
  datatype Verdict =
    | Done | HasItem | Full | Failed | BadArgs | NoSkill | Gone
    | QtyTooBig | Partial | Review | UnknownCmd | Foreign

  /** `Stamp` is the quest's claim token, the w-prefixed state. */
  datatype RowStatus = Pending | Stamp | PlayerOffline | Cancelled | Answer(verdict: Verdict)

  datatype Row = Row(status: RowStatus, created: int, name: string, missing: bool, vnum: nat, quantity: nat)

  datatype GrantStatus = Waiting | Queued | Withdrawn | Closed(verdict: Verdict)

  datatype Grant = Grant(
    batch: string, player: nat, vnum: nat, quantity: nat, missing: bool,
    status: GrantStatus, queueId: Option<nat>, nextTry: int)

  /** What the player tables say about a grant's recipient at send time. */
  datatype Lookup = Matched(name: string) | NoCharacter | NotMatching

  /** Who put a queue row there. Bookkeeping of the proofs, not a column. */
  datatype Origin = Panel | Handed(worker: Worker, grant: nat, probe: bool)

  /** What one worker can reach: its own grants and the shared queue. */
  datatype Tables = Tables(me: Worker, grants: seq<Grant>, queue: seq<Option<Row>>, origin: seq<Origin>)

  // ----- settling ---------------------------------------------------------

  function Joined(t: Tables, g: Grant): Option<Row> {
    if g.queueId.Some? && g.queueId.value < |t.queue| then t.queue[g.queueId.value] else None
  }

  function CloseGrant(t: Tables, id: nat, status: GrantStatus): Tables
    requires id < |t.grants|
  {
    t.(grants := t.grants[id := t.grants[id].(status := status)])
  }

  function RetryGrant(t: Tables, id: nat, now: int): Tables
    requires id < |t.grants|
  {
    t.(grants := t.grants[id := t.grants[id].(
      status := Waiting, queueId := None, nextTry := now + OFFLINE_RETRY_SECONDS)])
  }

  predicate StillPending(queue: seq<Option<Row>>, r: nat) {
    r < |queue| && queue[r].Some? && queue[r].value.status == Pending
  }

  function SetRow(queue: seq<Option<Row>>, r: nat, status: RowStatus): seq<Option<Row>>
    requires r < |queue| && queue[r].Some?
  {
    queue[r := Some(queue[r].value.(status := status))]
  }

  /** One pass of the settling loop. `snap` is what the SELECT returned, `t`
      the tables as the earlier passes left them. */
  function SettleOne(snap: Tables, t: Tables, id: nat, now: int): (t': Tables)
    requires id < |snap.grants| == |t.grants|
    ensures t'.me == t.me && t'.origin == t.origin
    ensures |t'.grants| == |t.grants| && |t'.queue| == |t.queue|
  {
    var g := snap.grants[id];
    match Joined(snap, g)
    case None => CloseGrant(t, id, Closed(Review))
    case Some(row) =>
      match row.status
      case Pending =>
        if now - row.created > QUEUE_ABANDON_SECONDS && StillPending(t.queue, g.queueId.value) then
          RetryGrant(t.(queue := SetRow(t.queue, g.queueId.value, Cancelled)), id, now)
        else t
      case Stamp =>
        if now - row.created < QUEUE_REVIEW_SECONDS then t else CloseGrant(t, id, Closed(Review))
      case PlayerOffline => RetryGrant(t, id, now)
      case Cancelled => CloseGrant(t, id, Withdrawn)
      case Answer(v) => CloseGrant(t, id, Closed(if v == Foreign then Review else v))
  }

  predicate ValidIds(ids: seq<nat>, n: nat) {
    forall k | 0 <= k < |ids| :: ids[k] < n
  }

  function SettleAll(snap: Tables, ids: seq<nat>, now: int): (t': Tables)
    requires ValidIds(ids, |snap.grants|)
    ensures t'.me == snap.me && t'.origin == snap.origin
    ensures |t'.grants| == |snap.grants| && |t'.queue| == |snap.queue|
  {
    if ids == [] then snap
    else SettleOne(snap, SettleAll(snap, ids[..|ids| - 1], now), ids[|ids| - 1], now)
  }

  predicate Distinct(ids: seq<nat>) {
    forall i, j | 0 <= i < j < |ids| :: ids[i] != ids[j]
  }

  /** `ids` lists exactly the queued grants; the SELECT gives no order. */
  predicate ListsQueued(grants: seq<Grant>, ids: seq<nat>) {
    && Distinct(ids)
    && ValidIds(ids, |grants|)
    && (forall i | 0 <= i < |grants| :: grants[i].status == Queued <==> i in ids)
  }

  // ----- picking ----------------------------------------------------------

  /** The WHERE clause of the three SELECTs that pick. */
  datatype Lane = AnyDue | FastLane(online: set<nat>, bots: set<nat>) | NotTaken(taken: seq<nat>)

  predicate DueNow(g: Grant, now: int) {
    g.status == Waiting && g.nextTry <= now
  }

  predicate Fast(g: Grant, online: set<nat>, bots: set<nat>) {
    g.player in online || g.player !in bots
  }

  predicate InLane(grants: seq<Grant>, id: nat, lane: Lane, now: int)
    requires id < |grants|
  {
    && DueNow(grants[id], now)
    && match lane
       case AnyDue => true
       case FastLane(online, bots) => Fast(grants[id], online, bots)
       case NotTaken(taken) => id !in taken
  }

  /** ORDER BY next_try, id */
  predicate Before(grants: seq<Grant>, i: nat, j: nat)
    requires i < |grants| && j < |grants|
  {
    grants[i].nextTry < grants[j].nextTry || (grants[i].nextTry == grants[j].nextTry && i < j)
  }

  function Insert(grants: seq<Grant>, id: nat, ids: seq<nat>): (r: seq<nat>)
    requires id < |grants| && ValidIds(ids, |grants|)
    ensures ValidIds(r, |grants|)
  {
    if ids == [] then [id]
    else if Before(grants, id, ids[0]) then [id] + ids
    else [ids[0]] + Insert(grants, id, ids[1..])
  }

  /** The ordered result of a SELECT over the first `n` grants. */
  function Select(grants: seq<Grant>, lane: Lane, now: int, n: nat): (r: seq<nat>)
    requires n <= |grants|
    ensures ValidIds(r, |grants|)
  {
    if n == 0 then []
    else
      var rest := Select(grants, lane, now, n - 1);
      if InLane(grants, n - 1, lane, now) then Insert(grants, n - 1, rest) else rest
  }

  function Limit(ids: seq<nat>, n: nat): seq<nat> {
    if |ids| <= n then ids else ids[..n]
  }

  /** The picked ids; those from position `fast` on are offline probes. */
  datatype Picked = Picked(ids: seq<nat>, fast: nat)

  /** `online` is `None` when the collector's snapshot is missing or stale. */
  function Pick(
    grants: seq<Grant>, capacity: int, pending: nat, online: Option<set<nat>>, bots: set<nat>, now: int): (p: Picked)
    ensures ValidIds(p.ids, |grants|) && p.fast <= |p.ids|
  {
    if capacity <= 0 then Picked([], 0)
    else if online.None? then
      var ids := Limit(Select(grants, AnyDue, now, |grants|), capacity);
      Picked(ids, |ids|)
    else
      var fast := Limit(Select(grants, FastLane(online.value, bots), now, |grants|), capacity);
      var left := ProbesLeft(capacity, |fast|, pending);
      var probes := if left > 0 then Limit(Select(grants, NotTaken(fast), now, |grants|), left) else [];
      Picked(fast + probes, |fast|)
  }

  function ProbesLeft(capacity: int, fast: nat, pending: nat): int {
    Min(Min(capacity - fast, OFFLINE_PROBES_PER_TICK), OFFLINE_MAX_PENDING - pending)
  }

  // ----- dispatching ------------------------------------------------------

  function DispatchOne(t: Tables, id: nat, probe: bool, lookup: Grant -> Lookup, now: int): (t': Tables)
    requires id < |t.grants|
    ensures |t'.grants| == |t.grants| && t'.me == t.me
  {
    var g := t.grants[id];
    match lookup(g)
    case NoCharacter => CloseGrant(t, id, Closed(Gone))
    case NotMatching => CloseGrant(t, id, Closed(if g.missing then HasItem else NoSkill))
    case Matched(name) =>
      Tables(t.me,
             t.grants[id := g.(status := Queued, queueId := Some(|t.queue|))],
             t.queue + [Some(Row(Pending, now, name, g.missing, g.vnum, g.quantity))],
             t.origin + [Handed(t.me, id, probe)])
  }

  function DispatchAll(t: Tables, ids: seq<nat>, fast: nat, lookup: Grant -> Lookup, now: int): (t': Tables)
    requires ValidIds(ids, |t.grants|)
    ensures |t'.grants| == |t.grants| && t'.me == t.me
  {
    if ids == [] then t
    else
      var k := |ids| - 1;
      DispatchOne(DispatchAll(t, ids[..k], fast, lookup, now), ids[k], k >= fast, lookup, now)
  }

  function PendingIn(queue: seq<Option<Row>>, n: nat): (c: nat)
    requires n <= |queue|
    ensures c <= n
  {
    if n == 0 then 0 else PendingIn(queue, n - 1) + (if StillPending(queue, n - 1) then 1 else 0)
  }

  function PendingCount(queue: seq<Option<Row>>): nat {
    PendingIn(queue, |queue|)
  }

  /** A pending row that worker `k` put there. */
  predicate OwnPending(queue: seq<Option<Row>>, origin: seq<Origin>, k: Worker, r: nat) {
    StillPending(queue, r) && r < |origin| && origin[r].Handed? && origin[r].worker == k
  }

  function OwnIn(queue: seq<Option<Row>>, origin: seq<Origin>, k: Worker, n: nat): (c: nat)
    requires n <= |queue|
    ensures c <= PendingIn(queue, n)
  {
    if n == 0 then 0
    else OwnIn(queue, origin, k, n - 1) + (if OwnPending(queue, origin, k, n - 1) then 1 else 0)
  }

  function OwnCount(queue: seq<Option<Row>>, origin: seq<Origin>, k: Worker): nat {
    OwnIn(queue, origin, k, |queue|)
  }

  /** What a tick reads besides its own tables. `seen` is the number of pending
      rows its COUNT returns: all of them when it runs alone, but rows that the
      other worker's transaction has not committed yet are missing from it. */
  datatype Outside = Outside(
    order: seq<nat>, seen: nat, online: Option<set<nat>>, bots: set<nat>, lookup: Grant -> Lookup)

  function Capacity(o: Outside): nat {
    Max(0, MAX_PENDING - o.seen)
  }

  function PickFor(t: Tables, o: Outside, now: int): (p: Picked)
    ensures ValidIds(p.ids, |t.grants|) && p.fast <= |p.ids|
  {
    Pick(t.grants, Capacity(o), o.seen, o.online, o.bots, now)
  }

  function Dispatch(t: Tables, o: Outside, now: int): Tables {
    var p := PickFor(t, o, now);
    DispatchAll(t, p.ids, p.fast, o.lookup, now)
  }

  function Ticked(t: Tables, o: Outside, now: int): Tables
    requires ListsQueued(t.grants, o.order)
  {
    Dispatch(SettleAll(t, o.order, now), o, now)
  }

  /** The same reads by a tick that runs alone: its COUNT sees every row. */
  function Alone(t: Tables, o: Outside, now: int): Outside
    requires ListsQueued(t.grants, o.order)
  {
    o.(seen := PendingCount(SettleAll(t, o.order, now).queue))
  }

  // ----- recording and cancelling -----------------------------------------

  predicate Recorded(grants: seq<Grant>, batch: string, player: nat) {
    exists i | 0 <= i < |grants| :: grants[i].batch == batch && grants[i].player == player
  }

  datatype Order = Order(batch: string, vnum: nat, quantity: nat, missing: bool)

  function NewGrant(o: Order, player: nat, now: int): Grant {
    Grant(o.batch, player, o.vnum, o.quantity, o.missing, Waiting, None, now)
  }

  /** One row per recipient; the unique key on (batch, player_id) makes the
      whole insert fail, and the caller roll back, when a recipient repeats. */
  function RecordAll(grants: seq<Grant>, o: Order, players: seq<nat>, now: int): Option<seq<Grant>> {
    if players == [] then Some(grants)
    else
      match RecordAll(grants, o, players[..|players| - 1], now)
      case None => None
      case Some(gs) =>
        var p := players[|players| - 1];
        if Recorded(gs, o.batch, p) then None else Some(gs + [NewGrant(o, p, now)])
  }

  function CancelOne(g: Grant, batch: string): Grant {
    if g.status == Waiting && g.batch == batch then g.(status := Withdrawn) else g
  }

  function CancelAll(grants: seq<Grant>, batch: string): (r: seq<Grant>)
    ensures |r| == |grants|
    ensures forall i | 0 <= i < |grants| :: r[i] == CancelOne(grants[i], batch)
  {
    if grants == [] then []
    else CancelAll(grants[..|grants| - 1], batch) + [CancelOne(grants[|grants| - 1], batch)]
  }

  // ----- the worker -------------------------------------------------------

  /** The queue every panel and the quest share. */
  class GameQueue {
    var rows: seq<Option<Row>>
    ghost var origin: seq<Origin>

    constructor ()
      ensures rows == [] && origin == []
    {
      rows, origin := [], [];
    }

    method CountPending() returns (n: nat)
      ensures n == PendingCount(rows)
    {
      n := 0;
      for i := 0 to |rows|
        invariant n == PendingIn(rows, i)
      {
        if StillPending(rows, i) {
          n := n + 1;
        }
      }
    }
  }

  class GrantWorker {
    const me: Worker
    const queue: GameQueue
    var grants: seq<Grant>

    constructor (me: Worker, queue: GameQueue)
      ensures this.me == me && this.queue == queue && grants == []
    {
      this.me, this.queue, grants := me, queue, [];
    }

    ghost function State(): Tables
      reads this, queue
    {
      Tables(me, grants, queue.rows, queue.origin)
    }

    method SettleQueued(order: seq<nat>, now: int)
      requires ListsQueued(grants, order)
      modifies this`grants, queue`rows
      ensures State() == SettleAll(old(State()), order, now)
    {
      ghost var snap := State();
      var selected := grants;
      var joined := queue.rows;
      for i := 0 to |order|
        invariant State() == SettleAll(snap, order[..i], now)
      {
        assert order[..i + 1][..i] == order[..i];
        var id := order[i];
        var g := selected[id];
        var row := if g.queueId.Some? && g.queueId.value < |joined| then joined[g.queueId.value] else None;
        var status := if row.Some? then Some(row.value.status) else None;
        var age := if row.Some? then now - row.value.created else 0;
        if status == Some(Pending) && age > QUEUE_ABANDON_SECONDS {
          if StillPending(queue.rows, g.queueId.value) {
            queue.rows := SetRow(queue.rows, g.queueId.value, Cancelled);
            status := Some(PlayerOffline);
          }
        }
        if status == Some(Pending) {
          continue;
        }
        if status == Some(Stamp) {
          if age < QUEUE_REVIEW_SECONDS {
            continue;
          }
          status := Some(Answer(Review));
        }
        if status == Some(PlayerOffline) {
          grants := grants[id :=
            grants[id].(status := Waiting, queueId := None, nextTry := now + OFFLINE_RETRY_SECONDS)];
        } else {
          var verdict := match status {
            case Some(Cancelled) => Withdrawn
            case Some(Answer(v)) => Closed(if v == Foreign then Review else v)
            case _ => Closed(Review)
          };
          grants := grants[id := grants[id].(status := verdict)];
        }
      }
      assert order[..|order|] == order;
    }

    method PickWaiting(capacity: int, pending: nat, online: Option<set<nat>>, bots: set<nat>, now: int)
      returns (picked: seq<nat>, fast: nat)
      ensures Picked(picked, fast) == Pick(grants, capacity, pending, online, bots, now)
    {
      if capacity <= 0 {
        return [], 0;
      }
      if online.None? {
        picked := Limit(Select(grants, AnyDue, now, |grants|), capacity);
        fast := |picked|;
        return;
      }
      picked := Limit(Select(grants, FastLane(online.value, bots), now, |grants|), capacity);
      fast := |picked|;
      var left := Min(Min(capacity - |picked|, OFFLINE_PROBES_PER_TICK), OFFLINE_MAX_PENDING - pending);
      if left > 0 {
        picked := picked + Limit(Select(grants, NotTaken(picked), now, |grants|), left);
      }
    }

    /** One chosen grant: its recipient looked up, a row queued, or the grant closed. */
    method DispatchGrant(id: nat, probe: bool, lookup: Grant -> Lookup, now: int)
      requires id < |grants|
      modifies this`grants, queue
      ensures State() == DispatchOne(old(State()), id, probe, lookup, now)
    {
      var g := grants[id];
      match lookup(g) {
        case NoCharacter =>
          grants := grants[id := g.(status := Closed(Gone))];
        case NotMatching =>
          grants := grants[id := g.(status := Closed(if g.missing then HasItem else NoSkill))];
        case Matched(name) =>
          queue.rows := queue.rows + [Some(Row(Pending, now, name, g.missing, g.vnum, g.quantity))];
          queue.origin := queue.origin + [Handed(me, id, probe)];
          grants := grants[id := g.(status := Queued, queueId := Some(|queue.rows| - 1))];
      }
    }

    method DispatchWaiting(o: Outside, now: int)
      modifies this`grants, queue
      ensures State() == Dispatch(old(State()), o.(seen := PendingCount(old(queue.rows))), now)
    {
      ghost var start := State();
      var pending := queue.CountPending();
      var picked, fast := PickWaiting(Max(0, MAX_PENDING - pending), pending, o.online, o.bots, now);
      assert Picked(picked, fast) == PickFor(start, o.(seen := pending), now);
      for i := 0 to |picked|
        invariant State() == DispatchAll(start, picked[..i], fast, o.lookup, now)
      {
        assert picked[..i + 1][..i] == picked[..i];
        DispatchGrant(picked[i], i >= fast, o.lookup, now);
      }
      assert picked[..|picked|] == picked;
    }

    /** One pass under the worker's lock and inside one transaction. `failed`
        says that a statement raised before the commit: everything is undone. */
    method Tick(acquired: bool, o: Outside, now: int, failed: bool)
      requires ListsQueued(grants, o.order)
      modifies this`grants, queue
      ensures State() ==
        if acquired && !failed then Ticked(old(State()), Alone(old(State()), o, now), now) else old(State())
    {
      if !acquired {
        return;
      }
      var grantsBefore, rowsBefore := grants, queue.rows;
      ghost var originBefore := queue.origin;
      SettleQueued(o.order, now);
      DispatchWaiting(o, now);
      if failed {
        grants, queue.rows := grantsBefore, rowsBefore;
        queue.origin := originBefore;
      }
    }

    method Record(o: Order, players: seq<nat>, now: int) returns (ok: bool)
      modifies this`grants
      ensures ok <==> RecordAll(old(grants), o, players, now).Some?
      ensures grants == if ok then RecordAll(old(grants), o, players, now).value else old(grants)
    {
      var before := grants;
      for i := 0 to |players|
        invariant RecordAll(before, o, players[..i], now) == Some(grants)
      {
        assert players[..i + 1][..i] == players[..i];
        if exists k | 0 <= k < |grants| :: grants[k].batch == o.batch && grants[k].player == players[i] {
          assert RecordAll(before, o, players[..i + 1], now) == None;
          RecordFails(before, o, players, i + 1, now);
          grants := before;
          return false;
        }
        grants := grants + [NewGrant(o, players[i], now)];
      }
      assert players[..|players|] == players;
      return true;
    }

    method CancelBatch(batch: string)
      modifies this`grants
      ensures grants == CancelAll(old(grants), batch)
    {
      ghost var before := grants;
      for i := 0 to |grants|
        invariant |grants| == |before|
        invariant forall k | 0 <= k < i :: grants[k] == CancelOne(before[k], batch)
        invariant forall k | i <= k < |before| :: grants[k] == before[k]
      {
        if grants[i].status == Waiting && grants[i].batch == batch {
          grants := grants[i := grants[i].(status := Withdrawn)];
        }
      }
    }
  }

  /** Once a recipient repeats, the rest of the list cannot save the insert. */
  lemma {:induction false} RecordFails(grants: seq<Grant>, o: Order, players: seq<nat>, n: nat, now: int)
    requires n <= |players| && RecordAll(grants, o, players[..n], now).None?
    ensures RecordAll(grants, o, players, now).None?
    decreases |players|
  {
    if n == |players| {
      assert players[..n] == players;
    } else {
      assert players[..|players| - 1][..n] == players[..n];
      RecordFails(grants, o, players[..|players| - 1], n, now);
    }
  }
}
