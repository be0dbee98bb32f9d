/** What the picking SELECTs return: the due rows of a lane, each once, in
    (next_try, id) order. */
module GrantSelect {
  import opened Common
  import opened GrantQueue

  predicate Ordered(grants: seq<Grant>, ids: seq<nat>)
    requires ValidIds(ids, |grants|)
  {
    forall i, j | 0 <= i < j < |ids| :: Before(grants, ids[i], ids[j])
  }

  lemma {:induction false} InsertMembers(grants: seq<Grant>, id: nat, ids: seq<nat>, x: nat)
    requires id < |grants| && ValidIds(ids, |grants|)
    ensures x in Insert(grants, id, ids) <==> x == id || x in ids
  {
    if ids != [] && !Before(grants, id, ids[0]) {
      InsertMembers(grants, id, ids[1..], x);
    }
  }

  lemma {:induction false} InsertKeepsOrder(grants: seq<Grant>, id: nat, ids: seq<nat>)
    requires id < |grants| && ValidIds(ids, |grants|) && Ordered(grants, ids) && id !in ids
    ensures Ordered(grants, Insert(grants, id, ids))
  {
    var r := Insert(grants, id, ids);
    if ids == [] {
    } else if Before(grants, id, ids[0]) {
      forall i, j | 0 <= i < j < |r| ensures Before(grants, r[i], r[j]) {
        assert r[j] == ids[j - 1];
        assert Before(grants, id, ids[0]) && (j > 1 ==> Before(grants, ids[0], ids[j - 1]));
        if i > 0 { assert r[i] == ids[i - 1]; }
      }
    } else {
      var rest := Insert(grants, id, ids[1..]);
      InsertKeepsOrder(grants, id, ids[1..]);
      forall j | 0 <= j < |rest| ensures Before(grants, ids[0], rest[j]) {
        InsertMembers(grants, id, ids[1..], rest[j]);
      }
    }
  }

  lemma {:induction false} SelectMembers(grants: seq<Grant>, lane: Lane, now: int, n: nat, x: nat)
    requires n <= |grants|
    ensures x in Select(grants, lane, now, n) <==> x < n && InLane(grants, x, lane, now)
  {
    if n > 0 {
      SelectMembers(grants, lane, now, n - 1, x);
      if InLane(grants, n - 1, lane, now) {
        InsertMembers(grants, n - 1, Select(grants, lane, now, n - 1), x);
      }
    }
  }

  lemma {:induction false} SelectInOrder(grants: seq<Grant>, lane: Lane, now: int, n: nat)
    requires n <= |grants|
    ensures Ordered(grants, Select(grants, lane, now, n))
  {
    if n > 0 {
      SelectInOrder(grants, lane, now, n - 1);
      if InLane(grants, n - 1, lane, now) {
        SelectMembers(grants, lane, now, n - 1, n - 1);
        InsertKeepsOrder(grants, n - 1, Select(grants, lane, now, n - 1));
      }
    }
  }

  lemma SelectIsOrderedLane(grants: seq<Grant>, lane: Lane, now: int, n: nat)
    requires n <= |grants|
    ensures Ordered(grants, Select(grants, lane, now, n)) && Distinct(Select(grants, lane, now, n))
    ensures forall x: nat :: x in Select(grants, lane, now, n) <==> x < n && InLane(grants, x, lane, now)
  {
    SelectInOrder(grants, lane, now, n);
    forall x: nat ensures x in Select(grants, lane, now, n) <==> x < n && InLane(grants, x, lane, now) {
      SelectMembers(grants, lane, now, n, x);
    }
  }

  /** LIMIT keeps the first rows: what it drops comes after what it keeps. */
  lemma LimitKeepsFirst(grants: seq<Grant>, lane: Lane, now: int, limit: nat, id: nat)
    requires id < |grants| && InLane(grants, id, lane, now)
    ensures var r := Limit(Select(grants, lane, now, |grants|), limit);
      ValidIds(r, |grants|) &&
      (id !in r ==> |r| == limit && forall x | x in r :: Before(grants, x, id))
  {
    SelectIsOrderedLane(grants, lane, now, |grants|);
    var s := Select(grants, lane, now, |grants|);
    var k :| 0 <= k < |s| && s[k] == id;
    if id !in Limit(s, limit) {
      assert |s| > limit;
      assert forall i | 0 <= i < limit :: s[..limit][i] == s[i];
    }
  }

  lemma LimitIsPrefix(ids: seq<nat>, n: nat)
    ensures |Limit(ids, n)| <= n && Limit(ids, n) <= ids
    ensures forall x | x in Limit(ids, n) :: x in ids
    ensures Distinct(ids) ==> Distinct(Limit(ids, n))
  {
    assert forall i | 0 <= i < |Limit(ids, n)| :: Limit(ids, n)[i] == ids[i];
  }

  /** What a tick may pick: due rows, each once, no more than there is room for. */
  lemma PickedAreDue(
    grants: seq<Grant>, capacity: int, pending: nat, online: Option<set<nat>>, bots: set<nat>, now: int)
    ensures var p := Pick(grants, capacity, pending, online, bots, now);
      && Distinct(p.ids)
      && (forall x | x in p.ids :: DueNow(grants[x], now))
      && |p.ids| <= Max(0, capacity)
      && |p.ids| - p.fast <= Max(0, Min(OFFLINE_PROBES_PER_TICK, OFFLINE_MAX_PENDING - pending))
  {
    if capacity > 0 {
      if online.None? {
        SelectIsOrderedLane(grants, AnyDue, now, |grants|);
        LimitIsPrefix(Select(grants, AnyDue, now, |grants|), capacity);
      } else {
        var lane := FastLane(online.value, bots);
        SelectIsOrderedLane(grants, lane, now, |grants|);
        var fast := Limit(Select(grants, lane, now, |grants|), capacity);
        LimitIsPrefix(Select(grants, lane, now, |grants|), capacity);
        SelectIsOrderedLane(grants, NotTaken(fast), now, |grants|);
        var probes := Select(grants, NotTaken(fast), now, |grants|);
        var left := ProbesLeft(capacity, |fast|, pending);
        if left > 0 {
          LimitIsPrefix(probes, left);
          assert forall j | 0 <= j < |Limit(probes, left)| :: Limit(probes, left)[j] in probes;
        }
      }
    }
  }

  /** An offline bot is probed only when no due grant of the fast lane is left. */
  lemma ProbesOnlyAfterFastLane(
    grants: seq<Grant>, capacity: int, pending: nat, online: Option<set<nat>>, bots: set<nat>, now: int, id: nat)
    requires online.Some? && id < |grants| && DueNow(grants[id], now) && Fast(grants[id], online.value, bots)
    ensures var p := Pick(grants, capacity, pending, online, bots, now);
      p.fast < |p.ids| ==> id in p.ids[..p.fast]
  {
    if capacity > 0 {
      LimitKeepsFirst(grants, FastLane(online.value, bots), now, capacity, id);
      var p := Pick(grants, capacity, pending, online, bots, now);
      assert p.ids[..p.fast] == Limit(Select(grants, FastLane(online.value, bots), now, |grants|), capacity);
    }
  }

  /** And every probe is one: neither online nor a person's character. */
  lemma ProbesAreOffline(
    grants: seq<Grant>, capacity: int, pending: nat, online: Option<set<nat>>, bots: set<nat>, now: int, k: nat)
    requires k < |Pick(grants, capacity, pending, online, bots, now).ids|
    ensures var p := Pick(grants, capacity, pending, online, bots, now);
      online.Some? ==> (k < p.fast <==> Fast(grants[p.ids[k]], online.value, bots))
  {
    if online.Some? {
      var lane := FastLane(online.value, bots);
      var p := Pick(grants, capacity, pending, online, bots, now);
      var fast := Limit(Select(grants, lane, now, |grants|), capacity);
      SelectIsOrderedLane(grants, lane, now, |grants|);
      if k < p.fast {
        assert p.ids[k] == Select(grants, lane, now, |grants|)[k];
        assert p.ids[k] in Select(grants, lane, now, |grants|);
      } else {
        SelectIsOrderedLane(grants, NotTaken(fast), now, |grants|);
        var probes := Select(grants, NotTaken(fast), now, |grants|);
        assert p.ids[k] == probes[k - |fast|];
        assert p.ids[k] in probes;
        if Fast(grants[p.ids[k]], online.value, bots) {
          LimitKeepsFirst(grants, lane, now, capacity, p.ids[k]);
        }
      }
    }
  }
}
