/** Grouping cells into eight-connected clumps, largest first. */
module MapClusters {
  import opened Reachability

  /** `c` is a whole clump of `cells`: nothing in it can be reached from outside
      it, and any of its cells reaches all of it. */
  ghost predicate IsClump(cells: set<Cell>, c: set<Cell>) {
    c != {} && c <= cells && forall a | a in c :: Reach(Eight, cells, a) == c
  }

  predicate Descending(s: seq<set<Cell>>) {
    forall i, j | 0 <= i < j < |s| :: |s[j]| <= |s[i]|
  }

  predicate Different(s: seq<set<Cell>>) {
    forall i, j | 0 <= i < j < |s| :: s[i] != s[j]
  }

  /** The stable descending sort by size. */
  function SortedBySize(s: seq<set<Cell>>): seq<set<Cell>> {
    if s == [] then [] else Insert(SortedBySize(s[..|s| - 1]), s[|s| - 1])
  }

  function Insert(s: seq<set<Cell>>, c: set<Cell>): seq<set<Cell>> {
    if s == [] || |c| <= |s[|s| - 1]| then s + [c] else Insert(s[..|s| - 1], c) + [s[|s| - 1]]
  }

  lemma SmallestLast(s: seq<set<Cell>>, c: set<Cell>)
    requires Descending(s) && Different(s) && c !in s
    requires forall x | x in s :: |c| <= |x|
    ensures Descending(s + [c]) && Different(s + [c])
    ensures forall x :: x in s + [c] <==> x == c || x in s
  {
  }

  lemma {:induction false} InsertSorts(s: seq<set<Cell>>, c: set<Cell>)
    requires Descending(s) && Different(s) && c !in s
    ensures var r := Insert(s, c);
      Descending(r) && Different(r) && forall x :: x in r <==> x == c || x in s
  {
    if s == [] || |c| <= |s[|s| - 1]| {
      SmallestLast(s, c);
    } else {
      var k := |s| - 1;
      InsertSorts(s[..k], c);
      assert forall x :: x in s <==> x in s[..k] || x == s[k];
      SmallestLast(Insert(s[..k], c), s[k]);
    }
  }

  lemma {:induction false} SortSorts(s: seq<set<Cell>>)
    requires Different(s)
    ensures var r := SortedBySize(s);
      Descending(r) && Different(r) && forall x :: x in r <==> x in s
  {
    if s != [] {
      var k := |s| - 1;
      SortSorts(s[..k]);
      InsertSorts(SortedBySize(s[..k]), s[k]);
      assert s == s[..k] + [s[k]];
    }
  }

  // ----- growing one clump ------------------------------------------------

  const AROUND: seq<Cell> :=
    [Cell(-1, -1), Cell(-1, 0), Cell(-1, 1), Cell(0, -1), Cell(0, 0), Cell(0, 1), Cell(1, -1), Cell(1, 0), Cell(1, 1)]

  function Around(c: Cell, k: nat): Cell
    requires k < 9
  {
    Cell(c.x + AROUND[k].x, c.y + AROUND[k].y)
  }

  lemma AroundIsAdjacent(a: Cell, b: Cell)
    ensures Adjacent(Eight, a, b) || a == b <==> exists k: nat | k < 9 :: Around(a, k) == b
  {
    if Adjacent(Eight, a, b) || a == b {
      assert Around(a, (b.x - a.x + 1) * 3 + (b.y - a.y + 1)) == b;
    }
  }

  /** The clump grown so far from `seed`, the cells of `pool` not yet taken, and
      what is still to be looked at. */
  ghost predicate Growing(
    pool: set<Cell>, seed: Cell, unseen: set<Cell>, cluster: set<Cell>, queue: seq<Cell>, c: Cell, k: nat)
  {
    && cluster + unseen == pool && cluster !! unseen
    && seed in cluster && c in cluster && cluster <= Reach(Eight, pool, seed)
    && (forall a | a in queue :: a in cluster)
    && forall a, b | a in cluster && b in unseen && Adjacent(Eight, a, b) ::
         a in queue || (a == c && exists j: nat | k <= j < 9 :: Around(c, j) == b)
  }

  lemma GrowthStarts(pool: set<Cell>, seed: Cell)
    requires seed in pool
    ensures Growing(pool, seed, pool - {seed}, {seed}, [seed], seed, 9)
  {
    ReachHasStart(Eight, pool, seed);
  }

  lemma Taken(pool: set<Cell>, seed: Cell, unseen: set<Cell>, cluster: set<Cell>, queue: seq<Cell>, c: Cell)
    requires |queue| > 0 && Growing(pool, seed, unseen, cluster, queue, c, 9)
    ensures Growing(pool, seed, unseen, cluster, queue[1..], queue[0], 0)
  {
    forall a, b | a in cluster && b in unseen && Adjacent(Eight, a, b)
      ensures a in queue[1..] || (a == queue[0] && exists j: nat | 0 <= j < 9 :: Around(queue[0], j) == b)
    {
      AroundIsAdjacent(a, b);
      assert a in queue ==> a == queue[0] || a in queue[1..];
    }
  }

  lemma Examined(pool: set<Cell>, seed: Cell, unseen: set<Cell>, cluster: set<Cell>, queue: seq<Cell>, c: Cell, k: nat)
    requires k < 9 && Growing(pool, seed, unseen, cluster, queue, c, k)
    ensures var b := Around(c, k);
      if b in unseen then Growing(pool, seed, unseen - {b}, cluster + {b}, queue + [b], c, k + 1)
      else Growing(pool, seed, unseen, cluster, queue, c, k + 1)
  {
    var b := Around(c, k);
    if b in unseen {
      AroundIsAdjacent(c, b);
      ReachGrows(Eight, pool, seed, c, b);
    }
  }

  lemma GrowthEnds(pool: set<Cell>, seed: Cell, unseen: set<Cell>, cluster: set<Cell>, c: Cell)
    requires Growing(pool, seed, unseen, cluster, [], c, 9)
    ensures cluster == Reach(Eight, pool, seed)
  {
    ClosedIsReach(Eight, pool, seed, cluster);
  }

  // ----- all clumps -------------------------------------------------------

  /** The clumps found so far are clumps of all of `cells`, and `unseen` is what
      none of them holds. */
  ghost predicate Split(cells: set<Cell>, unseen: set<Cell>, found: seq<set<Cell>>) {
    && unseen <= cells && Different(found)
    && (forall c | c in found :: IsClump(cells, c) && c !! unseen)
    && forall a | a in cells :: a in unseen || exists c :: c in found && a in c
  }

  /** Nothing outside `unseen` touches it, so what is reached within it is what is
      reached within `cells`. */
  lemma UnseenIsClosed(cells: set<Cell>, unseen: set<Cell>, found: seq<set<Cell>>)
    requires Split(cells, unseen, found)
    ensures Closed(Eight, cells, unseen)
  {
    forall a, b | a in unseen && b in cells && Adjacent(Eight, a, b) ensures b in unseen {
      if b !in unseen {
        var c :| c in found && b in c;
        ReachHasStart(Eight, cells, b);
        AdjacentBothWays(Eight, a, b);
        ReachGrows(Eight, cells, b, b, a);
      }
    }
  }

  lemma ReachWithin(cells: set<Cell>, unseen: set<Cell>, a: Cell)
    requires unseen <= cells && Closed(Eight, cells, unseen) && a in unseen
    ensures Reach(Eight, unseen, a) == Reach(Eight, cells, a)
  {
    var r := Reach(Eight, unseen, a);
    ReachHasStart(Eight, unseen, a);
    ReachIsMonotone(Eight, unseen, cells, a);
    forall b, c | b in r && c in cells && Adjacent(Eight, b, c) ensures c in r {
      ReachGrows(Eight, unseen, a, b, c);
    }
    ClosedIsReach(Eight, cells, a, r);
  }

  lemma OneClump(cells: set<Cell>, unseen: set<Cell>, found: seq<set<Cell>>, seed: Cell)
    requires Split(cells, unseen, found) && seed in unseen
    ensures var c := Reach(Eight, unseen, seed);
      Split(cells, unseen - c, found + [c])
  {
    var c := Reach(Eight, unseen, seed);
    UnseenIsClosed(cells, unseen, found);
    ReachWithin(cells, unseen, seed);
    ReachHasStart(Eight, unseen, seed);
    forall a | a in c ensures Reach(Eight, cells, a) == c {
      ReachIsShared(Eight, cells, seed, a);
    }
    assert IsClump(cells, c);
    forall a | a in cells ensures a in unseen - c || exists d :: d in found + [c] && a in d {
      if a in c {
        assert c in found + [c];
      } else if a !in unseen {
        var d :| d in found && a in d;
        assert d in found + [c];
      }
    }
  }

  /** The result lists every maximal eight-connected clump once, largest first. */
  method ClustersOf(cells: set<Cell>) returns (out: seq<set<Cell>>)
    ensures forall c :: c in out <==> IsClump(cells, c)
    ensures Different(out) && Descending(out)
  {
    out := [];
    var unseen := cells;
    while unseen != {}
      invariant Split(cells, unseen, out)
      decreases unseen
    {
      ghost var pool := unseen;
      var seed :| seed in unseen;
      unseen := unseen - {seed};
      var cluster := {seed};
      var queue := [seed];
      ghost var c := seed;
      GrowthStarts(pool, seed);
      while queue != []
        invariant Growing(pool, seed, unseen, cluster, queue, c, 9)
        decreases unseen, |queue|
      {
        Taken(pool, seed, unseen, cluster, queue, c);
        var cell := queue[0];
        c := cell;
        queue := queue[1..];
        ghost var unseen0, queue0 := unseen, queue;
        var k := 0;
        while k < 9
          invariant 0 <= k <= 9
          invariant Growing(pool, seed, unseen, cluster, queue, c, k)
          invariant unseen <= unseen0 && (unseen == unseen0 ==> queue == queue0)
        {
          Examined(pool, seed, unseen, cluster, queue, c, k);
          var neighbour := Around(cell, k);
          if neighbour in unseen {
            unseen := unseen - {neighbour};
            cluster := cluster + {neighbour};
            queue := queue + [neighbour];
          }
          k := k + 1;
        }
      }
      GrowthEnds(pool, seed, unseen, cluster, c);
      OneClump(cells, pool, out, seed);
      assert unseen == pool - cluster;
      out := out + [cluster];
    }
    EveryClumpFound(cells, out);
    SortSorts(out);
    out := SortedBySize(out);
  }

  lemma EveryClumpFound(cells: set<Cell>, found: seq<set<Cell>>)
    requires Split(cells, {}, found)
    ensures forall c :: c in found <==> IsClump(cells, c)
  {
    forall c | IsClump(cells, c) ensures c in found {
      var a :| a in c;
      var d :| d in found && a in d;
      assert Reach(Eight, cells, a) == c == d;
    }
  }

  lemma ClumpsApart(cells: set<Cell>, c: set<Cell>, d: set<Cell>, a: Cell, b: Cell)
    requires IsClump(cells, c) && IsClump(cells, d) && c != d && a in c && b in d
    ensures a != b && !Adjacent(Eight, a, b)
  {
    if Adjacent(Eight, a, b) {
      ReachHasStart(Eight, cells, a);
      ReachGrows(Eight, cells, a, a, b);
    }
  }

  /** The clumps partition the cells: they cover them, two of them share no cell,
      and no cell of one touches a cell of another. */
  lemma ClumpsPartition(cells: set<Cell>, out: seq<set<Cell>>)
    requires (forall c :: c in out <==> IsClump(cells, c)) && Different(out)
    ensures forall a :: a in cells <==> exists c :: c in out && a in c
    ensures forall i, j | 0 <= i < j < |out| :: out[i] !! out[j]
    ensures forall i, j, a, b | 0 <= i < j < |out| && a in out[i] && b in out[j] :: !Adjacent(Eight, a, b)
    ensures forall c, a, b | c in out && a in c && b in c :: Joined(Eight, cells, a, b)
  {
    forall a | a in cells ensures exists c :: c in out && a in c {
      ReachHasStart(Eight, cells, a);
      forall b | b in Reach(Eight, cells, a) ensures Reach(Eight, cells, b) == Reach(Eight, cells, a) {
        ReachIsShared(Eight, cells, a, b);
      }
      assert IsClump(cells, Reach(Eight, cells, a));
    }
    forall i, j, a, b | 0 <= i < j < |out| && a in out[i] && b in out[j] ensures !Adjacent(Eight, a, b) {
      ClumpsApart(cells, out[i], out[j], a, b);
    }
    forall i, j | 0 <= i < j < |out| ensures out[i] !! out[j] {
      forall a | a in out[i] && a in out[j] ensures false {
        ClumpsApart(cells, out[i], out[j], a, a);
      }
    }
    forall c, a, b | c in out && a in c && b in c ensures Joined(Eight, cells, a, b) {
      assert b in Reach(Eight, cells, a);
    }
  }
}
