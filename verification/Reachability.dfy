/** Cells of a map, paths over them, and the set of cells a path can reach. */
module Reachability {
  datatype Cell = Cell(x: int, y: int)

  /** Four neighbours share an edge, eight share an edge or a corner. */
  datatype Sides = Four | Eight

  function Far(a: int, b: int): nat {
    if a < b then b - a else a - b
  }

  predicate Adjacent(n: Sides, a: Cell, b: Cell) {
    match n
    case Four => Far(a.x, b.x) + Far(a.y, b.y) == 1
    case Eight => a != b && Far(a.x, b.x) <= 1 && Far(a.y, b.y) <= 1
  }

  /** A nonempty walk inside `open` from `from` to `to`. */
  ghost predicate Path(n: Sides, open: set<Cell>, p: seq<Cell>, from: Cell, to: Cell) {
    && |p| > 0 && p[0] == from && p[|p| - 1] == to
    && (forall i | 0 <= i < |p| :: p[i] in open)
    && forall i, j | 0 <= i < j < |p| && j == i + 1 :: Adjacent(n, p[i], p[j])
  }

  ghost predicate Joined(n: Sides, open: set<Cell>, from: Cell, to: Cell) {
    exists p :: Path(n, open, p, from, to)
  }

  ghost function Reach(n: Sides, open: set<Cell>, from: Cell): set<Cell> {
    set c | c in open && Joined(n, open, from, c)
  }

  /** No adjacent open cell is missing. */
  ghost predicate Closed(n: Sides, open: set<Cell>, s: set<Cell>) {
    forall a, b | a in s && b in open && Adjacent(n, a, b) :: b in s
  }

  lemma ReachHasStart(n: Sides, open: set<Cell>, from: Cell)
    requires from in open
    ensures from in Reach(n, open, from)
  {
    assert Path(n, open, [from], from, from);
  }

  lemma ReachGrows(n: Sides, open: set<Cell>, from: Cell, a: Cell, b: Cell)
    requires a in Reach(n, open, from) && b in open && Adjacent(n, a, b)
    ensures b in Reach(n, open, from)
  {
    var p :| Path(n, open, p, from, a);
    assert Path(n, open, p + [b], from, b);
  }

  lemma {:induction false} PathStays(n: Sides, open: set<Cell>, s: set<Cell>, p: seq<Cell>, from: Cell, to: Cell)
    requires Closed(n, open, s) && from in s && Path(n, open, p, from, to)
    ensures to in s
    decreases |p|
  {
    if |p| > 1 {
      var k := |p| - 2;
      assert Path(n, open, p[..k + 1], from, p[k]);
      PathStays(n, open, s, p[..k + 1], from, p[k]);
      assert Adjacent(n, p[k], p[k + 1]);
    }
  }

  /** The reachable cells are the least closed set around the start: a set that
      is closed, holds the start and nothing unreachable is that set. */
  lemma ClosedIsReach(n: Sides, open: set<Cell>, from: Cell, s: set<Cell>)
    requires from in s && s <= Reach(n, open, from) && Closed(n, open, s)
    ensures s == Reach(n, open, from)
  {
    forall c | c in Reach(n, open, from) ensures c in s {
      var p :| Path(n, open, p, from, c);
      PathStays(n, open, s, p, from, c);
    }
  }

  /** Opening more cells loses none of those reached. */
  lemma ReachIsMonotone(n: Sides, open: set<Cell>, wider: set<Cell>, from: Cell)
    requires open <= wider
    ensures Reach(n, open, from) <= Reach(n, wider, from)
  {
    forall c | c in Reach(n, open, from) ensures c in Reach(n, wider, from) {
      var p :| Path(n, open, p, from, c);
      assert Path(n, wider, p, from, c);
    }
  }

  lemma AdjacentBothWays(n: Sides, a: Cell, b: Cell)
    ensures Adjacent(n, a, b) == Adjacent(n, b, a)
  {
  }

  /** Reaching is symmetric and transitive, so it splits `open` into classes. */
  lemma ReachIsShared(n: Sides, open: set<Cell>, a: Cell, b: Cell)
    requires a in open && b in Reach(n, open, a)
    ensures Reach(n, open, b) == Reach(n, open, a)
  {
    var p :| Path(n, open, p, a, b);
    var q := seq(|p|, i requires 0 <= i < |p| => p[|p| - 1 - i]);
    assert Path(n, open, q, b, a) by {
      forall i, j | 0 <= i < j < |q| && j == i + 1 ensures Adjacent(n, q[i], q[j]) {
        assert Adjacent(n, p[|p| - 1 - j], p[|p| - 1 - i]);
        AdjacentBothWays(n, q[i], q[j]);
      }
    }
    ReachChains(n, open, a, b);
    ReachChains(n, open, b, a);
  }

  lemma ReachChains(n: Sides, open: set<Cell>, a: Cell, b: Cell)
    requires Joined(n, open, a, b)
    ensures Reach(n, open, b) <= Reach(n, open, a)
  {
    var p :| Path(n, open, p, a, b);
    forall c | c in Reach(n, open, b) ensures c in Reach(n, open, a) {
      var q :| Path(n, open, q, b, c);
      assert Path(n, open, p + q[1..], a, c);
    }
  }
}
