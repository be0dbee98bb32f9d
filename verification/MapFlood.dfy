/** The two flood fills: one over the flat grid with a mask, one over the
    dictionary of sectors. Each is proved to return exactly the open cells
    four-connected to its start, snapped where the start itself is closed. */
module MapFlood {
  import opened Common
  import opened Bits
  import opened Reachability
  import opened MapFile

  // ----- where a closed start snaps to ------------------------------------

  /** One probe of the snapping loops: ring, column, and top or bottom edge. */
  datatype Probe = Probe(r: int, dx: int, dy: int)

  predicate Tried(t: Probe, limit: int) {
    1 <= t.r < limit && -t.r <= t.dx <= t.r && (t.dy == -t.r || t.dy == t.r)
  }

  predicate Sooner(t: Probe, u: Probe) {
    t.r < u.r || (t.r == u.r && (t.dx < u.dx || (t.dx == u.dx && t.dy < u.dy)))
  }

  function Shifted(c: Cell, t: Probe): Cell {
    Cell(c.x + t.dx, c.y + t.dy)
  }

  /** Every probe sooner than `t` hits a closed cell. */
  ghost predicate NoneSooner(open: set<Cell>, start: Cell, limit: int, t: Probe) {
    forall u | Tried(u, limit) && Sooner(u, t) :: Shifted(start, u) !in open
  }

  ghost predicate FirstHit(open: set<Cell>, start: Cell, limit: int, t: Probe) {
    Tried(t, limit) && Shifted(start, t) in open && NoneSooner(open, start, limit, t)
  }

  ghost predicate NoHit(open: set<Cell>, start: Cell, limit: int) {
    forall t | Tried(t, limit) :: Shifted(start, t) !in open
  }

  /** The cell the search begins at: an open start itself, otherwise the first
      open cell probed, otherwise none. */
  ghost predicate BeginsAt(open: set<Cell>, start: Cell, limit: int, found: Option<Cell>) {
    if start in open then found == Some(start)
    else if found.None? then NoHit(open, start, limit)
    else exists t :: FirstHit(open, start, limit, t) && found.value == Shifted(start, t)
  }

  lemma BeginsAtOne(open: set<Cell>, start: Cell, limit: int, a: Option<Cell>, b: Option<Cell>)
    requires BeginsAt(open, start, limit, a) && BeginsAt(open, start, limit, b)
    ensures a == b
  {
  }

  lemma ColumnTried(open: set<Cell>, start: Cell, limit: int, r: int, dx: int)
    requires NoneSooner(open, start, limit, Probe(r, dx, -r))
    requires Shifted(start, Probe(r, dx, -r)) !in open && Shifted(start, Probe(r, dx, r)) !in open
    ensures NoneSooner(open, start, limit, Probe(r, dx + 1, -r))
  {
  }

  lemma RingTried(open: set<Cell>, start: Cell, limit: int, r: int)
    requires NoneSooner(open, start, limit, Probe(r, r + 1, -r))
    ensures NoneSooner(open, start, limit, Probe(r + 1, -(r + 1), -(r + 1)))
  {
  }

  lemma TopHit(open: set<Cell>, start: Cell, limit: int, r: int, dx: int)
    requires 1 <= r < limit && -r <= dx <= r && NoneSooner(open, start, limit, Probe(r, dx, -r))
    requires start !in open && Shifted(start, Probe(r, dx, -r)) in open
    ensures BeginsAt(open, start, limit, Some(Shifted(start, Probe(r, dx, -r))))
  {
    assert FirstHit(open, start, limit, Probe(r, dx, -r));
  }

  lemma BottomHit(open: set<Cell>, start: Cell, limit: int, r: int, dx: int)
    requires 1 <= r < limit && -r <= dx <= r && NoneSooner(open, start, limit, Probe(r, dx, -r))
    requires start !in open && Shifted(start, Probe(r, dx, -r)) !in open && Shifted(start, Probe(r, dx, r)) in open
    ensures BeginsAt(open, start, limit, Some(Shifted(start, Probe(r, dx, r))))
  {
    assert FirstHit(open, start, limit, Probe(r, dx, r));
  }

  /** What a flood over `open` returns. */
  ghost predicate Floods(open: set<Cell>, start: Cell, limit: int, result: set<Cell>) {
    exists found :: BeginsAt(open, start, limit, found)
      && result == if found.None? then {} else Reach(Four, open, found.value)
  }

  // ----- the search -------------------------------------------------------

  const STEPS: seq<Cell> := [Cell(1, 0), Cell(-1, 0), Cell(0, 1), Cell(0, -1)]

  function Neighbour(c: Cell, k: nat): Cell
    requires k < 4
  {
    Cell(c.x + STEPS[k].x, c.y + STEPS[k].y)
  }

  lemma NeighboursAreAdjacent(a: Cell, b: Cell)
    ensures Adjacent(Four, a, b) <==> exists k: nat | k < 4 :: Neighbour(a, k) == b
  {
    if Adjacent(Four, a, b) {
      assert Neighbour(a, 0) == b || Neighbour(a, 1) == b || Neighbour(a, 2) == b || Neighbour(a, 3) == b;
    }
  }

  /** Everything seen is reachable, and whatever is still missing next to a seen
      cell is next to a queued one, or among the neighbours of `c` from `k` on. */
  ghost predicate Searching(open: set<Cell>, from: Cell, seen: set<Cell>, queue: seq<Cell>, c: Cell, k: nat) {
    && from in seen && c in seen && seen <= Reach(Four, open, from)
    && (forall a | a in queue :: a in seen)
    && forall a, b | a in seen && b in open && Adjacent(Four, a, b) ::
         b in seen || a in queue || (a == c && exists j: nat | k <= j < 4 :: Neighbour(c, j) == b)
  }

  lemma SearchStarts(open: set<Cell>, from: Cell)
    requires from in open
    ensures Searching(open, from, {from}, [from], from, 4)
  {
    ReachHasStart(Four, open, from);
  }

  lemma Popped(open: set<Cell>, from: Cell, seen: set<Cell>, queue: seq<Cell>, c: Cell)
    requires |queue| > 0 && Searching(open, from, seen, queue, c, 4)
    ensures Searching(open, from, seen, queue[1..], queue[0], 0)
  {
    forall a, b | a in seen && b in open && Adjacent(Four, a, b)
      ensures b in seen || a in queue[1..]
              || (a == queue[0] && exists j: nat | 0 <= j < 4 :: Neighbour(queue[0], j) == b)
    {
      NeighboursAreAdjacent(a, b);
      assert a in queue ==> a == queue[0] || a in queue[1..];
    }
  }

  lemma Looked(open: set<Cell>, from: Cell, seen: set<Cell>, queue: seq<Cell>, c: Cell, k: nat)
    requires k < 4 && Searching(open, from, seen, queue, c, k)
    ensures var b := Neighbour(c, k);
      if b in open && b !in seen then Searching(open, from, seen + {b}, queue + [b], c, k + 1)
      else Searching(open, from, seen, queue, c, k + 1)
  {
    var b := Neighbour(c, k);
    if b in open && b !in seen {
      NeighboursAreAdjacent(c, b);
      ReachGrows(Four, open, from, c, b);
    }
  }

  lemma SearchEnds(open: set<Cell>, from: Cell, seen: set<Cell>, c: Cell)
    requires Searching(open, from, seen, [], c, 4)
    ensures seen == Reach(Four, open, from)
  {
    ClosedIsReach(Four, open, from, seen);
  }

  // ----- over the flat grid -----------------------------------------------

  predicate OpenAt(grid: array2<nat>, w: int, h: int, mask: nat, x: int, y: int)
    requires h <= grid.Length0 && w <= grid.Length1
    reads grid
  {
    0 <= x < w && 0 <= y < h && And(grid[y, x], mask) == 0
  }

  function GridOpen(grid: array2<nat>, w: int, h: int, mask: nat): (open: set<Cell>)
    requires h <= grid.Length0 && w <= grid.Length1
    reads grid
    ensures forall c :: c in open <==> OpenAt(grid, w, h, mask, c.x, c.y)
  {
    set x, y | 0 <= x < w && 0 <= y < h && OpenAt(grid, w, h, mask, x, y) :: Cell(x, y)
  }

  method SnapGrid(grid: array2<nat>, w: int, h: int, start: Cell, mask: nat) returns (found: Option<Cell>)
    requires h <= grid.Length0 && w <= grid.Length1 && start !in GridOpen(grid, w, h, mask)
    ensures BeginsAt(GridOpen(grid, w, h, mask), start, 80, found)
  {
    ghost var open := GridOpen(grid, w, h, mask);
    found := None;
    var radius := 1;
    while radius < 80
      invariant 1 <= radius <= 80
      invariant NoneSooner(open, start, 80, Probe(radius, -radius, -radius))
    {
      var dx := -radius;
      while dx <= radius
        invariant -radius <= dx <= radius + 1
        invariant NoneSooner(open, start, 80, Probe(radius, dx, -radius))
      {
        if OpenAt(grid, w, h, mask, start.x + dx, start.y - radius) {
          TopHit(open, start, 80, radius, dx);
          return Some(Cell(start.x + dx, start.y - radius));
        }
        if OpenAt(grid, w, h, mask, start.x + dx, start.y + radius) {
          BottomHit(open, start, 80, radius, dx);
          return Some(Cell(start.x + dx, start.y + radius));
        }
        ColumnTried(open, start, 80, radius, dx);
        dx := dx + 1;
      }
      RingTried(open, start, 80, radius);
      radius := radius + 1;
    }
  }

  method FloodGrid(grid: array2<nat>, w: int, h: int, start: Cell, mask: nat) returns (seen: set<Cell>)
    requires h <= grid.Length0 && w <= grid.Length1
    ensures Floods(GridOpen(grid, w, h, mask), start, 80, seen)
  {
    ghost var open := GridOpen(grid, w, h, mask);
    var from := start;
    if !OpenAt(grid, w, h, mask, start.x, start.y) {
      var found := SnapGrid(grid, w, h, start, mask);
      if found.None? {
        return {};
      }
      from := found.value;
    }
    assert BeginsAt(open, start, 80, Some(from));
    seen := {from};
    var queue := [from];
    SearchStarts(open, from);
    ghost var c := from;
    while queue != []
      invariant Searching(open, from, seen, queue, c, 4)
      decreases open - seen, |queue|
    {
      Popped(open, from, seen, queue, c);
      var cell := queue[0];
      c := cell;
      queue := queue[1..];
      ghost var seen0, queue0 := seen, queue;
      var k := 0;
      while k < 4
        invariant 0 <= k <= 4
        invariant Searching(open, from, seen, queue, c, k)
        invariant seen0 <= seen && (seen == seen0 ==> queue == queue0)
      {
        Looked(open, from, seen, queue, c, k);
        var n := Neighbour(cell, k);
        k := k + 1;
        if !(0 <= n.x < w && 0 <= n.y < h) || n in seen {
          continue;
        }
        if And(grid[n.y, n.x], mask) != 0 {
          continue;
        }
        seen := seen + {n};
        queue := queue + [n];
      }
    }
    SearchEnds(open, from, seen, c);
  }

  // ----- over the dictionary of sectors -----------------------------------

  ghost predicate FullSectors(sectors: SectorMap) {
    forall k | k in sectors :: |sectors[k]| == AREA
  }

  ghost function SectorOpen(sectors: SectorMap, sw: int, sh: int): (open: set<Cell>)
    requires FullSectors(sectors)
    ensures forall c :: c in open <==> !Blocked(sectors, sw, sh, c.x, c.y)
  {
    set x, y | 0 <= x < sw * SIDE && 0 <= y < sh * SIDE && !Blocked(sectors, sw, sh, x, y) :: Cell(x, y)
  }

  method SnapSector(sectors: SectorMap, sw: int, sh: int, start: Cell) returns (found: Option<Cell>)
    requires FullSectors(sectors) && start !in SectorOpen(sectors, sw, sh)
    ensures BeginsAt(SectorOpen(sectors, sw, sh), start, 40, found)
  {
    ghost var open := SectorOpen(sectors, sw, sh);
    found := None;
    var radius := 1;
    while radius < 40
      invariant 1 <= radius <= 40
      invariant NoneSooner(open, start, 40, Probe(radius, -radius, -radius))
    {
      var dx := -radius;
      while dx <= radius
        invariant -radius <= dx <= radius + 1
        invariant NoneSooner(open, start, 40, Probe(radius, dx, -radius))
      {
        if !Blocked(sectors, sw, sh, start.x + dx, start.y - radius) {
          TopHit(open, start, 40, radius, dx);
          return Some(Cell(start.x + dx, start.y - radius));
        }
        if !Blocked(sectors, sw, sh, start.x + dx, start.y + radius) {
          BottomHit(open, start, 40, radius, dx);
          return Some(Cell(start.x + dx, start.y + radius));
        }
        ColumnTried(open, start, 40, radius, dx);
        dx := dx + 1;
      }
      RingTried(open, start, 40, radius);
      radius := radius + 1;
    }
  }

  method FloodSector(sectors: SectorMap, sw: int, sh: int, start: Cell) returns (seen: set<Cell>)
    requires FullSectors(sectors)
    ensures Floods(SectorOpen(sectors, sw, sh), start, 40, seen)
  {
    ghost var open := SectorOpen(sectors, sw, sh);
    var from := start;
    if Blocked(sectors, sw, sh, start.x, start.y) {
      var found := SnapSector(sectors, sw, sh, start);
      if found.None? {
        return {};
      }
      from := found.value;
    }
    assert BeginsAt(open, start, 40, Some(from));
    seen := {from};
    var queue := [from];
    SearchStarts(open, from);
    ghost var c := from;
    while queue != []
      invariant Searching(open, from, seen, queue, c, 4)
      decreases open - seen, |queue|
    {
      Popped(open, from, seen, queue, c);
      var cell := queue[0];
      c := cell;
      queue := queue[1..];
      ghost var seen0, queue0 := seen, queue;
      var k := 0;
      while k < 4
        invariant 0 <= k <= 4
        invariant Searching(open, from, seen, queue, c, k)
        invariant seen0 <= seen && (seen == seen0 ==> queue == queue0)
      {
        Looked(open, from, seen, queue, c, k);
        var n := Neighbour(cell, k);
        k := k + 1;
        if n in seen || Blocked(sectors, sw, sh, n.x, n.y) {
          continue;
        }
        seen := seen + {n};
        queue := queue + [n];
      }
    }
    SearchEnds(open, from, seen, c);
  }

  // ----- the two searches agree -------------------------------------------

  /** Both stored forms of a file leave the same cells open. */
  lemma SameOpenCells(grid: array2<nat>, sectors: SectorMap, m: Map)
    requires Complete(m) && Shows(grid, m) && Indexes(sectors, m)
    ensures m.h * SIDE <= grid.Length0 && m.w * SIDE <= grid.Length1 && FullSectors(sectors)
    ensures GridOpen(grid, m.w * SIDE, m.h * SIDE, BLOCKING) == OpenCells(m, BLOCKING)
    ensures SectorOpen(sectors, m.w, m.h) == OpenCells(m, BLOCKING)
  {
    BlockedIsClosed(sectors, m, 0, 0);
    var open := GridOpen(grid, m.w * SIDE, m.h * SIDE, BLOCKING);
    forall c: Cell ensures c in open <==> c in OpenCells(m, BLOCKING) {
    }
    forall c: Cell ensures c in SectorOpen(sectors, m.w, m.h) <==> c in OpenCells(m, BLOCKING) {
      BlockedIsClosed(sectors, m, c.x, c.y);
    }
  }

  lemma HitWithinBoth(open: set<Cell>, start: Cell, near: int, far: int, t: Probe)
    requires near <= far && FirstHit(open, start, near, t)
    ensures FirstHit(open, start, far, t)
  {
  }

  /** For every file and every start the two floods return the same cells, unless
      the start is closed and its first open probe lies on a ring that only the
      wider search tries. */
  lemma FloodsAgree(grid: array2<nat>, sectors: SectorMap, m: Map, start: Cell, flat: set<Cell>, bySector: set<Cell>)
    requires Complete(m) && Shows(grid, m) && Indexes(sectors, m)
    requires m.h * SIDE <= grid.Length0 && m.w * SIDE <= grid.Length1 && FullSectors(sectors)
    requires Floods(GridOpen(grid, m.w * SIDE, m.h * SIDE, BLOCKING), start, 80, flat)
    requires Floods(SectorOpen(sectors, m.w, m.h), start, 40, bySector)
    ensures start in OpenCells(m, BLOCKING) ==> flat == bySector == Reach(Four, OpenCells(m, BLOCKING), start)
    ensures flat == bySector <==>
      || start in OpenCells(m, BLOCKING)
      || !NoHit(OpenCells(m, BLOCKING), start, 40) || NoHit(OpenCells(m, BLOCKING), start, 80)
  {
    SameOpenCells(grid, sectors, m);
    var open := OpenCells(m, BLOCKING);
    var a :| BeginsAt(open, start, 80, a) && flat == if a.None? then {} else Reach(Four, open, a.value);
    var b :| BeginsAt(open, start, 40, b) && bySector == if b.None? then {} else Reach(Four, open, b.value);
    if start !in open {
      if b.Some? {
        var t :| FirstHit(open, start, 40, t) && b.value == Shifted(start, t);
        HitWithinBoth(open, start, 40, 80, t);
        BeginsAtOne(open, start, 80, a, b);
      } else if a.Some? {
        ReachHasStart(Four, open, a.value);
      }
    }
  }

  /** One sector, closed but for the cell forty below its top left corner. */
  function Island(): (m: Map)
    ensures Complete(m)
  {
    Map(1, 1, [seq(AREA, i => if i == 40 * SIDE then 0 else ATTR_BLOCK)])
  }

  lemma OneCellOpen()
    ensures OpenCells(Island(), BLOCKING) == {Cell(0, 40)}
  {
    forall c: Cell ensures c in OpenCells(Island(), BLOCKING) <==> c == Cell(0, 40) {
      if Inside(Island(), c.x, c.y) {
        assert Attr(Island(), c.x, c.y) == if c == Cell(0, 40) then 0 else ATTR_BLOCK;
        assert And(0, BLOCKING) == 0 && And(1, BLOCKING) % 2 == 1;
      }
    }
  }

  /** On that map the two do differ: from the corner the wider search finds the
      open cell and the narrower gives up. */
  lemma FloodsDiffer()
    ensures Floods(OpenCells(Island(), BLOCKING), Cell(0, 0), 80, {Cell(0, 40)})
    ensures Floods(OpenCells(Island(), BLOCKING), Cell(0, 0), 40, {})
  {
    OneCellOpen();
    var open, start, cell := OpenCells(Island(), BLOCKING), Cell(0, 0), Cell(0, 40);
    assert BeginsAt(open, start, 80, Some(cell)) by {
      assert FirstHit(open, start, 80, Probe(40, 0, 40)) && Shifted(start, Probe(40, 0, 40)) == cell;
    }
    ReachHasStart(Four, open, cell);
    assert Reach(Four, open, cell) == {cell};
    assert BeginsAt(open, start, 40, None);
  }

  // ----- three rules ------------------------------------------------------

  /** What stops a bot under each of the three rules compared. */
  const RULES: seq<nat> := [ATTR_BLOCK + ATTR_WATER + ATTR_OBJECT, ATTR_BLOCK + ATTR_OBJECT, ATTR_BLOCK]

  lemma {:induction false} FewerBitsBlockLess(a: nat, few: nat, many: nat)
    requires And(few, many) == few
    ensures And(a, many) == 0 ==> And(a, few) == 0
  {
    if a != 0 && few != 0 && many != 0 {
      FewerBitsBlockLess(a / 2, few / 2, many / 2);
    }
  }

  lemma RulesRelax()
    ensures And(RULES[1], RULES[0]) == RULES[1] && And(RULES[2], RULES[1]) == RULES[2]
  {
    assert And(129, 131) == 129 && And(1, 129) == 1;
  }

  lemma LooserOpensMore(m: Map, strict: nat, loose: nat)
    requires Complete(m) && And(loose, strict) == loose
    ensures OpenCells(m, strict) <= OpenCells(m, loose)
  {
    forall c | c in OpenCells(m, strict) ensures c in OpenCells(m, loose) {
      FewerBitsBlockLess(Attr(m, c.x, c.y), loose, strict);
    }
  }

  lemma OpenStartFlood(open: set<Cell>, start: Cell, result: set<Cell>)
    requires start in open && Floods(open, start, 80, result)
    ensures result == Reach(Four, open, start) && start in result
  {
    ReachHasStart(Four, open, start);
  }

  /** From a start that is open under the strictest rule, each looser rule
      reaches at least what the stricter one does. */
  lemma RulesNest(m: Map, start: Cell, strict: set<Cell>, current: set<Cell>, loose: set<Cell>)
    requires Complete(m) && start in OpenCells(m, RULES[0])
    requires Floods(OpenCells(m, RULES[0]), start, 80, strict)
    requires Floods(OpenCells(m, RULES[1]), start, 80, current)
    requires Floods(OpenCells(m, RULES[2]), start, 80, loose)
    ensures start in strict && strict <= current <= loose
  {
    RulesRelax();
    LooserOpensMore(m, RULES[0], RULES[1]);
    LooserOpensMore(m, RULES[1], RULES[2]);
    OpenStartFlood(OpenCells(m, RULES[0]), start, strict);
    OpenStartFlood(OpenCells(m, RULES[1]), start, current);
    OpenStartFlood(OpenCells(m, RULES[2]), start, loose);
    ReachIsMonotone(Four, OpenCells(m, RULES[0]), OpenCells(m, RULES[1]), start);
    ReachIsMonotone(Four, OpenCells(m, RULES[1]), OpenCells(m, RULES[2]), start);
  }
}
