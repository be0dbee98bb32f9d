/** The map attribute file: sectors of 128 by 128 attribute words, loaded once
    into a flat grid and once into a dictionary of sectors. `None` and a false
    `ok` stand for the exception a malformed file raises. */
module MapFile {
  import opened Common
  import opened Bits
  import opened EterPack
  import opened Reachability

  const SIDE: int := 128
  const AREA: nat := 16384

  const ATTR_BLOCK: nat := 1
  const ATTR_WATER: nat := 2
  const ATTR_OBJECT: nat := 128

  /** Width and height count sectors and are signed in the file. */
  datatype Map = Map(w: int, h: int, sectors: seq<seq<nat>>)

  function Signed(v: nat): int {
    if v < U32 / 2 then v else v - U32
  }

  function Count(w: int, h: int): nat {
    if w > 0 && h > 0 then w * h else 0
  }

  function Words(raw: bytes): seq<nat> {
    seq(|raw| / 4, i requires 0 <= i < |raw| / 4 => Word(raw[4 * i..4 * i + 4]))
  }

  /** One sector of the file at offset `at`, and the offset behind it. */
  function SectorAt(z: Lzo, data: bytes, at: nat): Option<(nat, seq<nat>)> {
    if |data| < at + 4 then None
    else
      var size := Word(data[at..at + 4]);
      match z.decompress(Slice(data, at + 4, at + 4 + size), 4 * AREA)
      case None => None
      case Some(raw) => if |raw| == 4 * AREA then Some((at + 4 + size, Words(raw))) else None
  }

  /** Reading the sector at an offset of one given file. */
  type SectorReader = nat -> Option<(nat, seq<nat>)>

  function ReaderOf(z: Lzo, data: bytes): SectorReader {
    at => SectorAt(z, data, at)
  }

  /** The first `n` sectors and the offset behind them. */
  function Sectors(read: SectorReader, n: nat): (r: Option<(nat, seq<seq<nat>>)>)
    ensures r.Some? ==> |r.value.1| == n
  {
    if n == 0 then Some((8, []))
    else
      match Sectors(read, n - 1)
      case None => None
      case Some(done) =>
        match read(done.0)
        case None => None
        case Some(s) => Some((s.0, done.1 + [s.1]))
  }

  lemma {:induction false} SectorsAreWhole(z: Lzo, data: bytes, n: nat)
    requires Sectors(ReaderOf(z, data), n).Some?
    ensures forall s <- Sectors(ReaderOf(z, data), n).value.1 :: |s| == AREA
  {
    if n > 0 {
      SectorsAreWhole(z, data, n - 1);
    }
  }

  function Loaded(z: Lzo, data: bytes): (r: Option<Map>)
    ensures r.Some? ==> Complete(r.value)
  {
    if |data| < 8 then None
    else
      var w, h := Signed(Word(data[..4])), Signed(Word(data[4..8]));
      match Sectors(ReaderOf(z, data), Count(w, h))
      case None => None
      case Some(all) =>
        SectorsAreWhole(z, data, Count(w, h));
        Some(Map(w, h, all.1))
  }

  predicate Complete(m: Map) {
    |m.sectors| == Count(m.w, m.h) && forall s <- m.sectors :: |s| == AREA
  }

  predicate Inside(m: Map, x: int, y: int) {
    0 <= x < m.w * SIDE && 0 <= y < m.h * SIDE
  }

  /** The attribute word of cell (x, y). */
  function Attr(m: Map, x: int, y: int): nat
    requires Complete(m) && Inside(m, x, y)
  {
    SectorIndex(m.w, m.h, x / SIDE, y / SIDE);
    m.sectors[(y / SIDE) * m.w + x / SIDE][CellIndex(x, y)]
  }

  function CellIndex(x: int, y: int): (k: nat)
    ensures k < AREA
  {
    (y % SIDE) * SIDE + x % SIDE
  }

  lemma SectorIndex(w: int, h: int, i: int, j: int)
    requires 0 <= i < w && 0 <= j < h
    ensures 0 <= j * w + i < Count(w, h)
  {
    assert j * w + i < j * w + w == (j + 1) * w <= h * w;
  }

  /** The cells a mask leaves open. */
  function OpenCells(m: Map, mask: nat): set<Cell>
    requires Complete(m)
  {
    set x, y | 0 <= x < m.w * SIDE && 0 <= y < m.h * SIDE && And(Attr(m, x, y), mask) == 0 :: Cell(x, y)
  }

  /** A cell is open exactly when it lies on the map and carries none of the
      attributes the mask asks about. */
  lemma OpenMeansClear(m: Map, mask: nat, x: int, y: int)
    requires Complete(m)
    ensures Cell(x, y) in OpenCells(m, mask)
       <==> Inside(m, x, y) && forall i: nat :: !(Bit(Attr(m, x, y), i) && Bit(mask, i))
  {
    if Inside(m, x, y) {
      AndMeets(Attr(m, x, y), mask);
    }
  }

  // ----- the flat grid ----------------------------------------------------

  ghost predicate Shows(grid: array2<nat>, m: Map)
    requires Complete(m)
    reads grid
  {
    && grid.Length0 == Max(m.h * SIDE, 0) && grid.Length1 == Max(m.w * SIDE, 0)
    && forall y, x | 0 <= y < grid.Length0 && 0 <= x < grid.Length1 :: grid[y, x] == Attr(m, x, y)
  }

  /** One sector copied row by row into its place in the grid. */
  method PlaceSector(grid: array2<nat>, sx: nat, sy: nat, attrs: seq<nat>)
    requires |attrs| == AREA
    requires (sx + 1) * SIDE <= grid.Length1 && (sy + 1) * SIDE <= grid.Length0
    modifies grid
    ensures forall y, x | 0 <= y < grid.Length0 && 0 <= x < grid.Length1 ::
              grid[y, x] == if x / SIDE == sx && y / SIDE == sy then attrs[CellIndex(x, y)] else old(grid[y, x])
  {
    var row := 0;
    while row < SIDE
      invariant 0 <= row <= SIDE
      invariant forall y, x | 0 <= y < grid.Length0 && 0 <= x < grid.Length1 ::
                  grid[y, x] == if x / SIDE == sx && y / SIDE == sy && y % SIDE < row
                                then attrs[CellIndex(x, y)] else old(grid[y, x])
    {
      var target, start := sy * SIDE + row, row * SIDE;
      forall x | sx * SIDE <= x < (sx + 1) * SIDE {
        grid[target, x] := attrs[start + x - sx * SIDE];
      }
      row := row + 1;
    }
  }

  /** Whether sector (i, j) comes before (sx, sy) in the file. */
  predicate Earlier(i: int, j: int, sx: int, sy: int) {
    j < sy || (j == sy && i < sx)
  }

  /** The sectors read so far stand in the grid. */
  ghost predicate Partial(grid: array2<nat>, w: int, h: int, done: seq<seq<nat>>, sx: int, sy: int)
    reads grid
  {
    && grid.Length0 == Max(h * SIDE, 0) && grid.Length1 == Max(w * SIDE, 0)
    && forall y, x | 0 <= y < grid.Length0 && 0 <= x < grid.Length1 && Earlier(x / SIDE, y / SIDE, sx, sy) ::
         Picture(w, done, x, y) == Some(grid[y, x])
  }

  /** What cell (x, y) shows once the sectors in `done` are read. */
  function Picture(w: int, done: seq<seq<nat>>, x: int, y: int): Option<nat> {
    var k := (y / SIDE) * w + x / SIDE;
    if 0 <= k < |done| && |done[k]| == AREA then Some(done[k][CellIndex(x, y)]) else None
  }

  lemma PictureGrows(w: int, done: seq<seq<nat>>, attrs: seq<nat>, sx: nat, sy: nat, x: int, y: int)
    requires |done| == sy * w + sx && |attrs| == AREA
    ensures Picture(w, done, x, y).Some? ==> Picture(w, done + [attrs], x, y) == Picture(w, done, x, y)
    ensures x / SIDE == sx && y / SIDE == sy ==> Picture(w, done + [attrs], x, y) == Some(attrs[CellIndex(x, y)])
  {
  }

  method AddSector(grid: array2<nat>, w: int, h: int, ghost done: seq<seq<nat>>, sx: nat, sy: nat, attrs: seq<nat>)
    requires sx < w && sy < h && |done| == sy * w + sx && |attrs| == AREA
    requires Partial(grid, w, h, done, sx, sy)
    modifies grid
    ensures Partial(grid, w, h, done + [attrs], sx + 1, sy)
  {
    PlaceSector(grid, sx, sy, attrs);
    forall y, x | 0 <= y < grid.Length0 && 0 <= x < grid.Length1 && Earlier(x / SIDE, y / SIDE, sx + 1, sy)
      ensures Picture(w, done + [attrs], x, y) == Some(grid[y, x])
    {
      PictureGrows(w, done, attrs, sx, sy, x, y);
    }
  }

  lemma RowDone(grid: array2<nat>, w: int, h: int, done: seq<seq<nat>>, sy: int)
    requires Partial(grid, w, h, done, Max(w, 0), sy)
    ensures Partial(grid, w, h, done, 0, sy + 1)
  {
  }

  lemma AllDone(grid: array2<nat>, m: Map)
    requires Complete(m) && Partial(grid, m.w, m.h, m.sectors, 0, Max(m.h, 0))
    ensures Shows(grid, m)
  {
    forall y, x | 0 <= y < grid.Length0 && 0 <= x < grid.Length1 ensures grid[y, x] == Attr(m, x, y) {
      assert Earlier(x / SIDE, y / SIDE, 0, m.h);
    }
  }

  /** How many sectors come before (sx, sy) in the file. */
  function Before(w: int, sx: nat, sy: nat): nat {
    sy * Max(w, 0) + sx
  }

  lemma NextRow(w: int, sy: nat)
    ensures Before(w, Max(w, 0), sy) == Before(w, 0, sy + 1)
  {
  }

  lemma WholeFile(w: int, h: int)
    ensures Before(w, 0, Max(h, 0)) == Count(w, h)
  {
  }

  lemma OneMore(read: SectorReader, n: nat, offset: nat, done: seq<seq<nat>>, next: (nat, seq<nat>))
    requires Sectors(read, n) == Some((offset, done)) && read(offset) == Some(next)
    ensures Sectors(read, n + 1) == Some((next.0, done + [next.1]))
  {
  }

  lemma BadSector(read: SectorReader, w: int, h: int, sx: nat, sy: nat)
    requires sx < w && sy < h && Sectors(read, Before(w, sx, sy)).Some?
    requires read(Sectors(read, Before(w, sx, sy)).value.0).None?
    ensures Sectors(read, Count(w, h)).None?
  {
    SectorIndex(w, h, sx, sy);
    FailsLater(read, Before(w, sx, sy) + 1, Count(w, h));
  }

  lemma {:induction false} FailsLater(read: SectorReader, n: nat, k: nat)
    requires n <= k && Sectors(read, n).None?
    ensures Sectors(read, k).None?
  {
    if n < k {
      FailsLater(read, n, k - 1);
    }
  }

  ghost predicate WholeSectors(read: SectorReader) {
    forall at: nat :: read(at).Some? ==> |read(at).value.1| == AREA
  }

  /** One row of sectors; false when one of them cannot be read. */
  method LoadRow(read: SectorReader, w: int, h: int, sy: nat, at: nat, grid: array2<nat>, ghost before: seq<seq<nat>>)
    returns (ok: bool, offset: nat, ghost done: seq<seq<nat>>)
    requires sy < h && Sectors(read, Before(w, 0, sy)) == Some((at, before))
    requires Partial(grid, w, h, before, 0, sy)
    requires WholeSectors(read)
    modifies grid
    ensures ok ==> Sectors(read, Before(w, 0, sy + 1)) == Some((offset, done))
    ensures ok ==> Partial(grid, w, h, done, 0, sy + 1)
    ensures !ok ==> Sectors(read, Count(w, h)).None?
  {
    ok, offset, done := false, at, before;
    var sx := 0;
    while sx < w
      invariant 0 <= sx <= Max(w, 0)
      invariant Sectors(read, Before(w, sx, sy)) == Some((offset, done))
      invariant Partial(grid, w, h, done, sx, sy)
    {
      var next := read(offset);
      if next.None? {
        BadSector(read, w, h, sx, sy);
        return;
      }
      AddSector(grid, w, h, done, sx, sy, next.value.1);
      OneMore(read, Before(w, sx, sy), offset, done, next.value);
      offset, done := next.value.0, done + [next.value.1];
      sx := sx + 1;
    }
    RowDone(grid, w, h, done, sy);
    NextRow(w, sy);
    ok := true;
  }

  lemma LoadedIs(z: Lzo, data: bytes, w: int, h: int, offset: nat, done: seq<seq<nat>>)
    requires |data| >= 8 && w == Signed(Word(data[..4])) && h == Signed(Word(data[4..8]))
    requires Sectors(ReaderOf(z, data), Before(w, 0, Max(h, 0))) == Some((offset, done))
    ensures Loaded(z, data) == Some(Map(w, h, done)) && Complete(Map(w, h, done))
  {
    WholeFile(w, h);
    SectorsAreWhole(z, data, Count(w, h));
  }

  method LoadGrid(z: Lzo, data: bytes) returns (ok: bool, w: int, h: int, grid: array2<nat>)
    ensures ok <==> Loaded(z, data).Some?
    ensures ok ==> Shows(grid, Loaded(z, data).value)
    ensures ok ==> w == Loaded(z, data).value.w * SIDE && h == Loaded(z, data).value.h * SIDE
    ensures fresh(grid)
  {
    ok, w, h := false, 0, 0;
    grid := new nat[0, 0];
    if |data| < 8 {
      return;
    }
    var width, height := Signed(Word(data[..4])), Signed(Word(data[4..8]));
    grid := new nat[Max(height * SIDE, 0), Max(width * SIDE, 0)]((y, x) => 0);
    var read, offset := ReaderOf(z, data), 8;
    ghost var done: seq<seq<nat>> := [];
    var sy := 0;
    while sy < height
      invariant 0 <= sy <= Max(height, 0)
      invariant Sectors(read, Before(width, 0, sy)) == Some((offset, done))
      invariant fresh(grid) && Partial(grid, width, height, done, 0, sy)
    {
      ok, offset, done := LoadRow(read, width, height, sy, offset, grid, done);
      if !ok {
        return;
      }
      sy := sy + 1;
    }
    LoadedIs(z, data, width, height, offset, done);
    AllDone(grid, Map(width, height, done));
    return true, width * SIDE, height * SIDE, grid;
  }

  // ----- the dictionary of sectors ----------------------------------------

  type SectorMap = map<(int, int), seq<nat>>

  ghost predicate Indexes(sectors: SectorMap, m: Map)
    requires Complete(m)
  {
    && (forall i, j :: (i, j) in sectors <==> 0 <= i < m.w && 0 <= j < m.h)
    && forall i, j | (i, j) in sectors :: SectorOf(m.w, m.sectors, i, j) == Some(sectors[(i, j)])
  }

  function SectorOf(w: int, done: seq<seq<nat>>, i: int, j: int): Option<seq<nat>> {
    if 0 <= j * w + i < |done| then Some(done[j * w + i]) else None
  }

  /** The sectors read so far are in the dictionary, and no others. */
  ghost predicate Filed(sectors: SectorMap, w: int, done: seq<seq<nat>>, sx: int, sy: int) {
    && (forall i, j :: (i, j) in sectors <==> 0 <= i < w && 0 <= j && Earlier(i, j, sx, sy))
    && forall i, j | (i, j) in sectors :: SectorOf(w, done, i, j) == Some(sectors[(i, j)])
  }

  lemma SectorFiled(sectors: SectorMap, w: int, done: seq<seq<nat>>, sx: nat, sy: nat, attrs: seq<nat>)
    requires sx < w && |done| == Before(w, sx, sy) && Filed(sectors, w, done, sx, sy)
    ensures Filed(sectors[(sx, sy) := attrs], w, done + [attrs], sx + 1, sy)
  {
  }

  /** One row of sectors; false when one of them cannot be read. */
  method FileRow(read: SectorReader, w: int, h: int, sy: nat, at: nat, given: SectorMap, ghost before: seq<seq<nat>>)
    returns (ok: bool, offset: nat, sectors: SectorMap, ghost done: seq<seq<nat>>)
    requires sy < h && Sectors(read, Before(w, 0, sy)) == Some((at, before))
    requires Filed(given, w, before, 0, sy)
    ensures ok ==> Sectors(read, Before(w, 0, sy + 1)) == Some((offset, done))
    ensures ok ==> Filed(sectors, w, done, 0, sy + 1)
    ensures !ok ==> Sectors(read, Count(w, h)).None?
  {
    ok, offset, sectors, done := false, at, given, before;
    var sx := 0;
    while sx < w
      invariant 0 <= sx <= Max(w, 0)
      invariant Sectors(read, Before(w, sx, sy)) == Some((offset, done))
      invariant Filed(sectors, w, done, sx, sy)
    {
      var next := read(offset);
      if next.None? {
        BadSector(read, w, h, sx, sy);
        return;
      }
      SectorFiled(sectors, w, done, sx, sy, next.value.1);
      sectors := sectors[(sx, sy) := next.value.1];
      OneMore(read, Before(w, sx, sy), offset, done, next.value);
      offset, done := next.value.0, done + [next.value.1];
      sx := sx + 1;
    }
    NextRow(w, sy);
    ok := true;
  }

  method LoadSectors(z: Lzo, data: bytes) returns (ok: bool, w: int, h: int, sectors: SectorMap)
    ensures ok <==> Loaded(z, data).Some?
    ensures ok ==> Indexes(sectors, Loaded(z, data).value)
    ensures ok ==> w == Loaded(z, data).value.w && h == Loaded(z, data).value.h
  {
    ok, w, h, sectors := false, 0, 0, map[];
    if |data| < 8 {
      return;
    }
    w, h := Signed(Word(data[..4])), Signed(Word(data[4..8]));
    var read, offset := ReaderOf(z, data), 8;
    ghost var done: seq<seq<nat>> := [];
    var sy := 0;
    while sy < h
      invariant 0 <= sy <= Max(h, 0)
      invariant Sectors(read, Before(w, 0, sy)) == Some((offset, done))
      invariant Filed(sectors, w, done, 0, sy)
    {
      ok, offset, sectors, done := FileRow(read, w, h, sy, offset, sectors, done);
      if !ok {
        return;
      }
      sy := sy + 1;
    }
    WholeFile(w, h);
    ok := true;
  }

  const BLOCKING: nat := ATTR_BLOCK + ATTR_WATER + ATTR_OBJECT

  predicate Blocked(sectors: SectorMap, sw: int, sh: int, cx: int, cy: int)
    requires forall k | k in sectors :: |sectors[k]| == AREA
  {
    if cx < 0 || cy < 0 || cx >= sw * SIDE || cy >= sh * SIDE then true
    else if (cx / SIDE, cy / SIDE) !in sectors then true
    else And(sectors[(cx / SIDE, cy / SIDE)][CellIndex(cx, cy)], BLOCKING) != 0
  }

  /** The dictionary blocks exactly what the mask closes in the file. */
  lemma BlockedIsClosed(sectors: SectorMap, m: Map, x: int, y: int)
    requires Complete(m) && Indexes(sectors, m)
    ensures forall k | k in sectors :: |sectors[k]| == AREA
    ensures Blocked(sectors, m.w, m.h, x, y) <==> Cell(x, y) !in OpenCells(m, BLOCKING)
  {
    forall i, j | (i, j) in sectors ensures |sectors[(i, j)]| == AREA {
      assert SectorOf(m.w, m.sectors, i, j) == Some(sectors[(i, j)]);
    }
    assert forall k | k in sectors :: k == (k.0, k.1);
  }
}
