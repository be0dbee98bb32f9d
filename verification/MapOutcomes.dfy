/** Map files written and read back, and the attributes by their bits. */
module MapOutcomes {
  import opened Common
  import opened Bits
  import opened EterPack
  import opened Reachability
  import opened MapFile
  import opened MapFlood

  // ----- a written map is read back ---------------------------------------

  type Sized = b: bytes | |b| < U32

  predicate FitWords(attrs: seq<nat>) {
    forall i | 0 <= i < |attrs| :: attrs[i] < U32
  }

  function WordsOf(attrs: seq<nat>): (b: bytes)
    requires FitWords(attrs)
    ensures |b| == 4 * |attrs|
  {
    if attrs == [] then [] else WordsOf(attrs[..|attrs| - 1]) + WordBytes(attrs[|attrs| - 1])
  }

  lemma {:induction false} WordsOfAt(attrs: seq<nat>, i: nat)
    requires FitWords(attrs) && i < |attrs|
    ensures WordsOf(attrs)[4 * i..4 * i + 4] == WordBytes(attrs[i])
  {
    var n := |attrs| - 1;
    if i < n {
      WordsOfAt(attrs[..n], i);
      assert WordsOf(attrs)[4 * i..4 * i + 4] == WordsOf(attrs[..n])[4 * i..4 * i + 4];
    }
  }

  lemma WordAtComesBack(raw: bytes, attrs: seq<nat>, i: nat)
    requires FitWords(attrs) && |raw| == 4 * |attrs| && i < |attrs|
    requires raw[4 * i..4 * i + 4] == WordBytes(attrs[i])
    ensures i < |Words(raw)| && Words(raw)[i] == attrs[i]
  {
  }

  lemma WordsComeBack(attrs: seq<nat>)
    requires FitWords(attrs)
    ensures Words(WordsOf(attrs)) == attrs
  {
    var raw := WordsOf(attrs);
    forall i | 0 <= i < |attrs| ensures Words(raw)[i] == attrs[i] {
      WordsOfAt(attrs, i);
      WordAtComesBack(raw, attrs, i);
    }
  }

  function Chunk(p: Sized): (b: bytes)
    ensures |b| == 4 + |p|
  {
    WordBytes(|p|) + p
  }

  /** The first `n` packed sectors, each behind its size. */
  function Chunks(ps: seq<Sized>, n: nat): bytes
    requires n <= |ps|
  {
    if n == 0 then [] else Chunks(ps, n - 1) + Chunk(ps[n - 1])
  }

  lemma {:induction false} ChunksSplit(ps: seq<Sized>, n: nat, k: nat) returns (rest: bytes)
    requires n <= k <= |ps|
    ensures Chunks(ps, k) == Chunks(ps, n) + rest
  {
    if n == k {
      rest := [];
    } else {
      rest := ChunksSplit(ps, n, k - 1);
      rest := rest + Chunk(ps[k - 1]);
    }
  }

  lemma ChunksAround(ps: seq<Sized>, n: nat) returns (rest: bytes)
    requires n < |ps|
    ensures Chunks(ps, n + 1) == Chunks(ps, n) + Chunk(ps[n])
    ensures Chunks(ps, |ps|) == Chunks(ps, n) + Chunk(ps[n]) + rest
  {
    rest := ChunksSplit(ps, n + 1, |ps|);
  }

  /** A packed sector with its size before it, from `at` up to `next`. */
  ghost predicate Stands(data: bytes, at: nat, next: nat, p: bytes) {
    && next == at + 4 + |p| && next <= |data| && |p| < U32
    && data[at..at + 4] == WordBytes(|p|) && data[at + 4..next] == p
  }

  lemma Middle(data: bytes, head: bytes, before: bytes, p: Sized, rest: bytes)
    requires data == head + (before + Chunk(p) + rest)
    ensures Stands(data, |head| + |before|, |head| + |before| + 4 + |p|, p)
  {
    var at := |head| + |before|;
    assert data[at..at + 4 + |p|] == Chunk(p);
    assert data[at..at + 4] == Chunk(p)[..4] && data[at + 4..at + 4 + |p|] == Chunk(p)[4..];
  }

  /** Where the first `n` sectors end, behind a header of eight bytes. */
  function Offset(ps: seq<Sized>, n: nat): nat {
    if n <= |ps| then 8 + |Chunks(ps, n)| else 0
  }

  lemma ChunkStands(data: bytes, head: bytes, ps: seq<Sized>, n: nat)
    requires n < |ps| && |head| == 8 && data == head + Chunks(ps, |ps|)
    ensures Stands(data, Offset(ps, n), Offset(ps, n + 1), ps[n])
  {
    var rest := ChunksAround(ps, n);
    Middle(data, head, Chunks(ps, n), ps[n], rest);
  }

  /** The sectors of a map, packed: each unpacks to its attribute words. */
  ghost predicate Packs(z: Lzo, m: Map, ps: seq<Sized>) {
    && |ps| == |m.sectors|
    && forall i | 0 <= i < |ps| :: FitWords(m.sectors[i]) && ps[i] == z.compress(WordsOf(m.sectors[i]))
  }

  predicate FitsHeader(v: int) {
    -0x8000_0000 <= v < 0x8000_0000
  }

  /** A size in the file: four bytes, negative ones counted from 2^32 down. */
  function SizeBytes(v: int): (b: bytes)
    requires FitsHeader(v)
    ensures |b| == 4
  {
    WordBytes(if v < 0 then v + 0x1_0000_0000 else v)
  }

  lemma SizeComesBack(v: int)
    requires FitsHeader(v)
    ensures Signed(Word(SizeBytes(v))) == v
  {
  }

  function MapBytes(w: int, h: int, ps: seq<Sized>): bytes
    requires FitsHeader(w) && FitsHeader(h)
  {
    SizeBytes(w) + SizeBytes(h) + Chunks(ps, |ps|)
  }

  lemma Unpacks(z: Lzo, attrs: seq<nat>, packed: bytes)
    requires Lawful(z) && |attrs| == AREA && FitWords(attrs) && packed == z.compress(WordsOf(attrs))
    ensures z.decompress(packed, 4 * AREA) == Some(WordsOf(attrs)) && Words(WordsOf(attrs)) == attrs
  {
    WordsComeBack(attrs);
    assert z.decompress(z.compress(WordsOf(attrs)), |WordsOf(attrs)|) == Some(WordsOf(attrs));
  }

  lemma SectorFrom(z: Lzo, data: bytes, at: nat, size: nat, raw: bytes)
    requires at + 4 <= |data| && Word(data[at..at + 4]) == size
    requires z.decompress(Slice(data, at + 4, at + 4 + size), 4 * AREA) == Some(raw) && |raw| == 4 * AREA
    ensures SectorAt(z, data, at) == Some((at + 4 + size, Words(raw)))
  {
  }

  lemma StandsFrom(data: bytes, at: nat, next: nat, p: bytes)
    requires Stands(data, at, next, p)
    ensures Word(data[at..at + 4]) == |p| && Slice(data, at + 4, at + 4 + |p|) == p
  {
  }

  lemma OneSector(z: Lzo, data: bytes, at: nat, next: nat, packed: Sized, raw: bytes)
    requires z.decompress(packed, 4 * AREA) == Some(raw) && |raw| == 4 * AREA && Stands(data, at, next, packed)
    ensures SectorAt(z, data, at) == Some((next, Words(raw)))
  {
    StandsFrom(data, at, next, packed);
    SectorFrom(z, data, at, |packed|, raw);
  }

  lemma {:induction false} SectorsComeBack(read: SectorReader, sectors: seq<seq<nat>>, offset: nat -> nat, n: nat)
    requires n <= |sectors| && offset(0) == 8
    requires forall i: nat | i < |sectors| :: read(offset(i)) == Some((offset(i + 1), sectors[i]))
    ensures Sectors(read, n) == Some((offset(n), sectors[..n]))
  {
    if n == 0 {
      assert sectors[..0] == [];
    } else {
      var k := n - 1;
      SectorsComeBack(read, sectors, offset, k);
      assert read(offset(k)) == Some((offset(k + 1), sectors[k]));
      assert sectors[..n] == sectors[..k] + [sectors[k]];
    }
  }

  lemma LoadedFrom(z: Lzo, data: bytes, m: Map, end: nat)
    requires |data| >= 8 && FitsHeader(m.w) && FitsHeader(m.h) && Complete(m)
    requires data[..4] == SizeBytes(m.w) && data[4..8] == SizeBytes(m.h)
    requires Sectors(ReaderOf(z, data), Count(m.w, m.h)) == Some((end, m.sectors))
    ensures Loaded(z, data) == Some(m)
  {
    SizeComesBack(m.w);
    SizeComesBack(m.h);
  }

  lemma StandingSectors(z: Lzo, data: bytes, m: Map, ps: seq<Sized>, offset: nat -> nat)
    requires Lawful(z) && Complete(m) && Packs(z, m, ps) && offset(0) == 8
    requires forall i: nat | i < |ps| :: Stands(data, offset(i), offset(i + 1), ps[i])
    ensures Sectors(ReaderOf(z, data), Count(m.w, m.h)) == Some((offset(|ps|), m.sectors))
  {
    var read := ReaderOf(z, data);
    forall i: nat | i < |m.sectors| ensures read(offset(i)) == Some((offset(i + 1), m.sectors[i])) {
      Unpacks(z, m.sectors[i], ps[i]);
      OneSector(z, data, offset(i), offset(i + 1), ps[i], WordsOf(m.sectors[i]));
    }
    SectorsComeBack(read, m.sectors, offset, |ps|);
    assert m.sectors[..|ps|] == m.sectors;
  }

  lemma AllStand(head: bytes, ps: seq<Sized>, data: bytes) returns (offset: nat -> nat)
    requires |head| == 8 && data == head + Chunks(ps, |ps|)
    ensures offset(0) == 8 && forall i: nat | i < |ps| :: Stands(data, offset(i), offset(i + 1), ps[i])
  {
    offset := n => Offset(ps, n);
    forall i: nat | i < |ps| ensures Stands(data, offset(i), offset(i + 1), ps[i]) {
      ChunkStands(data, head, ps, i);
    }
  }

  lemma HeaderStands(w: bytes, h: bytes, rest: bytes, data: bytes)
    requires |w| == |h| == 4 && data == w + h + rest
    ensures |data| >= 8 && data[..4] == w && data[4..8] == h
  {
  }

  /** Every map whose numbers fit the format is read back from its file as it was,
      negative sizes included. */
  lemma MapComesBack(z: Lzo, m: Map, ps: seq<Sized>)
    requires Lawful(z) && Complete(m) && Packs(z, m, ps) && FitsHeader(m.w) && FitsHeader(m.h)
    ensures Loaded(z, MapBytes(m.w, m.h, ps)) == Some(m)
  {
    BytesComeBack(z, m, ps, SizeBytes(m.w), SizeBytes(m.h), MapBytes(m.w, m.h, ps));
  }

  lemma BytesComeBack(z: Lzo, m: Map, ps: seq<Sized>, w: bytes, h: bytes, data: bytes)
    requires Lawful(z) && Complete(m) && Packs(z, m, ps) && FitsHeader(m.w) && FitsHeader(m.h)
    requires w == SizeBytes(m.w) && h == SizeBytes(m.h) && data == w + h + Chunks(ps, |ps|)
    ensures Loaded(z, data) == Some(m)
  {
    HeaderStands(w, h, Chunks(ps, |ps|), data);
    var offset := AllStand(w + h, ps, data);
    StandingSectors(z, data, m, ps, offset);
    LoadedFrom(z, data, m, offset(|ps|));
  }

  // ----- where a cell stands, and what its bits mean ----------------------

  /** Sectors run row by row through the map, cells row by row through a sector. */
  lemma CellOutcome(m: Map, sx: nat, sy: nat, cx: nat, cy: nat)
    requires Complete(m) && sx < m.w && sy < m.h && cx < 128 && cy < 128
    ensures var x, y := 128 * sx + cx, 128 * sy + cy;
      && Inside(m, x, y) && sy * m.w + sx < |m.sectors| && |m.sectors[sy * m.w + sx]| == 128 * 128
      && Attr(m, x, y) == m.sectors[sy * m.w + sx][128 * cy + cx]
  {
    SectorIndex(m.w, m.h, sx, sy);
    assert (128 * sx + cx) / 128 == sx && (128 * sx + cx) % 128 == cx;
    assert (128 * sy + cy) / 128 == sy && (128 * sy + cy) % 128 == cy;
    assert 128 * sx + cx < m.w * 128 && 128 * sy + cy < m.h * 128;
  }

  /** Bits of numbers built up from the top. */
  lemma BitOfParts(high: nat, low: nat, i: nat)
    requires low < 2
    ensures Bit(2 * high + low, i) == if i == 0 then low == 1 else Bit(high, i - 1)
  {
  }

  lemma OneBit(i: nat)
    ensures Bit(1, i) <==> i == 0
  {
    BitOfParts(0, 1, i);
    if i > 0 {
      NoBits(i - 1);
    }
  }

  lemma ShiftedBit(high: nat, n: nat, i: nat)
    requires n == 64 * high
    ensures Bit(n, i) <==> i >= 6 && Bit(high, i - 6)
  {
    BitOfParts(32 * high, 0, i);
    if i >= 1 { BitOfParts(16 * high, 0, i - 1); }
    if i >= 2 { BitOfParts(8 * high, 0, i - 2); }
    if i >= 3 { BitOfParts(4 * high, 0, i - 3); }
    if i >= 4 { BitOfParts(2 * high, 0, i - 4); }
    if i >= 5 { BitOfParts(high, 0, i - 5); }
  }

  /** The bits of the three rules: blocked, under water, held by an object. */
  lemma RuleBits(i: nat)
    ensures Bit(RULES[0], i) <==> i == 0 || i == 1 || i == 7
    ensures Bit(RULES[1], i) <==> i == 0 || i == 7
    ensures Bit(RULES[2], i) <==> i == 0
    ensures BLOCKING == RULES[0]
  {
    assert RULES[0] == 131 && RULES[1] == 129 && RULES[2] == 1;
    OneBit(i);
    BitOfParts(64, 1, i);
    BitOfParts(65, 1, i);
    if i >= 1 {
      OneBit(i - 1);
      ShiftedBit(1, 64, i - 1);
      BitOfParts(32, 1, i - 1);
      if i >= 7 { OneBit(i - 7); }
      if i >= 2 {
        HalfShifted(i - 2);
      }
    }
  }

  lemma HalfShifted(i: nat)
    ensures Bit(32, i) <==> i == 5
  {
    ShiftedBit(1, 64, i + 1);
    BitOfParts(32, 0, i + 1);
    if i >= 5 {
      OneBit(i - 5);
    }
  }

  /** So a bot walks a cell of the map exactly when it is on the map and neither
      blocked, nor water, nor an object. */
  lemma WalkableWhen(m: Map, x: int, y: int)
    requires Complete(m)
    ensures Cell(x, y) in OpenCells(m, BLOCKING) <==>
      Inside(m, x, y) && !Bit(Attr(m, x, y), 0) && !Bit(Attr(m, x, y), 1) && !Bit(Attr(m, x, y), 7)
  {
    OpenMeansClear(m, BLOCKING, x, y);
    forall i: nat ensures Bit(BLOCKING, i) <==> i == 0 || i == 1 || i == 7 {
      RuleBits(i);
    }
  }

  // ----- neighbours, and where a closed start snaps to --------------------

  /** A step goes one cell right, left, down or up; a clump also joins corners. */
  lemma NeighboursOutcome(x: int, y: int, b: Cell)
    ensures Adjacent(Four, Cell(x, y), b) <==>
      b in {Cell(x + 1, y), Cell(x - 1, y), Cell(x, y + 1), Cell(x, y - 1)}
    ensures Adjacent(Eight, Cell(x, y), b) <==>
      b in {Cell(x + 1, y), Cell(x - 1, y), Cell(x, y + 1), Cell(x, y - 1),
            Cell(x + 1, y + 1), Cell(x - 1, y + 1), Cell(x + 1, y - 1), Cell(x - 1, y - 1)}
  {
  }

  /** An open cell of the upper or the lower edge of the square of radius `r`. */
  predicate OpenEdge(open: set<Cell>, start: Cell, r: int, dx: int) {
    Cell(start.x + dx, start.y - r) in open || Cell(start.x + dx, start.y + r) in open
  }

  /** A closed start snaps to the nearest square with an open cell on its upper or
      lower edge, there to the leftmost such column, and there to the upper cell if
      that is open; it snaps nowhere when no square within the limit has one. */
  lemma SnapOutcome(open: set<Cell>, start: Cell, limit: int, found: Option<Cell>) returns (r: int, dx: int)
    requires start !in open && BeginsAt(open, start, limit, found)
    ensures found.None? ==> forall r', dx' | 1 <= r' < limit && -r' <= dx' <= r' :: !OpenEdge(open, start, r', dx')
    ensures found.Some? ==>
      && 1 <= r < limit && -r <= dx <= r && OpenEdge(open, start, r, dx)
      && (forall r', dx' | 1 <= r' < r && -r' <= dx' <= r' :: !OpenEdge(open, start, r', dx'))
      && (forall dx' | -r <= dx' < dx :: !OpenEdge(open, start, r, dx'))
      && found.value == if Cell(start.x + dx, start.y - r) in open then Cell(start.x + dx, start.y - r)
                        else Cell(start.x + dx, start.y + r)
  {
    r, dx := 0, 0;
    if found.None? {
      forall r', dx' | 1 <= r' < limit && -r' <= dx' <= r' ensures !OpenEdge(open, start, r', dx') {
        EdgeProbes(open, start, limit, r', dx');
      }
    } else {
      var t :| FirstHit(open, start, limit, t) && found.value == Shifted(start, t);
      r, dx := t.r, t.dx;
      EdgeProbes(open, start, limit, r, dx);
      forall r', dx' | 1 <= r' <= r && -r' <= dx' <= r' && (r' < r || dx' < dx)
        ensures !OpenEdge(open, start, r', dx')
      {
        EdgeProbes(open, start, limit, r', dx');
      }
    }
  }

  lemma EdgeProbes(open: set<Cell>, start: Cell, limit: int, r: int, dx: int)
    requires 1 <= r < limit && -r <= dx <= r
    ensures Tried(Probe(r, dx, -r), limit) && Tried(Probe(r, dx, r), limit)
    ensures Shifted(start, Probe(r, dx, -r)) == Cell(start.x + dx, start.y - r)
    ensures Shifted(start, Probe(r, dx, r)) == Cell(start.x + dx, start.y + r)
    ensures Sooner(Probe(r, dx, -r), Probe(r, dx, r))
  {
  }
}
