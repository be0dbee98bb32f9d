/** The EterPack archive: LZO objects, the index of 192-byte records, and the
    two layouts of the data file. `None` stands for the exception the Python
    code raises, whichever it is. */
module EterPack {
  import opened Common
  import opened Bits
  import opened Xtea

  const ENTRY: nat := 192
  const NAME_BYTES: nat := 161
  const FOURCC_LZO: bytes := [77, 67, 79, 90]
  const FOURCC_INDEX: bytes := [69, 80, 75, 68]

  /** The compressor, of which only the round trip is known. */
  datatype Lzo = Lzo(compress: bytes -> bytes, decompress: (bytes, nat) -> Option<bytes>)

  ghost predicate Lawful(z: Lzo) {
    forall d: bytes :: z.decompress(z.compress(d), |d|) == Some(d)
  }

  datatype Layout = Stock | PackMakerLite

  datatype Profile = Profile(indexKey: Key, dataKey: Key, layout: Layout)

  // ----- one LZO object ---------------------------------------------------

  /** What follows the header: the inner fourcc, the stream, and for a keyed
      object the filler up to the cipher's block. */
  function Body(comp: bytes, key: Option<Key>, layout: Layout): (b: bytes)
    ensures |b| >= 4 + |comp| && b[..4 + |comp|] == FOURCC_LZO + comp
    ensures key.Some? ==> |b| % 8 == 0
  {
    var body := FOURCC_LZO + comp;
    if key.None? then body
    else
      var target := if layout == PackMakerLite then |body| + 15 else |body|;
      body + Zeros((-target) % 8 + (target - |body|))
  }

  function LzoPack(z: Lzo, data: bytes, key: Option<Key>, layout: Layout): Option<bytes> {
    var comp := z.compress(data);
    var body := Body(comp, key, layout);
    var enc := if key.Some? then |body| else 0;
    if enc < U32 && |comp| < U32 && |data| < U32 then
      Some(FOURCC_LZO + WordBytes(enc) + WordBytes(|comp|) + WordBytes(|data|)
           + (if key.Some? then Stream(body, key.value, true) else body))
    else None
  }

  function LzoUnpack(z: Lzo, blob: bytes, key: Option<Key>): Option<bytes> {
    if |blob| < 16 || blob[..4] != FOURCC_LZO then None
    else
      var enc, comp, size := Word(blob[4..8]), Word(blob[8..12]), Word(blob[12..16]);
      if key.Some? then
        var body := Stream(Slice(blob, 16, 16 + enc), key.value, false);
        if Slice(body, 0, 4) != FOURCC_LZO then None
        else z.decompress(Slice(body, 4, 4 + comp), size)
      else if Slice(blob, 16, 20) != FOURCC_LZO then None
      else z.decompress(Slice(blob, 20, 20 + comp), size)
  }

  function Object(enc: nat, comp: nat, size: nat, rest: bytes): bytes
    requires enc < U32 && comp < U32 && size < U32
  {
    FOURCC_LZO + WordBytes(enc) + WordBytes(comp) + WordBytes(size) + rest
  }

  lemma KeyedOpens(z: Lzo, comp: bytes, body: bytes, size: nat, key: Key, after: bytes)
    requires |comp| < U32 && |body| < U32 && size < U32
    requires |body| >= 4 + |comp| && body[..4 + |comp|] == FOURCC_LZO + comp
    ensures LzoUnpack(z, Object(|body|, |comp|, size, Stream(body, key, true)) + after, Some(key))
         == z.decompress(comp, size)
  {
    var rest := Stream(body, key, true);
    var blob := Object(|body|, |comp|, size, rest) + after;
    HeaderParts(|body|, |comp|, size, rest, after);
    assert Slice(blob, 16, 16 + |body|) == rest;
    StreamInverts(body, key, true);
    assert Slice(body, 0, 4) == (FOURCC_LZO + comp)[..4] == FOURCC_LZO;
    assert Slice(body, 4, 4 + |comp|) == (FOURCC_LZO + comp)[4..] == comp;
  }

  lemma PlainOpens(z: Lzo, comp: bytes, size: nat, after: bytes)
    requires |comp| < U32 && size < U32
    ensures LzoUnpack(z, Object(0, |comp|, size, FOURCC_LZO + comp) + after, None) == z.decompress(comp, size)
  {
    var rest := FOURCC_LZO + comp;
    var blob := Object(0, |comp|, size, rest) + after;
    HeaderParts(0, |comp|, size, rest, after);
    assert Slice(blob, 16, 20) == rest[..4] == FOURCC_LZO;
    assert Slice(blob, 20, 20 + |comp|) == rest[4..] == comp;
  }

  /** An object opens with the key it was made with, also when its slot goes
      on after it. */
  lemma LzoRoundTrip(z: Lzo, data: bytes, key: Option<Key>, layout: Layout, after: bytes)
    requires Lawful(z) && LzoPack(z, data, key, layout).Some?
    ensures LzoUnpack(z, LzoPack(z, data, key, layout).value + after, key) == Some(data)
  {
    var comp := z.compress(data);
    if key.Some? {
      KeyedOpens(z, comp, Body(comp, key, layout), |data|, key.value, after);
    } else {
      PlainOpens(z, comp, |data|, after);
    }
  }

  lemma HeaderParts(enc: nat, comp: nat, size: nat, rest: bytes, after: bytes)
    requires enc < U32 && comp < U32 && size < U32
    ensures var b := FOURCC_LZO + WordBytes(enc) + WordBytes(comp) + WordBytes(size) + rest + after;
      && |b| == 16 + |rest| + |after| && b[..4] == FOURCC_LZO
      && Word(b[4..8]) == enc && Word(b[8..12]) == comp && Word(b[12..16]) == size
      && b[16..16 + |rest|] == rest && b[16..] == rest + after
  {
    var b := FOURCC_LZO + WordBytes(enc) + WordBytes(comp) + WordBytes(size) + rest + after;
    assert b[4..8] == WordBytes(enc);
    assert b[8..12] == WordBytes(comp);
    assert b[12..16] == WordBytes(size);
  }

  /** What the archive needs of its objects and checksums, whatever they are. */
  datatype Codec = Codec(
    pack: (bytes, Option<Key>, Layout) -> Option<bytes>,
    unpack: (bytes, Option<Key>) -> Option<bytes>,
    crc32: bytes -> nat)

  ghost predicate Faithful(c: Codec) {
    forall d: bytes, key: Option<Key>, layout: Layout, after: bytes :: c.pack(d, key, layout).Some? ==>
      c.unpack(c.pack(d, key, layout).value + after, key) == Some(d)
  }

  function LzoCodec(z: Lzo, crc32: bytes -> nat): Codec {
    Codec((d, key, layout) => LzoPack(z, d, key, layout), (b, key) => LzoUnpack(z, b, key), crc32)
  }

  /** LZO objects, ciphered or plain, are such objects. */
  lemma LzoIsFaithful(z: Lzo, crc32: bytes -> nat)
    requires Lawful(z)
    ensures Faithful(LzoCodec(z, crc32))
  {
    forall d: bytes, key: Option<Key>, layout: Layout, after: bytes | LzoPack(z, d, key, layout).Some?
      ensures LzoUnpack(z, LzoPack(z, d, key, layout).value + after, key) == Some(d)
    {
      LzoRoundTrip(z, d, key, layout, after);
    }
  }

  // ----- the index record -------------------------------------------------

  datatype Entry = Entry(id: nat, name: bytes, crc: nat, disk: nat, realSize: nat, size: nat, pos: nat, kind: nat)

  predicate EntryFits(e: Entry) {
    e.id < U32 && e.crc < U32 && e.disk < U32 && e.realSize < U32 && e.size < U32 && e.pos < U32 && e.kind < 256
  }

  /** struct's 161s: cut or filled with zero bytes. */
  function NameField(name: bytes): (b: bytes)
    ensures |b| == NAME_BYTES
  {
    if |name| >= NAME_BYTES then name[..NAME_BYTES] else name + Zeros(NAME_BYTES - |name|)
  }

  /** name.split(b'\0', 1)[0] */
  function UpToNul(b: bytes): (r: bytes)
    ensures r <= b && 0 !in r
  {
    if b == [] || b[0] == 0 then []
    else [b[0]] + UpToNul(b[1..])
  }

  /** struct.pack('<I161s3xIIIIIB3x', ...) */
  function PackEntry(e: Entry): (r: Option<bytes>)
    ensures r.Some? <==> EntryFits(e)
    ensures r.Some? ==> |r.value| == ENTRY
  {
    if !EntryFits(e) then None
    else
      Some(WordBytes(e.id) + NameField(e.name) + Zeros(3) + WordBytes(e.crc) + WordBytes(e.disk)
           + WordBytes(e.realSize) + WordBytes(e.size) + WordBytes(e.pos) + [e.kind] + Zeros(3))
  }

  function UnpackEntry(b: bytes): (e: Entry)
    requires |b| == ENTRY
  {
    Entry(Word(b[0..4]), UpToNul(b[4..165]), Word(b[168..172]), Word(b[172..176]), Word(b[176..180]),
          Word(b[180..184]), Word(b[184..188]), b[188])
  }

  lemma EntryRoundTrip(e: Entry)
    requires EntryFits(e)
    ensures UnpackEntry(PackEntry(e).value) == e.(name := UpToNul(NameField(e.name)))
  {
    var b := PackEntry(e).value;
    assert b[0..4] == WordBytes(e.id);
    assert b[4..165] == NameField(e.name);
    assert b[168..172] == WordBytes(e.crc);
    assert b[172..176] == WordBytes(e.disk);
    assert b[176..180] == WordBytes(e.realSize);
    assert b[180..184] == WordBytes(e.size);
    assert b[184..188] == WordBytes(e.pos);
  }

  /** A name survives the record exactly when it fits and has no zero byte. */
  lemma NameSurvives(name: bytes)
    ensures UpToNul(NameField(name)) == name <==> |name| <= NAME_BYTES && 0 !in name
  {
    if |name| < NAME_BYTES && 0 !in name {
      UpToNulStops(name, Zeros(NAME_BYTES - |name|));
    } else if |name| == NAME_BYTES && 0 !in name {
      UpToNulStops(name, []);
      assert name[..NAME_BYTES] == name && name + [] == name;
    }
  }

  lemma {:induction false} UpToNulStops(a: bytes, b: bytes)
    requires 0 !in a && (b == [] || b[0] == 0)
    ensures UpToNul(a + b) == a
  {
    if a == [] {
      assert a + b == b;
    } else {
      assert (a + b)[1..] == a[1..] + b;
      UpToNulStops(a[1..], b);
    }
  }

  // ----- writing ----------------------------------------------------------

  datatype File = File(name: bytes, data: bytes, kind: nat)

  /** What goes into a file's slot before the padding. */
  function Blob(c: Codec, p: Profile, type1Key: Option<Key>, f: File): Option<bytes> {
    if f.kind == 0 then Some(f.data)
    else if f.kind == 1 then c.pack(f.data, type1Key, p.layout)
    else if f.kind == 2 then
      match c.pack(f.data, Some(p.dataKey), p.layout)
      case None => None
      case Some(b) => Some(if p.layout == PackMakerLite then b + Zeros(4) else b)
    else None
  }

  function Align(p: Profile): nat {
    if p.layout == PackMakerLite then 256 else 128
  }

  function SlotSize(p: Profile, n: nat): (s: nat)
    ensures s % Align(p) == 0 && n <= s < n + Align(p)
  {
    if p.layout == PackMakerLite then (n + 255) / 256 * 256 else (n + 127) / 128 * 128
  }

  /** bytes.lower(): the ASCII capitals only. */
  function Lowered(name: bytes): bytes {
    seq(|name|, i requires 0 <= i < |name| => if 65 <= name[i] <= 90 then name[i] + 32 else name[i])
  }

  function EntryOf(c: Codec, p: Profile, f: File, id: nat, blob: bytes, pos: nat): Entry {
    var slot := SlotSize(p, |blob|);
    if p.layout == PackMakerLite then
      Entry(id, f.name, c.crc32(Lowered(f.name)) % U32, slot, |blob|, c.crc32(blob) % U32, pos, f.kind)
    else
      Entry(id, f.name, c.crc32(Lowered(f.name)) % U32, |blob|, slot, |f.data|, pos, f.kind)
  }

  /** The archive under construction. */
  datatype Pack = Pack(data: bytes, entries: seq<Entry>, records: seq<bytes>)

  /** b''.join */
  function Join(parts: seq<bytes>): bytes {
    if parts == [] then [] else Join(parts[..|parts| - 1]) + parts[|parts| - 1]
  }

  function AddFile(c: Codec, p: Profile, type1Key: Option<Key>, pack: Pack, f: File): Option<Pack> {
    match Blob(c, p, type1Key, f)
    case None => None
    case Some(blob) =>
      var e := EntryOf(c, p, f, |pack.entries|, blob, |pack.data|);
      match PackEntry(e)
      case None => None
      case Some(record) =>
        Some(Pack(pack.data + blob + Zeros(SlotSize(p, |blob|) - |blob|), pack.entries + [e], pack.records + [record]))
  }

  function AddFiles(c: Codec, p: Profile, type1Key: Option<Key>, files: seq<File>): Option<Pack> {
    if files == [] then Some(Pack([], [], []))
    else
      match AddFiles(c, p, type1Key, files[..|files| - 1])
      case None => None
      case Some(pack) => AddFile(c, p, type1Key, pack, files[|files| - 1])
  }

  /** The data file and the index file. */
  datatype Archive = Archive(data: bytes, index: bytes)

  /** The index before it is packed. */
  function IndexText(version: nat, count: nat, records: seq<bytes>): bytes
    requires version < U32 && count < U32
  {
    FOURCC_INDEX + WordBytes(version) + WordBytes(count) + Join(records)
  }

  function Finish(c: Codec, p: Profile, version: nat, data: bytes, records: seq<bytes>, count: nat): Option<Archive> {
    if version >= U32 || count >= U32 then None
    else
      match c.pack(IndexText(version, count, records), Some(p.indexKey), p.layout)
      case None => None
      case Some(index) => Some(Archive(data, index))
  }

  function Written(c: Codec, p: Profile, type1Key: Option<Key>, version: nat, files: seq<File>): Option<Archive> {
    match AddFiles(c, p, type1Key, files)
    case None => None
    case Some(pack) => Finish(c, p, version, pack.data, pack.records, |files|)
  }

  lemma {:induction false} AddFilesFails(c: Codec, p: Profile, type1Key: Option<Key>, files: seq<File>, n: nat)
    requires n <= |files| && AddFiles(c, p, type1Key, files[..n]).None?
    ensures AddFiles(c, p, type1Key, files).None?
    decreases |files|
  {
    if n == |files| {
      assert files[..n] == files;
    } else {
      assert files[..|files| - 1][..n] == files[..n];
      AddFilesFails(c, p, type1Key, files[..|files| - 1], n);
    }
  }

  lemma OneMoreFile(c: Codec, p: Profile, type1Key: Option<Key>, files: seq<File>, i: nat, pack: Pack)
    requires i < |files| && AddFiles(c, p, type1Key, files[..i]) == Some(pack)
    ensures AddFiles(c, p, type1Key, files[..i + 1]) == AddFile(c, p, type1Key, pack, files[i])
    ensures AddFile(c, p, type1Key, pack, files[i]).None? ==> AddFiles(c, p, type1Key, files).None?
  {
    assert files[..i + 1][..i] == files[..i];
    if AddFile(c, p, type1Key, pack, files[i]).None? {
      AddFilesFails(c, p, type1Key, files, i + 1);
    }
  }

  method WritePack(c: Codec, p: Profile, type1Key: Option<Key>, version: nat, files: seq<File>)
    returns (r: Option<Archive>)
    ensures r == Written(c, p, type1Key, version, files)
  {
    var epk: bytes := [];
    var records: seq<bytes> := [];
    ghost var entries: seq<Entry> := [];
    for i := 0 to |files|
      invariant |entries| == i
      invariant AddFiles(c, p, type1Key, files[..i]) == Some(Pack(epk, entries, records))
    {
      OneMoreFile(c, p, type1Key, files, i, Pack(epk, entries, records));
      var f := files[i];
      var blob := Blob(c, p, type1Key, f);
      if blob.None? {
        return None;
      }
      var slot := SlotSize(p, |blob.value|);
      var e := EntryOf(c, p, f, i, blob.value, |epk|);
      var record := PackEntry(e);
      if record.None? {
        return None;
      }
      epk := epk + blob.value + Zeros(slot - |blob.value|);
      records := records + [record.value];
      entries := entries + [e];
    }
    assert files[..|files|] == files;
    return Finish(c, p, version, epk, records, |files|);
  }

  // ----- reading ----------------------------------------------------------

  datatype Index = Index(version: nat, entries: seq<Entry>)

  /** The first `count` records behind the 12-byte head. */
  function Records(index: bytes, count: nat): (r: Option<seq<bytes>>)
    ensures r.Some? <==> count == 0 || |index| >= 12 + count * ENTRY
    ensures r.Some? ==> |r.value| == count && forall i | 0 <= i < count :: |r.value[i]| == ENTRY
  {
    if count == 0 then Some([])
    else
      match Records(index, count - 1)
      case None => None
      case Some(records) =>
        var off := 12 + (count - 1) * ENTRY;
        if |index| < off + ENTRY then None else Some(records + [index[off..off + ENTRY]])
  }

  function Entries(records: seq<bytes>): (r: seq<Entry>)
    requires forall i | 0 <= i < |records| :: |records[i]| == ENTRY
    ensures |r| == |records|
  {
    seq(|records|, i requires 0 <= i < |records| => UnpackEntry(records[i]))
  }

  function IndexOf(c: Codec, p: Profile, raw: bytes): Option<Index> {
    match c.unpack(raw, Some(p.indexKey))
    case None => None
    case Some(index) =>
      if |index| < 12 || index[..4] != FOURCC_INDEX then None
      else
        match Records(index, Word(index[8..12]))
        case None => None
        case Some(records) => Some(Index(Word(index[4..8]), Entries(records)))
  }

  method ReadIndex(c: Codec, p: Profile, raw: bytes) returns (r: Option<Index>)
    ensures r == IndexOf(c, p, raw)
  {
    var plain := c.unpack(raw, Some(p.indexKey));
    if plain.None? {
      return None;
    }
    var index := plain.value;
    if |index| < 12 || index[..4] != FOURCC_INDEX {
      return None;
    }
    var count := Word(index[8..12]);
    var entries: seq<Entry> := [];
    ghost var records: seq<bytes> := [];
    var i := 0;
    while i < count
      invariant i <= count && Records(index, i) == Some(records) && entries == Entries(records)
    {
      var off := 12 + i * ENTRY;
      if |index| < off + ENTRY {
        assert Records(index, count).None?;
        return None;
      }
      entries := entries + [UnpackEntry(index[off..off + ENTRY])];
      ghost var last := index[off..off + ENTRY];
      assert (records + [last])[..i] == records;
      records := records + [last];
      i := i + 1;
    }
    return Some(Index(Word(index[4..8]), entries));
  }

  function FirstKey(c: Codec, blob: bytes, keys: seq<Option<Key>>): Option<(bytes, Option<Key>)> {
    if keys == [] then None
    else
      match c.unpack(blob, keys[0])
      case Some(data) => Some((data, keys[0]))
      case None => FirstKey(c, blob, keys[1..])
  }

  /** What `read_file` returns, and the type-1 key it remembers afterwards. */
  function FileOf(c: Codec, p: Profile, type1Key: Option<Key>, epk: bytes, e: Entry): (Option<bytes>, Option<Key>) {
    var blob := Slice(epk, e.pos, e.pos + e.disk);
    if e.kind == 0 then (Some(blob), type1Key)
    else if e.kind == 1 then
      if type1Key.Some? then (c.unpack(blob, type1Key), type1Key)
      else
        (match FirstKey(c, blob, [None, Some(p.indexKey), Some(p.dataKey)])
         case None => (None, None)
         case Some((data, key)) => (Some(data), key))
    else if e.kind == 2 then (c.unpack(blob, Some(p.dataKey)), type1Key)
    else (None, type1Key)
  }

  /** The reader and its one remembered key. */
  class Reader {
    const c: Codec
    const p: Profile
    var type1Key: Option<Key>

    constructor (c: Codec, p: Profile)
      ensures this.c == c && this.p == p && type1Key == None
    {
      this.c, this.p, type1Key := c, p, None;
    }

    method ReadFile(epk: bytes, e: Entry) returns (r: Option<bytes>)
      modifies this`type1Key
      ensures (r, type1Key) == FileOf(c, p, old(type1Key), epk, e)
    {
      var blob := Slice(epk, e.pos, e.pos + e.disk);
      if e.kind == 0 {
        return Some(blob);
      }
      if e.kind == 1 {
        if type1Key.None? {
          var keys := [None, Some(p.indexKey), Some(p.dataKey)];
          for i := 0 to |keys|
            invariant FirstKey(c, blob, keys) == FirstKey(c, blob, keys[i..]) && type1Key == None
          {
            r := c.unpack(blob, keys[i]);
            if r.Some? {
              type1Key := keys[i];
              return r;
            }
            assert keys[i..][1..] == keys[i + 1..];
          }
          return None;
        }
        return c.unpack(blob, type1Key);
      }
      if e.kind == 2 {
        return c.unpack(blob, Some(p.dataKey));
      }
      return None;
    }
  }
}
