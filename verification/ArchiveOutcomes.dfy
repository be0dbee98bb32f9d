/** The archive's files byte by byte: what an object, a record, the index and a slot
    hold, and what reading a slot tries. */
module ArchiveOutcomes {
  import opened Common
  import opened Bits
  import opened Xtea
  import opened EterPack
  import opened EterPackTheorems

  /** Words are little-endian. */
  lemma WordOutcome(v: nat)
    requires v < U32
    ensures var b := WordBytes(v);
      |b| == 4 && v == b[0] as nat + 0x100 * (b[1] as nat) + 0x1_0000 * (b[2] as nat) + 0x100_0000 * (b[3] as nat)
  {
  }

  predicate FieldAt(b: bytes, at: nat, v: nat) {
    v < U32 && at + 4 <= |b| && b[at..at + 4] == WordBytes(v)
  }

  predicate AllZero(b: bytes) {
    forall x | x in b :: x == 0
  }

  // ----- one object -------------------------------------------------------

  /** The fourcc, three sizes, and the fourcc with the stream once more: plain, or
      filled with zero bytes to the next multiple of eight and ciphered. The second
      layout fills fifteen bytes more before it rounds up. */
  lemma ObjectOutcome(z: Lzo, data: bytes, key: Option<Key>, layout: Layout) returns (body: bytes)
    requires LzoPack(z, data, key, layout).Some?
    ensures var o, comp := LzoPack(z, data, key, layout).value, z.compress(data);
      && o[..4] == [77, 67, 79, 90] && FieldAt(o, 8, |comp|) && FieldAt(o, 12, |data|)
      && [77, 67, 79, 90] + comp <= body && AllZero(body[4 + |comp|..])
      && (key.None? ==> o[16..] == body == [77, 67, 79, 90] + comp && FieldAt(o, 4, 0))
      && (key.Some? ==>
            && o[16..] == Stream(body, key.value, true) && FieldAt(o, 4, |body|) && |body| % 8 == 0
            && (if layout == Stock then 4 + |comp| else 19 + |comp|) <= |body|
            && |body| < (if layout == Stock then 12 + |comp| else 27 + |comp|))
  {
    var comp := z.compress(data);
    body := Body(comp, key, layout);
    BodySize(comp, key, layout);
    var enc := if key.Some? then |body| else 0;
    var rest := if key.Some? then Stream(body, key.value, true) else body;
    var o := LzoPack(z, data, key, layout).value;
    assert o == FOURCC_LZO + WordBytes(enc) + WordBytes(|comp|) + WordBytes(|data|) + rest;
    assert o[4..8] == WordBytes(enc) && o[8..12] == WordBytes(|comp|) && o[12..16] == WordBytes(|data|);
    assert o[16..] == rest;
    BodyFiller(comp, key, layout);
  }

  lemma BodyFiller(comp: bytes, key: Option<Key>, layout: Layout)
    ensures AllZero(Body(comp, key, layout)[4 + |comp|..])
  {
    var body := FOURCC_LZO + comp;
    if key.Some? {
      var target := if layout == PackMakerLite then |body| + 15 else |body|;
      assert Body(comp, key, layout)[4 + |comp|..] == Zeros((-target) % 8 + (target - |body|));
    }
  }

  // ----- one record, and the index ----------------------------------------

  /** Where each field of the 192 bytes stands; all between them are zero. */
  lemma RecordOutcome(e: Entry)
    requires EntryFits(e)
    ensures var b := PackEntry(e).value;
      && |b| == 192 && FieldAt(b, 0, e.id) && b[4..165] == NameField(e.name) && AllZero(b[165..168])
      && FieldAt(b, 168, e.crc) && FieldAt(b, 172, e.disk) && FieldAt(b, 176, e.realSize)
      && FieldAt(b, 180, e.size) && FieldAt(b, 184, e.pos) && b[188] == e.kind && AllZero(b[189..])
  {
    var b := PackEntry(e).value;
    assert b[165..168] == Zeros(3) && b[189..] == Zeros(3);
  }

  /** 161 bytes: the name's first, then zero bytes. */
  lemma NameFieldOutcome(name: bytes)
    ensures var b := NameField(name); var n := if |name| < 161 then |name| else 161;
      |b| == 161 && b[..n] == name[..n] && AllZero(b[n..])
  {
    if |name| < 161 {
      assert NameField(name)[|name|..] == Zeros(161 - |name|);
    }
  }

  /** The index is its fourcc, version and count, and then the records. */
  lemma IndexOutcome(version: nat, count: nat, records: seq<bytes>, i: nat)
    requires version < U32 && count < U32 && i < |records| && forall k | 0 <= k < |records| :: |records[k]| == ENTRY
    ensures var b := IndexText(version, count, records);
      && |b| == 12 + 192 * |records| && b[..4] == [69, 80, 75, 68] && FieldAt(b, 4, version) && FieldAt(b, 8, count)
      && b[12 + 192 * i..12 + 192 * i + 192] == records[i]
  {
    JoinedAt(records, i);
    var b := IndexText(version, count, records);
    assert b[4..8] == WordBytes(version) && b[8..12] == WordBytes(count);
    assert b[12..] == Join(records);
    assert b[12 + 192 * i..12 + 192 * i + 192] == b[12..][192 * i..192 * i + 192];
  }

  predicate LowerOf(a: byte, b: byte) {
    if 65 <= a <= 90 then b == a + 32 else b == a
  }

  /** The record of one file: the checksum of its name in small letters, and in each
      layout the sizes its client reads. */
  ghost predicate RecordOf(c: Codec, p: Profile, f: File, blob: bytes, low: bytes, e: Entry) {
    && |low| == |f.name| && (forall j | 0 <= j < |low| :: LowerOf(f.name[j], low[j]))
    && e.name == f.name && e.kind == f.kind && e.crc == c.crc32(low) % 0x1_0000_0000
    && (p.layout == Stock ==>
          && e.disk == |blob| && e.size == |f.data|
          && e.realSize % 128 == 0 && |blob| <= e.realSize < |blob| + 128)
    && (p.layout == PackMakerLite ==>
          && e.realSize == |blob| && e.size == c.crc32(blob) % 0x1_0000_0000
          && e.disk % 256 == 0 && |blob| <= e.disk < |blob| + 256)
  }

  lemma EntryFields(c: Codec, p: Profile, f: File, id: nat, blob: bytes, pos: nat)
    ensures var e := EntryOf(c, p, f, id, blob, pos);
      e.id == id && e.pos == pos && RecordOf(c, p, f, blob, Lowered(f.name), e)
  {
  }

  /** The record is the file's own, numbered, and its bytes stand where it says. */
  ghost predicate Described(c: Codec, p: Profile, f: File, i: nat, data: bytes, e: Entry, blob: bytes, low: bytes) {
    && e.id == i && RecordOf(c, p, f, blob, low, e)
    && e.pos + |blob| <= |data| && data[e.pos..e.pos + |blob|] == blob
  }

  lemma PlacedIsDescribed(c: Codec, p: Profile, t: Option<Key>, f: File, pack: Pack, i: nat)
    requires i < |pack.entries| && Placed(c, p, t, f, pack, i)
    ensures Blob(c, p, t, f).Some?
    ensures Described(c, p, f, i, pack.data, pack.entries[i], Blob(c, p, t, f).value, Lowered(f.name))
  {
    var blob, e := Blob(c, p, t, f).value, pack.entries[i];
    EntryFields(c, p, f, i, blob, e.pos);
    SlotHoldsBlob(pack.data, e.pos, SlotSize(p, |blob|), blob);
  }

  /** What stands in the record of each file, and its bytes where the record says. */
  lemma EntryOutcome(c: Codec, p: Profile, t: Option<Key>, files: seq<File>, i: nat) returns (blob: bytes, low: bytes)
    requires AddFiles(c, p, t, files).Some? && i < |files|
    ensures var pack := AddFiles(c, p, t, files).value;
      && |pack.entries| == |files| && Blob(c, p, t, files[i]) == Some(blob)
      && Described(c, p, files[i], i, pack.data, pack.entries[i], blob, low)
  {
    SlotsTile(c, p, t, files);
    PlacedIsDescribed(c, p, t, files[i], AddFiles(c, p, t, files).value, i);
    blob, low := Blob(c, p, t, files[i]).value, Lowered(files[i].name);
  }

  lemma SlotHoldsBlob(data: bytes, pos: nat, slot: nat, blob: bytes)
    requires pos + slot <= |data| && |blob| <= slot && data[pos..pos + slot] == blob + Zeros(slot - |blob|)
    ensures data[pos..pos + |blob|] == blob
  {
    assert data[pos..pos + |blob|] == data[pos..pos + slot][..|blob|];
  }

  /** What goes into a slot: the bytes themselves, or an object under the archive's
      first key or under the data key, the last with four zero bytes behind it in
      the second layout. Other types are refused. */
  lemma BlobOutcome(c: Codec, p: Profile, t: Option<Key>, f: File)
    ensures var r := Blob(c, p, t, f);
      && (f.kind == 0 ==> r == Some(f.data))
      && (f.kind == 1 ==> r == c.pack(f.data, t, p.layout))
      && (f.kind == 2 ==>
            (r.Some? <==> c.pack(f.data, Some(p.dataKey), p.layout).Some?) &&
            (r.Some? ==> r.value == c.pack(f.data, Some(p.dataKey), p.layout).value
                                    + if p.layout == Stock then [] else [0, 0, 0, 0]))
      && (f.kind > 2 ==> r.None?)
  {
    assert Zeros(4) == [0, 0, 0, 0];
    assert forall b: bytes :: b + [] == b;
  }

  // ----- reading a slot ---------------------------------------------------

  /** A raw file is its slice; an object opens with its type's key, where the first
      object of type 1 tries no key, the index key and the data key in turn and the
      one that fits is kept; other types are refused. */
  lemma ReadOutcome(c: Codec, p: Profile, t: Option<Key>, epk: bytes, e: Entry)
    ensures var (r, t') := FileOf(c, p, t, epk, e);
      var blob := Slice(epk, e.pos, e.pos + e.disk);
      && (e.kind == 0 ==> r == Some(blob) && t' == t)
      && (e.kind == 2 ==> r == c.unpack(blob, Some(p.dataKey)) && t' == t)
      && (e.kind > 2 ==> r == None && t' == t)
      && (e.kind == 1 && t.Some? ==> r == c.unpack(blob, t) && t' == t)
      && (e.kind == 1 && t.None? ==>
            if c.unpack(blob, None).Some? then r == c.unpack(blob, None) && t' == None
            else if c.unpack(blob, Some(p.indexKey)).Some? then
              r == c.unpack(blob, Some(p.indexKey)) && t' == Some(p.indexKey)
            else if c.unpack(blob, Some(p.dataKey)).Some? then
              r == c.unpack(blob, Some(p.dataKey)) && t' == Some(p.dataKey)
            else r == None && t' == None)
  {
    FirstOfThree(c, Slice(epk, e.pos, e.pos + e.disk), None, Some(p.indexKey), Some(p.dataKey));
  }

  lemma FirstOfThree(c: Codec, blob: bytes, x: Option<Key>, y: Option<Key>, z: Option<Key>)
    ensures FirstKey(c, blob, [x, y, z]) ==
      if c.unpack(blob, x).Some? then Some((c.unpack(blob, x).value, x))
      else if c.unpack(blob, y).Some? then Some((c.unpack(blob, y).value, y))
      else if c.unpack(blob, z).Some? then Some((c.unpack(blob, z).value, z))
      else None
  {
    assert [x, y, z][1..] == [y, z] && [y, z][1..] == [z] && [z][1..] == [];
    assert FirstKey(c, blob, []) == None;
    assert FirstKey(c, blob, [z]) == match c.unpack(blob, z)
      case Some(data) => Some((data, z))
      case None => None;
  }
}
