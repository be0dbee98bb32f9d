/** What the archive writer promises its readers. */
module EterPackTheorems {
  import opened Common
  import opened Bits
  import opened Xtea
  import opened EterPack

  ghost predicate Packs(c: Codec, p: Profile, t: Option<Key>, files: seq<File>, pack: Pack) {
    && |pack.entries| == |files|
    && |pack.data| % Align(p) == 0
    && (if files == [] then pack.data == [] else SlotEnd(p, pack.entries[|files| - 1]) == |pack.data|)
    && forall i | 0 <= i < |files| :: Placed(c, p, t, files[i], pack, i)
  }

  /** File `i` lies in its own slot: aligned, padded with zero bytes, and
      starting where the one before it ends. */
  ghost predicate Placed(c: Codec, p: Profile, t: Option<Key>, f: File, pack: Pack, i: nat)
    requires i < |pack.entries|
  {
    var blob := Blob(c, p, t, f);
    && blob.Some?
    && var e := pack.entries[i]; var slot := SlotSize(p, |blob.value|);
       && e == EntryOf(c, p, f, i, blob.value, e.pos)
       && e.pos == (if i == 0 then 0 else SlotEnd(p, pack.entries[i - 1]))
       && SlotEnd(p, e) == e.pos + slot <= |pack.data|
       && e.pos % Align(p) == 0
       && pack.data[e.pos..e.pos + slot] == blob.value + Zeros(slot - |blob.value|)
  }

  function SlotEnd(p: Profile, e: Entry): nat {
    e.pos + if p.layout == PackMakerLite then e.disk else e.realSize
  }

  lemma AlignedSum(a: nat, b: nat, n: nat)
    requires n == 128 || n == 256
    requires a % n == 0 && b % n == 0
    ensures (a + b) % n == 0
  {
    if n == 128 {
      assert a + b == 128 * (a / 128 + b / 128);
    } else {
      assert a + b == 256 * (a / 256 + b / 256);
    }
  }

  lemma StaysPlaced(c: Codec, p: Profile, t: Option<Key>, f: File, pack: Pack, pack': Pack, i: nat)
    requires i < |pack.entries| && Placed(c, p, t, f, pack, i)
    requires pack.entries <= pack'.entries && pack.data <= pack'.data
    ensures Placed(c, p, t, f, pack', i)
  {
    var e := pack.entries[i];
    assert pack'.entries[i] == e && (i > 0 ==> pack'.entries[i - 1] == pack.entries[i - 1]);
    assert forall j | e.pos <= j < SlotEnd(p, e) :: pack'.data[j] == pack.data[j];
    assert pack'.data[e.pos..SlotEnd(p, e)] == pack.data[e.pos..SlotEnd(p, e)];
  }

  lemma NewIsPlaced(c: Codec, p: Profile, t: Option<Key>, files: seq<File>, pack: Pack, f: File)
    requires Packs(c, p, t, files, pack) && AddFile(c, p, t, pack, f).Some?
    ensures var pack' := AddFile(c, p, t, pack, f).value;
      Placed(c, p, t, f, pack', |files|) && SlotEnd(p, pack'.entries[|files|]) == |pack'.data|
  {
    var blob := Blob(c, p, t, f).value;
    Extended(pack.data, blob, SlotSize(p, |blob|));
  }

  lemma AddFilePacks(c: Codec, p: Profile, t: Option<Key>, files: seq<File>, pack: Pack, f: File)
    requires Packs(c, p, t, files, pack) && AddFile(c, p, t, pack, f).Some?
    ensures Packs(c, p, t, files + [f], AddFile(c, p, t, pack, f).value)
  {
    var pack' := AddFile(c, p, t, pack, f).value;
    NewIsPlaced(c, p, t, files, pack, f);
    AlignedSum(|pack.data|, |pack'.data| - |pack.data|, Align(p));
    forall i | 0 <= i < |files| ensures Placed(c, p, t, files[i], pack', i) {
      StaysPlaced(c, p, t, files[i], pack, pack', i);
    }
  }

  lemma Extended(data: bytes, blob: bytes, slot: nat)
    requires |blob| <= slot
    ensures var d := data + blob + Zeros(slot - |blob|);
      && |d| == |data| + slot
      && d[|data|..|data| + slot] == blob + Zeros(slot - |blob|)
      && forall a, b | 0 <= a <= b <= |data| :: d[a..b] == data[a..b]
  {
  }

  lemma LastFilePacks(c: Codec, p: Profile, t: Option<Key>, files: seq<File>, pack: Pack, pack': Pack)
    requires files != [] && Packs(c, p, t, files[..|files| - 1], pack)
    requires AddFile(c, p, t, pack, files[|files| - 1]) == Some(pack')
    ensures Packs(c, p, t, files, pack')
  {
    AddFilePacks(c, p, t, files[..|files| - 1], pack, files[|files| - 1]);
    assert files == files[..|files| - 1] + [files[|files| - 1]];
  }

  /** Slots are aligned, disjoint and contiguous, and tile the data file. */
  lemma {:induction false} SlotsTile(c: Codec, p: Profile, t: Option<Key>, files: seq<File>)
    requires AddFiles(c, p, t, files).Some?
    ensures Packs(c, p, t, files, AddFiles(c, p, t, files).value)
  {
    if files != [] {
      var before, after := AddFiles(c, p, t, files[..|files| - 1]), AddFiles(c, p, t, files);
      assert before.Some? && AddFile(c, p, t, before.value, files[|files| - 1]) == after;
      SlotsTile(c, p, t, files[..|files| - 1]);
      LastFilePacks(c, p, t, files, before.value, after.value);
    }
  }

  // ----- the index comes back ---------------------------------------------

  /** What is left of an entry's name after the record. */
  function Renamed(e: Entry): Entry {
    e.(name := UpToNul(NameField(e.name)))
  }

  ghost predicate Recorded(pack: Pack) {
    && |pack.records| == |pack.entries|
    && (forall i | 0 <= i < |pack.records| :: |pack.records[i]| == ENTRY)
    && forall i | 0 <= i < |pack.records| :: UnpackEntry(pack.records[i]) == Renamed(pack.entries[i])
  }

  lemma AddFileRecords(c: Codec, p: Profile, t: Option<Key>, pack: Pack, f: File)
    requires Recorded(pack) && AddFile(c, p, t, pack, f).Some?
    ensures Recorded(AddFile(c, p, t, pack, f).value)
  {
    var e := EntryOf(c, p, f, |pack.entries|, Blob(c, p, t, f).value, |pack.data|);
    EntryRoundTrip(e);
  }

  lemma {:induction false} RecordsAreEntries(c: Codec, p: Profile, t: Option<Key>, files: seq<File>)
    requires AddFiles(c, p, t, files).Some?
    ensures Recorded(AddFiles(c, p, t, files).value) && |AddFiles(c, p, t, files).value.entries| == |files|
  {
    if files != [] {
      var k := |files| - 1;
      RecordsAreEntries(c, p, t, files[..k]);
      AddFileRecords(c, p, t, AddFiles(c, p, t, files[..k]).value, files[k]);
    }
  }

  lemma {:induction false} JoinedAt(parts: seq<bytes>, i: nat)
    requires i < |parts| && forall k | 0 <= k < |parts| :: |parts[k]| == ENTRY
    ensures |Join(parts)| == |parts| * ENTRY && Join(parts)[i * ENTRY..i * ENTRY + ENTRY] == parts[i]
  {
    var n := |parts| - 1;
    if n == 0 {
      assert Join(parts[..0]) == [];
    } else {
      JoinedAt(parts[..n], if i < n then i else 0);
    }
  }

  lemma {:induction false} RecordsComeBack(head: bytes, records: seq<bytes>, n: nat)
    requires |head| == 12 && n <= |records| && forall k | 0 <= k < |records| :: |records[k]| == ENTRY
    ensures Records(head + Join(records), n) == Some(records[..n])
  {
    if n > 0 {
      RecordsComeBack(head, records, n - 1);
      JoinedAt(records, n - 1);
      var off := 12 + (n - 1) * ENTRY;
      assert (head + Join(records))[off..off + ENTRY] == records[n - 1];
      assert records[..n] == records[..n - 1] + [records[n - 1]];
    }
  }

  lemma HeadParts(version: nat, count: nat, rest: bytes)
    requires version < U32 && count < U32
    ensures var b := FOURCC_INDEX + WordBytes(version) + WordBytes(count) + rest;
      |b| >= 12 && b[..4] == FOURCC_INDEX && Word(b[4..8]) == version && Word(b[8..12]) == count
  {
    var b := FOURCC_INDEX + WordBytes(version) + WordBytes(count) + rest;
    assert b[4..8] == WordBytes(version) && b[8..12] == WordBytes(count);
  }

  lemma IndexComesBack(c: Codec, p: Profile, t: Option<Key>, version: nat, files: seq<File>)
    requires Faithful(c) && Written(c, p, t, version, files).Some?
    ensures var pack := AddFiles(c, p, t, files).value;
      && Recorded(pack)
      && IndexOf(c, p, Written(c, p, t, version, files).value.index) == Some(Index(version, Entries(pack.records)))
  {
    RecordsAreEntries(c, p, t, files);
    var pack := AddFiles(c, p, t, files).value;
    HeadParts(version, |files|, Join(pack.records));
    var plain := FOURCC_INDEX + WordBytes(version) + WordBytes(|files|) + Join(pack.records);
    var packed := c.pack(plain, Some(p.indexKey), p.layout).value;
    assert packed + [] == packed;
    RecordsComeBack(FOURCC_INDEX + WordBytes(version) + WordBytes(|files|), pack.records, |files|);
    assert pack.records[..|files|] == pack.records;
  }

  // ----- the files come back ----------------------------------------------

  /** What reading file `f` back yields: a raw file of the padded layout comes
      back with its slot's filler. */
  function ComesBackAs(p: Profile, f: File): bytes {
    if f.kind == 0 && p.layout == PackMakerLite then f.data + Zeros(SlotSize(p, |f.data|) - |f.data|)
    else f.data
  }

  lemma BlobOpens(c: Codec, p: Profile, t: Option<Key>, f: File, after: bytes)
    requires Faithful(c) && Blob(c, p, t, f).Some? && f.kind != 0
    ensures var key := if f.kind == 1 then t else Some(p.dataKey);
      c.unpack(Blob(c, p, t, f).value + after, key) == Some(f.data)
  {
    if f.kind == 2 && p.layout == PackMakerLite {
      var b := c.pack(f.data, Some(p.dataKey), p.layout).value;
      assert b + Zeros(4) + after == b + (Zeros(4) + after);
    }
  }

  lemma SliceOfSlot(b: bytes, i: nat, n: nat, m: nat)
    requires i + n <= |b| && m <= n
    ensures Slice(b, i, i + m) == b[i..i + n][..m]
  {
  }

  lemma FileComesBack(c: Codec, p: Profile, t: Option<Key>, f: File, pack: Pack, i: nat)
    requires Faithful(c) && i < |pack.entries| && Placed(c, p, t, f, pack, i)
    ensures FileOf(c, p, t, pack.data, pack.entries[i]) == (Some(ComesBackAs(p, f)), t)
  {
    var blob := Blob(c, p, t, f).value;
    var e := pack.entries[i];
    var slot := SlotSize(p, |blob|);
    var got := Slice(pack.data, e.pos, e.pos + e.disk);
    SliceOfSlot(pack.data, e.pos, slot, e.disk);
    var after := if p.layout == PackMakerLite then Zeros(slot - |blob|) else [];
    assert got == blob + after;
    if f.kind != 0 {
      BlobOpens(c, p, t, f, after);
    } else {
      assert blob + [] == blob;
    }
  }

  ghost predicate ReadsBack(c: Codec, p: Profile, t: Option<Key>, data: bytes, e: Entry, f: File) {
    && e.kind == f.kind
    && (e.name == f.name <==> |f.name| <= NAME_BYTES && 0 !in f.name)
    && FileOf(c, p, t, data, e) == (Some(ComesBackAs(p, f)), t)
  }

  lemma EntryReadsBack(c: Codec, p: Profile, t: Option<Key>, f: File, pack: Pack, i: nat)
    requires Faithful(c) && i < |pack.entries| && Placed(c, p, t, f, pack, i)
    ensures ReadsBack(c, p, t, pack.data, Renamed(pack.entries[i]), f)
  {
    FileComesBack(c, p, t, f, pack, i);
    NameSurvives(f.name);
  }

  /** For every list of files that can be written at all: the index returns the
      version and, in order, the types and the names, and every file reads back
      as its bytes. Names come back unchanged exactly when they fit the field
      and hold no zero byte; in the padded layout a raw file carries its filler. */
  lemma ArchiveRoundTrip(c: Codec, p: Profile, t: Option<Key>, version: nat, files: seq<File>)
    requires Faithful(c) && Written(c, p, t, version, files).Some?
    ensures var a := Written(c, p, t, version, files).value; var index := IndexOf(c, p, a.index);
      && index.Some? && index.value.version == version && |index.value.entries| == |files|
      && forall i | 0 <= i < |files| :: ReadsBack(c, p, t, a.data, index.value.entries[i], files[i])
  {
    SlotsTile(c, p, t, files);
    IndexComesBack(c, p, t, version, files);
    var pack := AddFiles(c, p, t, files).value;
    forall i | 0 <= i < |files| ensures ReadsBack(c, p, t, pack.data, Entries(pack.records)[i], files[i]) {
      assert Placed(c, p, t, files[i], pack, i);
      EntryReadsBack(c, p, t, files[i], pack, i);
      assert Entries(pack.records)[i] == UnpackEntry(pack.records[i]) == Renamed(pack.entries[i]);
    }
  }

  /** The filler is absent exactly when the raw file fills its slot. */
  lemma RawFilePadding(p: Profile, f: File)
    ensures ComesBackAs(p, f) == f.data <==> f.kind != 0 || p.layout == Stock || |f.data| % 256 == 0
  {
    if f.kind == 0 && p.layout == PackMakerLite {
      var slot := SlotSize(p, |f.data|);
      assert |ComesBackAs(p, f)| == slot;
      if slot == |f.data| {
        assert f.data + Zeros(0) == f.data;
      }
    }
  }

  /** The shortest file that shows it: one byte comes back as a whole slot. */
  lemma OneByteComesBackLonger(p: Profile, name: bytes, b: byte)
    requires p.layout == PackMakerLite
    ensures ComesBackAs(p, File(name, [b], 0)) == [b] + Zeros(255)
  {
  }

  // ----- which lists can be written ---------------------------------------

  /** How many bytes are ciphered of a fourcc and stream `n` bytes long. */
  function CipherSize(n: nat, layout: Layout): nat {
    ((if layout == PackMakerLite then n + 15 else n) + 7) / 8 * 8
  }

  /** The three numbers of an object's header are below 2^32. */
  predicate ObjectFits(z: Lzo, data: bytes, key: Option<Key>, layout: Layout) {
    var comp := |z.compress(data)|;
    |data| < U32 && comp < U32 && (key.Some? ==> CipherSize(4 + comp, layout) < U32)
  }

  function ObjectSize(z: Lzo, data: bytes, key: Option<Key>, layout: Layout): nat {
    var comp := |z.compress(data)|;
    16 + if key.Some? then CipherSize(4 + comp, layout) else 4 + comp
  }

  lemma BodySize(comp: bytes, key: Option<Key>, layout: Layout)
    ensures |Body(comp, key, layout)| == if key.Some? then CipherSize(4 + |comp|, layout) else 4 + |comp|
  {
  }

  lemma PacksWhenItFits(z: Lzo, data: bytes, key: Option<Key>, layout: Layout)
    ensures var r := LzoPack(z, data, key, layout);
      && (r.Some? <==> ObjectFits(z, data, key, layout))
      && (r.Some? ==> |r.value| == ObjectSize(z, data, key, layout))
  {
    BodySize(z.compress(data), key, layout);
  }

  /** The key a type calls for. */
  function KeyOf(p: Profile, t: Option<Key>, kind: nat): Option<Key> {
    if kind == 1 then t else Some(p.dataKey)
  }

  /** What a file takes of the data file, without its filler. */
  function DiskSize(z: Lzo, p: Profile, t: Option<Key>, f: File): nat {
    if f.kind == 0 then |f.data|
    else
      ObjectSize(z, f.data, KeyOf(p, t, f.kind), p.layout)
      + if f.kind == 2 && p.layout == PackMakerLite then 4 else 0
  }

  /** Where file `i` starts. */
  function SlotStart(z: Lzo, p: Profile, t: Option<Key>, files: seq<File>, i: nat): nat
    requires i <= |files|
  {
    if i == 0 then 0
    else SlotStart(z, p, t, files, i - 1) + SlotSize(p, DiskSize(z, p, t, files[i - 1]))
  }

  predicate FileFits(z: Lzo, p: Profile, t: Option<Key>, f: File) {
    && f.kind <= 2 && (f.kind != 0 ==> ObjectFits(z, f.data, KeyOf(p, t, f.kind), p.layout))
    && SlotSize(p, DiskSize(z, p, t, f)) < U32
  }

  predicate FitsAt(z: Lzo, p: Profile, t: Option<Key>, files: seq<File>, i: nat)
    requires i < |files|
  {
    i < U32 && FileFits(z, p, t, files[i]) && SlotStart(z, p, t, files, i) < U32
  }

  predicate FilesFit(z: Lzo, p: Profile, t: Option<Key>, files: seq<File>) {
    forall i | 0 <= i < |files| :: FitsAt(z, p, t, files, i)
  }

  lemma BlobWhenItFits(z: Lzo, crc32: bytes -> nat, p: Profile, t: Option<Key>, f: File)
    ensures var r := Blob(LzoCodec(z, crc32), p, t, f);
      && (r.Some? <==> f.kind <= 2 && (f.kind != 0 ==> ObjectFits(z, f.data, KeyOf(p, t, f.kind), p.layout)))
      && (r.Some? ==> |r.value| == DiskSize(z, p, t, f))
  {
    if f.kind == 1 || f.kind == 2 {
      PacksWhenItFits(z, f.data, KeyOf(p, t, f.kind), p.layout);
    }
  }

  lemma AddedWhenItFits(z: Lzo, crc32: bytes -> nat, p: Profile, t: Option<Key>, pack: Pack, f: File)
    ensures var r := AddFile(LzoCodec(z, crc32), p, t, pack, f);
      && (r.Some? <==> |pack.entries| < U32 && FileFits(z, p, t, f) && |pack.data| < U32)
      && (r.Some? ==> |r.value.entries| == |pack.entries| + 1
                      && |r.value.data| == |pack.data| + SlotSize(p, DiskSize(z, p, t, f)))
  {
    BlobWhenItFits(z, crc32, p, t, f);
  }

  lemma {:induction false} StartsAgree(z: Lzo, p: Profile, t: Option<Key>, files: seq<File>, k: nat, i: nat)
    requires i <= k <= |files|
    ensures SlotStart(z, p, t, files[..k], i) == SlotStart(z, p, t, files, i)
  {
    if i > 0 {
      StartsAgree(z, p, t, files, k, i - 1);
    }
  }

  lemma OneMoreFits(z: Lzo, p: Profile, t: Option<Key>, files: seq<File>, k: nat)
    requires |files| == k + 1
    ensures FilesFit(z, p, t, files) <==> FilesFit(z, p, t, files[..k]) && FitsAt(z, p, t, files, k)
  {
    forall i | 0 <= i < k ensures FitsAt(z, p, t, files[..k], i) <==> FitsAt(z, p, t, files, i) {
      StartsAgree(z, p, t, files, k, i);
    }
    if FilesFit(z, p, t, files) {
      assert forall i | 0 <= i < k :: FitsAt(z, p, t, files, i);
    }
  }

  /** What the files take, and whether they can be added, is known beforehand. */
  ghost predicate AddsAsComputed(z: Lzo, crc32: bytes -> nat, p: Profile, t: Option<Key>, files: seq<File>) {
    var r := AddFiles(LzoCodec(z, crc32), p, t, files);
    && (r.Some? <==> FilesFit(z, p, t, files))
    && (r.Some? ==> |r.value.entries| == |files| && |r.value.data| == SlotStart(z, p, t, files, |files|))
  }

  lemma LastAdded(c: Codec, p: Profile, t: Option<Key>, files: seq<File>, k: nat)
    requires |files| == k + 1
    ensures AddFiles(c, p, t, files)
         == match AddFiles(c, p, t, files[..k])
            case None => None
            case Some(pack) => AddFile(c, p, t, pack, files[k])
  {
  }

  lemma LastAddsAsComputed(z: Lzo, crc32: bytes -> nat, p: Profile, t: Option<Key>, files: seq<File>, k: nat)
    requires |files| == k + 1 && AddsAsComputed(z, crc32, p, t, files[..k])
    ensures AddsAsComputed(z, crc32, p, t, files)
  {
    LastAdded(LzoCodec(z, crc32), p, t, files, k);
    OneMoreFits(z, p, t, files, k);
    StartsAgree(z, p, t, files, k, k);
    var before := AddFiles(LzoCodec(z, crc32), p, t, files[..k]);
    if before.Some? {
      AddedWhenItFits(z, crc32, p, t, before.value, files[k]);
    }
  }

  lemma {:induction false} AllAddedWhenTheyFit(
    z: Lzo, crc32: bytes -> nat, p: Profile, t: Option<Key>, files: seq<File>)
    ensures AddsAsComputed(z, crc32, p, t, files)
  {
    if files != [] {
      AllAddedWhenTheyFit(z, crc32, p, t, files[..|files| - 1]);
      LastAddsAsComputed(z, crc32, p, t, files, |files| - 1);
    }
  }

  /** An archive can be written exactly when every type is known and every number
      that goes into a 32-bit field fits one: the version, the count, where each
      file starts, its slot, and the sizes in the header of every object, the
      index included. */
  lemma WrittenWhenItFits(
    z: Lzo, crc32: bytes -> nat, p: Profile, t: Option<Key>, version: nat, files: seq<File>)
    ensures var c := LzoCodec(z, crc32);
      Written(c, p, t, version, files).Some? <==>
        && FilesFit(z, p, t, files) && version < U32 && |files| < U32
        && AddFiles(c, p, t, files).Some?
        && var text := IndexText(version, |files|, AddFiles(c, p, t, files).value.records);
           ObjectFits(z, text, Some(p.indexKey), p.layout)
  {
    AllAddedWhenTheyFit(z, crc32, p, t, files);
    if FilesFit(z, p, t, files) && version < U32 && |files| < U32 {
      var pack := AddFiles(LzoCodec(z, crc32), p, t, files).value;
      PacksWhenItFits(z, IndexText(version, |files|, pack.records), Some(p.indexKey), p.layout);
    }
  }

  /** And so for every compressor that undoes itself. */
  lemma LzoArchiveRoundTrip(z: Lzo, crc32: bytes -> nat, p: Profile, t: Option<Key>, version: nat, files: seq<File>)
    requires Lawful(z) && Written(LzoCodec(z, crc32), p, t, version, files).Some?
    ensures var c := LzoCodec(z, crc32);
      var a := Written(c, p, t, version, files).value; var index := IndexOf(c, p, a.index);
      && index.Some? && index.value.version == version && |index.value.entries| == |files|
      && forall i | 0 <= i < |files| :: ReadsBack(c, p, t, a.data, index.value.entries[i], files[i])
  {
    LzoIsFaithful(z, crc32);
    ArchiveRoundTrip(LzoCodec(z, crc32), p, t, version, files);
  }
}
