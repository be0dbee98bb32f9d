/** The live weights file: what the panel reads out of it and writes into it.
    The file is modelled as its lines; `None` is a file that cannot be read. */
module Weights {
  import opened Common
  import opened Decimals

  /** How a setting is read, bounded and written. */
  datatype Kind = Weight | Switch | Percentage | Permille | RefineFloor

  /** The settings the panel knows, in the order it writes them, what stands for
      each before the file says anything, and Python's `upper`, `lower`, `int` and
      the characters its `\d` matches. */
  datatype Schema = Schema(
    keys: seq<string>, kind: string -> Kind, initial: string -> Option<int>,
    upper: string -> string, lower: string -> string, parse: string -> Option<int>, digit: char -> bool)

  type Values = map<string, Option<int>>

  // ----- lines ------------------------------------------------------------

  function BeforeHash(line: string): string {
    if line == [] || line[0] == '#' then [] else [line[0]] + BeforeHash(line[1..])
  }

  /** The words of a text: `word` is the one being collected. */
  function Words(text: string, word: string): seq<string> {
    if text == [] then if word == [] then [] else [word]
    else if Blank(text[0]) then (if word == [] then [] else [word]) + Words(text[1..], [])
    else Words(text[1..], word + [text[0]])
  }

  function Fields(line: string): seq<string> {
    Words(BeforeHash(line), [])
  }

  /** What a printed field is made of. */
  predicate Solid(word: string) {
    word != [] && forall c | c in word :: c != '#' && !Blank(c)
  }

  lemma {:induction false} WordsOfSolid(a: string, rest: string, word: string)
    requires forall c | c in a :: !Blank(c)
    ensures Words(a + rest, word) == Words(rest, word + a)
  {
    if a == [] {
      assert a + rest == rest && word + a == word;
    } else {
      assert (a + rest)[1..] == a[1..] + rest;
      WordsOfSolid(a[1..], rest, word + [a[0]]);
      assert word + [a[0]] + a[1..] == word + a;
    }
  }

  lemma {:induction false} NoHash(s: string)
    requires forall c | c in s :: c != '#'
    ensures BeforeHash(s) == s
  {
    if s != [] {
      assert forall c | c in s[1..] :: c in s;
      NoHash(s[1..]);
      assert s[0] in s && [s[0]] + s[1..] == s;
    }
  }

  function Line(key: string, value: string): string {
    key + "\t" + value
  }

  /** A printed line reads back as its two fields. */
  lemma LineFields(key: string, value: string)
    requires Solid(key) && Solid(value)
    ensures Fields(Line(key, value)) == [key, value]
  {
    var line := Line(key, value);
    NoHash(line);
    assert line == key + ("\t" + value);
    WordsOfSolid(key, "\t" + value, []);
    assert ("\t" + value)[1..] == value;
    assert [] + key == key;
    assert value + [] == value;
    WordsOfSolid(value, [], []);
    assert [] + value == value;
  }

  // ----- reading ----------------------------------------------------------

  function Clamp(value: Option<int>, low: int, high: int, default: int): int {
    match value
    case Some(v) => Max(low, Min(high, v))
    case None => default
  }

  function OrZero(v: Option<int>): int {
    if v.Some? then v.value else 0
  }

  /** What a known key's word means, given what stood for it before. */
  function Meaning(m: Schema, key: string, raw: string, before: Option<int>): int {
    match m.kind(key)
    case Switch => if m.lower(raw) in ["0", "off", "no"] then 0 else 1
    case Percentage => Clamp(m.parse(raw), 0, 100, OrZero(before))
    case Permille => Clamp(m.parse(raw), 0, 1000, OrZero(before))
    case RefineFloor => Clamp(m.parse(raw), 0, 9, OrZero(before))
    case Weight => Clamp(m.parse(raw), 25, 250, 100)
  }

  function ReadLine(m: Schema, values: Values, line: string): Values {
    var fields := Fields(line);
    if |fields| < 2 then values
    else
      var key := m.upper(fields[0]);
      if key in values then values[key := Some(Meaning(m, key, fields[1], values[key]))] else values
  }

  function Initial(m: Schema): Values {
    map k | k in m.keys :: m.initial(k)
  }

  function ReadLines(m: Schema, lines: seq<string>): Values {
    if lines == [] then Initial(m)
    else ReadLine(m, ReadLines(m, lines[..|lines| - 1]), lines[|lines| - 1])
  }

  predicate KeyShape(key: string) {
    1 <= |key| <= 64 && 'A' <= key[0] <= 'Z'
    && forall c | c in key :: 'A' <= c <= 'Z' || IsDigit(c) || c == '_'
  }

  predicate NumberShape(m: Schema, value: string) {
    var digits := if value != [] && value[0] == '-' then value[1..] else value;
    1 <= |digits| <= 10 && forall c | c in digits :: m.digit(c)
  }

  /** A line for a key this panel does not know, kept as a newer core wrote it. */
  function PreservedLine(m: Schema, line: string): Option<string> {
    var fields := Fields(line);
    if |fields| == 2 && m.upper(fields[0]) !in m.keys && KeyShape(m.upper(fields[0])) && NumberShape(m, fields[1])
    then Some(Line(m.upper(fields[0]), fields[1])) else None
  }

  function Preserved(m: Schema, lines: seq<string>): seq<string> {
    if lines == [] then []
    else
      var kept := Preserved(m, lines[..|lines| - 1]);
      match PreservedLine(m, lines[|lines| - 1])
      case None => kept
      case Some(line) => kept + [line]
  }

  // ----- writing ----------------------------------------------------------

  function Given(values: Values, key: string): Option<int> {
    if key in values then values[key] else None
  }

  /** What is written for a key; the last two kinds may go unwritten. */
  function Stored(m: Schema, values: Values, key: string): Option<nat> {
    var v := Given(values, key);
    match m.kind(key)
    case Weight => Some(Clamp(v, 25, 250, 100))
    case Switch => Some(if key !in values then 1 else if v.None? || v == Some(0) then 0 else 1)
    case Percentage => Some(Clamp(v, 0, 100, 0))
    case Permille => if v.None? then None else Some(Clamp(v, 0, 1000, 0))
    case RefineFloor => if v.None? then None else Some(Clamp(v, 0, 9, 0))
  }

  function Printed(m: Schema, values: Values, n: nat): seq<string>
    requires n <= |m.keys|
  {
    if n == 0 then []
    else
      var key := m.keys[n - 1];
      Printed(m, values, n - 1)
      + (match Stored(m, values, key) case None => [] case Some(v) => [Line(key, Decimal(v))])
  }

  function Header(text: seq<string>): seq<string> {
    seq(|text|, i requires 0 <= i < |text| => "#" + text[i]) + [""]
  }

  function Written(m: Schema, header: seq<string>, values: Values, was: seq<string>): seq<string> {
    Header(header) + Printed(m, values, |m.keys|) + Preserved(m, was)
  }

  /** The file, and the panel's three ways of touching it. */
  class WeightsFile {
    var lines: Option<seq<string>>

    ghost function Lines(): seq<string>
      reads this
    {
      if lines.Some? then lines.value else []
    }

    method Read(m: Schema) returns (values: Values)
      ensures values == ReadLines(m, Lines())
    {
      values := map k | k in m.keys :: m.initial(k);
      if lines.None? {
        return;
      }
      for i := 0 to |lines.value|
        invariant lines.Some? && values == ReadLines(m, lines.value[..i])
      {
        assert lines.value[..i + 1][..i] == lines.value[..i];
        var fields := Fields(lines.value[i]);
        if |fields| < 2 {
          continue;
        }
        var key, raw := m.upper(fields[0]), fields[1];
        if key !in values {
          continue;
        }
        values := values[key := Some(Meaning(m, key, raw, values[key]))];
      }
      assert lines.value[..|lines.value|] == lines.value;
    }

    method PreservedLines(m: Schema) returns (kept: seq<string>)
      ensures kept == Preserved(m, Lines())
    {
      kept := [];
      if lines.None? {
        return;
      }
      for i := 0 to |lines.value|
        invariant lines.Some? && kept == Preserved(m, lines.value[..i])
      {
        assert lines.value[..i + 1][..i] == lines.value[..i];
        var fields := Fields(lines.value[i]);
        if |fields| != 2 {
          continue;
        }
        var key, value := m.upper(fields[0]), fields[1];
        if key !in m.keys && KeyShape(key) && NumberShape(m, value) {
          kept := kept + [Line(key, value)];
        }
      }
      assert lines.value[..|lines.value|] == lines.value;
    }

    method Write(m: Schema, header: seq<string>, values: Values)
      modifies this
      ensures lines == Some(Written(m, header, values, old(Lines())))
    {
      var content := Header(header);
      for n := 0 to |m.keys|
        invariant content == Header(header) + Printed(m, values, n)
      {
        var stored := Stored(m, values, m.keys[n]);
        if stored.Some? {
          content := content + [Line(m.keys[n], Decimal(stored.value))];
        }
      }
      var kept := PreservedLines(m);
      lines := Some(content + kept);
    }
  }

  // ----- round trips ------------------------------------------------------

  ghost predicate Sound(m: Schema) {
    && (forall i, j | 0 <= i < j < |m.keys| :: m.keys[i] != m.keys[j])
    && (forall k | k in m.keys :: KeyShape(k))
    && (forall k | KeyShape(k) :: m.upper(k) == k)
    && (forall n: nat :: m.parse(Decimal(n)) == Some(n) && m.lower(Decimal(n)) == Decimal(n))
    && (forall c | m.digit(c) :: c != '#' && !Blank(c))
    && (forall k | k in m.keys && (m.kind(k).Permille? || m.kind(k).RefineFloor?) :: m.initial(k) == None)
  }

  lemma ShapesAreSolid(m: Schema, s: string)
    requires Sound(m)
    ensures KeyShape(s) || NumberShape(m, s) ==> Solid(s)
  {
    if NumberShape(m, s) {
      forall c | c in s ensures m.digit(c) || c == '-' {
        if s[0] == '-' {
          assert c == s[0] || c in s[1..];
        }
      }
    }
  }

  lemma NumberIsSolid(n: nat)
    ensures Solid(Decimal(n))
  {
  }

  lemma HeaderSaysNothing(header: seq<string>, line: string)
    requires line in Header(header)
    ensures Fields(line) == []
  {
    if line != "" {
      var i :| 0 <= i < |header| && line == "#" + header[i];
      assert line[0] == '#';
    }
  }

  /** A line no reading of known keys takes anything from. */
  ghost predicate Ignored(m: Schema, line: string) {
    forall values: Values | values.Keys <= Initial(m).Keys :: ReadLine(m, values, line) == values
  }

  lemma {:induction false} ReadSkips(m: Schema, a: seq<string>, b: seq<string>)
    requires forall line | line in b :: Ignored(m, line)
    ensures ReadLines(m, a + b) == ReadLines(m, a)
  {
    if b == [] {
      assert a + b == a;
    } else {
      var k := |b| - 1;
      ReadSkips(m, a, b[..k]);
      KeysStay(m, a + b[..k]);
      assert Ignored(m, b[k]);
      assert (a + b)[..|a + b| - 1] == a + b[..k];
    }
  }

  lemma {:induction false} KeysStay(m: Schema, lines: seq<string>)
    ensures ReadLines(m, lines).Keys == Initial(m).Keys
  {
    if lines != [] {
      KeysStay(m, lines[..|lines| - 1]);
    }
  }

  /** What a key stands for after its line was written, or left out. */
  function ReadBack(m: Schema, values: Values, key: string): Option<int> {
    match Stored(m, values, key)
    case Some(v) => Some(v)
    case None => m.initial(key)
  }

  lemma PrintedLineFields(m: Schema, key: string, v: nat)
    requires Sound(m) && key in m.keys
    ensures Fields(Line(key, Decimal(v))) == [key, Decimal(v)] && m.upper(key) == key
  {
    ShapesAreSolid(m, key);
    NumberIsSolid(v);
    LineFields(key, Decimal(v));
    assert KeyShape(key);
  }

  lemma PrintedMeans(m: Schema, values: Values, before: Option<int>, key: string)
    requires Sound(m) && Stored(m, values, key).Some?
    ensures Some(Meaning(m, key, Decimal(Stored(m, values, key).value), before)) == ReadBack(m, values, key)
  {
    var v := Stored(m, values, key).value;
    assert m.parse(Decimal(v)) == Some(v) && m.lower(Decimal(v)) == Decimal(v);
    if m.kind(key).Switch? {
      SwitchWords(v);
    }
  }

  lemma PrintedLineReads(m: Schema, values: Values, before: Values, key: string)
    requires Sound(m) && key in m.keys && key in before && Stored(m, values, key).Some?
    ensures ReadLine(m, before, Line(key, Decimal(Stored(m, values, key).value)))
         == before[key := ReadBack(m, values, key)]
  {
    PrintedLineFields(m, key, Stored(m, values, key).value);
    PrintedMeans(m, values, before[key], key);
  }

  lemma SwitchWords(v: nat)
    requires v <= 1
    ensures Decimal(v) in ["0", "off", "no"] <==> v == 0
  {
    assert Decimal(0) == "0" && Decimal(1) == "1";
  }

  /** What every key stands for after a write and a read. */
  function Expected(m: Schema, values: Values): string -> Option<int> {
    key => ReadBack(m, values, key)
  }

  /** The settings after the first `n` keys were written and read. */
  ghost predicate ReadSoFar(
    keys: seq<string>, initial: string -> Option<int>, expected: string -> Option<int>, r: Values, n: nat)
  {
    forall i | 0 <= i < |keys| ::
      keys[i] in r && r[keys[i]] == if i < n then expected(keys[i]) else initial(keys[i])
  }

  ghost predicate LinesReadSoFar(m: Schema, values: Values, lines: seq<string>, n: nat) {
    ReadSoFar(m.keys, m.initial, Expected(m, values), ReadLines(m, lines), n)
  }

  lemma HeaderReads(m: Schema, header: seq<string>, values: Values)
    ensures LinesReadSoFar(m, values, Header(header) + Printed(m, values, 0), 0)
  {
    forall line | line in Header(header) ensures Ignored(m, line) {
      HeaderSaysNothing(header, line);
    }
    assert Header(header) + Printed(m, values, 0) == [] + Header(header);
    ReadSkips(m, [], Header(header));
  }

  lemma OneKeyRead(
    keys: seq<string>, initial: string -> Option<int>, expected: string -> Option<int>, r: Values, n: nat)
    requires forall i, j | 0 <= i < j < |keys| :: keys[i] != keys[j]
    requires n < |keys| && ReadSoFar(keys, initial, expected, r, n)
    ensures ReadSoFar(keys, initial, expected, r[keys[n] := expected(keys[n])], n + 1)
    ensures expected(keys[n]) == initial(keys[n]) ==> ReadSoFar(keys, initial, expected, r, n + 1)
  {
  }

  lemma OneLineRead(m: Schema, before: seq<string>, line: string)
    ensures ReadLines(m, before + [line]) == ReadLine(m, ReadLines(m, before), line)
  {
    assert (before + [line])[..|before|] == before;
  }

  lemma NextKeyReads(m: Schema, before: seq<string>, after: seq<string>, values: Values, n: nat)
    requires Sound(m) && n < |m.keys| && LinesReadSoFar(m, values, before, n)
    requires after == match Stored(m, values, m.keys[n])
                      case None => before
                      case Some(v) => before + [Line(m.keys[n], Decimal(v))]
    ensures LinesReadSoFar(m, values, after, n + 1)
  {
    var key, r := m.keys[n], ReadLines(m, before);
    OneKeyRead(m.keys, m.initial, Expected(m, values), r, n);
    match Stored(m, values, key)
    case None =>
    case Some(v) =>
      PrintedLineReads(m, values, r, key);
      OneLineRead(m, before, Line(key, Decimal(v)));
  }

  lemma PrintedGrows(m: Schema, header: seq<string>, values: Values, n: nat)
    requires n < |m.keys|
    ensures var before, key := Header(header) + Printed(m, values, n), m.keys[n];
      Header(header) + Printed(m, values, n + 1) ==
        match Stored(m, values, key)
        case None => before
        case Some(v) => before + [Line(key, Decimal(v))]
  {
  }

  ghost predicate KeysReadSoFar(m: Schema, header: seq<string>, values: Values, n: nat) {
    n <= |m.keys| && LinesReadSoFar(m, values, Header(header) + Printed(m, values, n), n)
  }

  lemma OneMoreKeyReads(m: Schema, header: seq<string>, values: Values, n: nat)
    requires Sound(m) && n < |m.keys| && KeysReadSoFar(m, header, values, n)
    ensures KeysReadSoFar(m, header, values, n + 1)
  {
    PrintedGrows(m, header, values, n);
    NextKeyReads(m, Header(header) + Printed(m, values, n), Header(header) + Printed(m, values, n + 1), values, n);
  }

  lemma PrintedReads(m: Schema, header: seq<string>, values: Values)
    requires Sound(m)
    ensures KeysReadSoFar(m, header, values, |m.keys|)
  {
    HeaderReads(m, header, values);
    var holds := (k: nat) => KeysReadSoFar(m, header, values, k);
    forall k: nat | k < |m.keys| ensures holds(k) ==> holds(k + 1) {
      if holds(k) {
        OneMoreKeyReads(m, header, values, k);
      }
    }
    StepByStep(holds, |m.keys|);
  }

  lemma {:induction false} PreservedShape(m: Schema, lines: seq<string>, line: string)
    requires Sound(m) && line in Preserved(m, lines)
    ensures |Fields(line)| == 2 && m.upper(Fields(line)[0]) !in m.keys && PreservedLine(m, line) == Some(line)
  {
    var k := |lines| - 1;
    if line in Preserved(m, lines[..k]) {
      PreservedShape(m, lines[..k], line);
    } else {
      var fields := Fields(lines[k]);
      ShapesAreSolid(m, m.upper(fields[0]));
      ShapesAreSolid(m, fields[1]);
      LineFields(m.upper(fields[0]), fields[1]);
    }
  }

  /** Reading a file just written gives each setting its value, forced into range;
      a setting left unwritten reads as before there was a file. */
  lemma WrittenReadsBack(m: Schema, header: seq<string>, values: Values, was: seq<string>, key: string)
    requires Sound(m) && key in m.keys
    ensures var r := ReadLines(m, Written(m, header, values, was));
      key in r && r[key] == ReadBack(m, values, key)
  {
    var printed := Header(header) + Printed(m, values, |m.keys|);
    PrintedReads(m, header, values);
    forall line | line in Preserved(m, was) ensures Ignored(m, line) {
      PreservedShape(m, was, line);
    }
    ReadSkips(m, printed, Preserved(m, was));
    var i :| 0 <= i < |m.keys| && m.keys[i] == key;
    assert ReadLines(m, printed)[m.keys[i]] == ReadBack(m, values, key);
  }

  lemma {:induction false} PreservedJoins(m: Schema, a: seq<string>, b: seq<string>)
    ensures Preserved(m, a + b) == Preserved(m, a) + Preserved(m, b)
  {
    if b == [] {
      assert a + b == a;
    } else {
      var k := |b| - 1;
      PreservedJoins(m, a, b[..k]);
      assert (a + b)[..|a + b| - 1] == a + b[..k];
    }
  }

  lemma {:induction false} NothingPreserved(m: Schema, lines: seq<string>)
    requires forall line | line in lines :: PreservedLine(m, line).None?
    ensures Preserved(m, lines) == []
  {
    if lines != [] {
      NothingPreserved(m, lines[..|lines| - 1]);
    }
  }

  lemma {:induction false} AllPreserved(m: Schema, lines: seq<string>)
    requires forall line | line in lines :: PreservedLine(m, line) == Some(line)
    ensures Preserved(m, lines) == lines
  {
    if lines != [] {
      AllPreserved(m, lines[..|lines| - 1]);
      assert lines == lines[..|lines| - 1] + [lines[|lines| - 1]];
    }
  }

  lemma KnownIsNotPreserved(m: Schema, key: string, v: nat)
    requires Sound(m) && key in m.keys
    ensures PreservedLine(m, Line(key, Decimal(v))).None?
  {
    PrintedLineFields(m, key, v);
  }

  lemma {:induction false} PrintedIsKnown(m: Schema, values: Values, n: nat, line: string)
    requires Sound(m) && n <= |m.keys| && line in Printed(m, values, n)
    ensures PreservedLine(m, line).None?
  {
    if line in Printed(m, values, n - 1) {
      PrintedIsKnown(m, values, n - 1, line);
    } else {
      KnownIsNotPreserved(m, m.keys[n - 1], Stored(m, values, m.keys[n - 1]).value);
    }
  }

  /** Lines for keys the panel does not know come through a write as they were, in
      order; so they do through any number of writes. */
  lemma UnknownKeysSurvive(m: Schema, header: seq<string>, values: Values, was: seq<string>)
    requires Sound(m)
    ensures Preserved(m, Written(m, header, values, was)) == Preserved(m, was)
  {
    var h, p, kept := Header(header), Printed(m, values, |m.keys|), Preserved(m, was);
    forall line | line in h ensures PreservedLine(m, line).None? {
      HeaderSaysNothing(header, line);
    }
    forall line | line in p ensures PreservedLine(m, line).None? {
      PrintedIsKnown(m, values, |m.keys|, line);
    }
    forall line | line in kept ensures PreservedLine(m, line) == Some(line) {
      PreservedShape(m, was, line);
    }
    NothingPreserved(m, h);
    NothingPreserved(m, p);
    AllPreserved(m, kept);
    PreservedJoins(m, h, p);
    PreservedJoins(m, h + p, kept);
  }

  datatype Save = Save(header: seq<string>, values: Values)

  function Saved(m: Schema, lines: seq<string>, saves: seq<Save>): seq<string> {
    if saves == [] then lines
    else
      var last := saves[|saves| - 1];
      Written(m, last.header, last.values, Saved(m, lines, saves[..|saves| - 1]))
  }

  lemma {:induction false} UnknownKeysSurviveAll(m: Schema, lines: seq<string>, saves: seq<Save>)
    requires Sound(m)
    ensures Preserved(m, Saved(m, lines, saves)) == Preserved(m, lines)
  {
    if saves != [] {
      var last, before := saves[|saves| - 1], Saved(m, lines, saves[..|saves| - 1]);
      UnknownKeysSurviveAll(m, lines, saves[..|saves| - 1]);
      UnknownKeysSurvive(m, last.header, last.values, before);
    }
  }

  // ----- the panel's own settings -----------------------------------------

  const WEIGHTS: seq<string> :=
    ["RESTOCK", "REFINE", "SKILL", "HORSE", "BIOLOG", "METIN", "PARTY", "HUNTING", "LEVEL", "FISHING", "TRADE"]

  const SPECIALS: seq<string> :=
    ["CHAT", "BOOKS", "NIGHT", "SCRAP", "REST", "PROFIT", "KINGDOMPVP", "CHEST", "CHEST_STONE", "SCRAPFLOOR"]

  function KindOf(key: string): Kind {
    if key == "CHAT" || key == "BOOKS" || key == "NIGHT" then Switch
    else if key == "SCRAP" || key == "REST" || key == "PROFIT" || key == "KINGDOMPVP" then Percentage
    else if key == "CHEST" || key == "CHEST_STONE" then Permille
    else if key == "SCRAPFLOOR" then RefineFloor
    else Weight
  }

  function InitialOf(key: string): Option<int> {
    match KindOf(key)
    case Weight => Some(100)
    case Switch => Some(1)
    case Percentage => Some(if key == "REST" then 100 else 0)
    case _ => None
  }

  lemma WeightsDiffer(i: nat, j: nat)
    requires i < j < |WEIGHTS|
    ensures WEIGHTS[i] != WEIGHTS[j]
  {
  }

  lemma SpecialsDiffer(i: nat, j: nat)
    requires i < j < |SPECIALS|
    ensures SPECIALS[i] != SPECIALS[j]
  {
  }

  lemma WeightsHaveShape(i: nat)
    requires i < |WEIGHTS|
    ensures KeyShape(WEIGHTS[i]) && KindOf(WEIGHTS[i]) == Weight
  {
  }

  lemma SpecialsHaveShape(i: nat)
    requires i < |SPECIALS|
    ensures KeyShape(SPECIALS[i]) && KindOf(SPECIALS[i]) != Weight
  {
  }

  /** Python's own string functions and its idea of a digit. */
  datatype Python = Python(
    upper: string -> string, lower: string -> string, parse: string -> Option<int>, digit: char -> bool)

  /** What is assumed of them; the digits of other scripts count as well. */
  ghost predicate PythonLike(py: Python) {
    && (forall k | KeyShape(k) :: py.upper(k) == k)
    && (forall n: nat :: py.parse(Decimal(n)) == Some(n) && py.lower(Decimal(n)) == Decimal(n))
    && (forall c | IsDigit(c) :: py.digit(c))
    && forall c | py.digit(c) :: c != '#' && !Blank(c)
  }

  function Panel(py: Python): Schema {
    Schema(WEIGHTS + SPECIALS, KindOf, InitialOf, py.upper, py.lower, py.parse, py.digit)
  }

  lemma PanelKey(i: nat)
    requires i < |WEIGHTS + SPECIALS|
    ensures var k := (WEIGHTS + SPECIALS)[i];
      KeyShape(k) && (KindOf(k) == Weight <==> i < |WEIGHTS|)
  {
    if i < |WEIGHTS| {
      WeightsHaveShape(i);
    } else {
      SpecialsHaveShape(i - |WEIGHTS|);
    }
  }

  /** So the round trips hold of the settings the panel has. */
  lemma PanelIsSound(py: Python)
    requires PythonLike(py)
    ensures Sound(Panel(py))
  {
    var keys := WEIGHTS + SPECIALS;
    forall i, j | 0 <= i < j < |keys| ensures keys[i] != keys[j] {
      PanelKey(i);
      PanelKey(j);
      if j < |WEIGHTS| {
        WeightsDiffer(i, j);
      } else if i >= |WEIGHTS| {
        SpecialsDiffer(i - |WEIGHTS|, j - |WEIGHTS|);
      }
    }
    forall k | k in keys ensures KeyShape(k) {
      var i :| 0 <= i < |keys| && keys[i] == k;
      PanelKey(i);
    }
  }
}
