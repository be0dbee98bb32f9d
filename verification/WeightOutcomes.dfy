/** The live weights file in numbers: what each kind of setting reads and writes. */
module WeightOutcomes {
  import opened Common
  import opened Decimals
  import opened Weights

  /** `r` is `v` forced into a range. */
  predicate Forced(v: int, low: int, high: int, r: int) {
    if v < low then r == low else if v > high then r == high else r == v
  }

  // ----- reading ----------------------------------------------------------

  /** Blanks separate the fields of a line; its first hash ends it. */
  lemma FieldsOutcome(word: string, blank: char, rest: string, before: string)
    requires Solid(word) && Blank(blank) && '#' !in before
    ensures Fields("") == [] && Fields(word) == [word]
    ensures Fields([blank] + rest) == Fields(rest)
    ensures Fields(word + ([blank] + rest)) == [word] + Fields(rest)
    ensures Fields(before + ("#" + rest)) == Fields(before)
  {
    NoHash(word);
    WordsOfSolid(word, [], []);
    assert word + [] == word && [] + word == word;
    assert blank != '#' && ([blank] + rest)[1..] == rest;
    CutAfter(word, [blank] + rest);
    WordsOfSolid(word, [blank] + BeforeHash(rest), []);
    assert ([blank] + BeforeHash(rest))[1..] == BeforeHash(rest);
    CutAfter(before, "#" + rest);
    assert before + [] == before;
    NoHash(before);
  }

  lemma {:induction false} CutAfter(a: string, rest: string)
    requires '#' !in a
    ensures BeforeHash(a + rest) == a + BeforeHash(rest)
  {
    if a == [] {
      assert a + rest == rest && a + BeforeHash(rest) == BeforeHash(rest);
    } else {
      assert (a + rest)[1..] == a[1..] + rest;
      CutAfter(a[1..], rest);
      assert [a[0]] + (a[1..] + BeforeHash(rest)) == a + BeforeHash(rest);
    }
  }

  /** What one line of a file says about a key, after the lines before it. */
  lemma LineOutcome(m: Schema, lines: seq<string>, line: string, key: string)
    requires key in m.keys
    ensures var before, after := ReadLines(m, lines), ReadLines(m, lines + [line]);
      && key in before && key in after && (lines == [] ==> before[key] == m.initial(key))
      && var said := |Fields(line)| >= 2 && m.upper(Fields(line)[0]) == key;
         && (!said ==> after[key] == before[key])
         && (said ==>
               after[key].Some? && MeansInNumbers(m, key, Fields(line)[1], before[key], after[key].value))
  {
    KeysStay(m, lines);
    OneLineRead(m, lines, line);
  }

  /** Three words switch off and all others on; a number is forced into its range;
      no number leaves what was, or nought, or for a weight one hundred. */
  predicate MeansInNumbers(m: Schema, key: string, word: string, was: Option<int>, r: int) {
    var number := m.parse(word);
    var former := if was.Some? then was.value else 0;
    match m.kind(key)
    case Switch => (r == 0 || r == 1) && (r == 0 <==> m.lower(word) in {"0", "off", "no"})
    case Weight => if number.Some? then Forced(number.value, 25, 250, r) else r == 100
    case Percentage => if number.Some? then Forced(number.value, 0, 100, r) else r == former
    case Permille => if number.Some? then Forced(number.value, 0, 1000, r) else r == former
    case RefineFloor => if number.Some? then Forced(number.value, 0, 9, r) else r == former
  }

  // ----- writing, and reading what was written ----------------------------

  /** What reading finds of a value that was written; a setting of the last two
      kinds without a value is not in the file and reads as nothing. */
  predicate SavedAs(kind: Kind, given: bool, value: Option<int>, r: Option<int>) {
    match kind
    case Weight => r.Some? && if value.Some? then Forced(value.value, 25, 250, r.value) else r.value == 100
    case Switch => r == Some(if !given then 1 else if value == None || value == Some(0) then 0 else 1)
    case Percentage => r.Some? && if value.Some? then Forced(value.value, 0, 100, r.value) else r.value == 0
    case Permille => if value.Some? then r.Some? && Forced(value.value, 0, 1000, r.value) else r == None
    case RefineFloor => if value.Some? then r.Some? && Forced(value.value, 0, 9, r.value) else r == None
  }

  lemma SavedOutcome(m: Schema, header: seq<string>, values: Values, was: seq<string>, key: string)
    requires Sound(m) && key in m.keys
    ensures var r := ReadLines(m, Written(m, header, values, was)); var given := key in values;
      key in r && SavedAs(m.kind(key), given, if given then values[key] else None, r[key])
  {
    WrittenReadsBack(m, header, values, was, key);
  }

  /** The header's lines behind a hash, an empty line, one line for each key with a
      value, in the panel's order, and the kept lines. */
  lemma TextOutcome(m: Schema, header: seq<string>, values: Values, was: seq<string>)
    ensures var w, n := Written(m, header, values, was), |header|;
      && |w| >= n + 1 && (forall i | 0 <= i < n :: w[i] == "#" + header[i]) && w[n] == ""
      && w[n + 1..] == Printed(m, values, |m.keys|) + Preserved(m, was)
  {
    var h := Header(header);
    assert Written(m, header, values, was)
        == h + (Printed(m, values, |m.keys|) + Preserved(m, was));
  }

  /** A key's line stands behind those of the keys before it: the key, a tab, and
      the value in decimal. */
  lemma {:induction false} PrintedOutcome(m: Schema, values: Values, i: nat, n: nat)
    requires i < n <= |m.keys|
    ensures var key := m.keys[i]; var given := key in values; var v := if given then values[key] else None;
      var at, p := |Printed(m, values, i)|, Printed(m, values, n);
      exists r: Option<nat> :: SavedAs(m.kind(key), given, v, r)
        && |Printed(m, values, i + 1)| == at + (if r.Some? then 1 else 0) <= |p|
        && (r.Some? ==> p[at] == key + "\t" + Decimal(r.value) && Value(Decimal(r.value)) == r.value)
  {
    if i < n - 1 {
      PrintedOutcome(m, values, i, n - 1);
    } else {
      var r: Option<nat> := Stored(m, values, m.keys[i]);
      if r.Some? {
        ValueOfDecimal(r.value);
      }
      assert SavedAs(m.kind(m.keys[i]), m.keys[i] in values, Given(values, m.keys[i]), r);
    }
  }

  // ----- the lines kept ---------------------------------------------------

  /** An optional minus and one to ten digits. */
  predicate LooksLikeNumber(m: Schema, s: string) {
    if s != [] && s[0] == '-' then 2 <= |s| <= 11 && forall i | 1 <= i < |s| :: m.digit(s[i])
    else 1 <= |s| <= 10 && forall i | 0 <= i < |s| :: m.digit(s[i])
  }

  /** A capital letter, and up to 63 capitals, digits and underscores. */
  predicate LooksLikeKey(s: string) {
    && 1 <= |s| <= 64 && 'A' <= s[0] <= 'Z'
    && forall i | 1 <= i < |s| :: 'A' <= s[i] <= 'Z' || '0' <= s[i] <= '9' || s[i] == '_'
  }

  /** A line is kept exactly when it is two fields, a key that is none of the
      panel's and a number; it is kept as the key in capitals, a tab and the number. */
  lemma KeptOutcome(m: Schema, line: string)
    ensures var f, r := Fields(line), PreservedLine(m, line);
      && (r.Some? <==> |f| == 2 && m.upper(f[0]) !in m.keys && LooksLikeKey(m.upper(f[0])) && LooksLikeNumber(m, f[1]))
      && (r.Some? ==> r.value == m.upper(f[0]) + "\t" + f[1])
  {
    var f := Fields(line);
    if |f| == 2 {
      var key, value := m.upper(f[0]), f[1];
      assert LooksLikeKey(key) <==> KeyShape(key) by {
        assert forall c | c in key :: exists i :: 0 <= i < |key| && key[i] == c;
        assert forall i | 0 <= i < |key| :: key[i] in key;
      }
      NumbersLook(m, value);
    }
  }

  lemma NumbersLook(m: Schema, value: string)
    ensures LooksLikeNumber(m, value) <==> NumberShape(m, value)
  {
    var minus := value != [] && value[0] == '-';
    var digits := if minus then value[1..] else value;
    assert forall c | c in digits :: exists i :: 0 <= i < |digits| && digits[i] == c;
    assert forall i | 0 <= i < |digits| :: digits[i] in digits;
    if minus {
      assert forall i | 1 <= i < |value| :: value[i] == digits[i - 1];
      assert forall i | 0 <= i < |digits| :: digits[i] == value[i + 1];
    }
  }

  // ----- the panel's own settings -----------------------------------------

  const KEYS: seq<string> :=
    ["RESTOCK", "REFINE", "SKILL", "HORSE", "BIOLOG", "METIN", "PARTY", "HUNTING", "LEVEL", "FISHING", "TRADE",
     "CHAT", "BOOKS", "NIGHT", "SCRAP", "REST", "PROFIT", "KINGDOMPVP", "CHEST", "CHEST_STONE", "SCRAPFLOOR"]

  /** The panel's settings in the order it writes them, and what each reads as
      without a file: the eleven weights one hundred, the switches on, `REST` one
      hundred and the other percentages nought, and nothing for the last three. */
  lemma PanelOutcome(py: Python, i: nat)
    requires i < 21
    ensures Panel(py).keys == KEYS
    ensures var r := ReadLines(Panel(py), []); var key := KEYS[i];
      key in r && r[key] == if i < 11 || i == 15 then Some(100) else if i < 14 then Some(1)
                            else if i < 18 then Some(0) else None
    ensures var kind := Panel(py).kind(KEYS[i]);
      && (kind.Weight? <==> i < 11) && (kind.Switch? <==> 11 <= i < 14) && (kind.Percentage? <==> 14 <= i < 18)
      && (kind.Permille? <==> 18 <= i < 20) && (kind.RefineFloor? <==> i == 20)
  {
    PanelOrder();
    PanelKinds(i);
    assert KEYS[i] in Panel(py).keys;
  }

  lemma PanelOrder()
    ensures WEIGHTS + SPECIALS == KEYS
  {
  }

  lemma PanelKinds(i: nat)
    requires i < 21
    ensures InitialOf(KEYS[i]) ==
      if i < 11 || i == 15 then Some(100) else if i < 14 then Some(1) else if i < 18 then Some(0) else None
    ensures var kind := KindOf(KEYS[i]);
      && (kind.Weight? <==> i < 11) && (kind.Switch? <==> 11 <= i < 14) && (kind.Percentage? <==> 14 <= i < 18)
      && (kind.Permille? <==> 18 <= i < 20) && (kind.RefineFloor? <==> i == 20)
  {
    if i < 11 {
      WeightsHaveShape(i);
      assert KEYS[i] == WEIGHTS[i];
    } else {
      SpecialKinds(i);
    }
  }

  lemma SpecialKinds(i: nat)
    requires 11 <= i < 21
    ensures KindOf(KEYS[i]) ==
      if i < 14 then Switch else if i < 18 then Percentage else if i < 20 then Permille else RefineFloor
    ensures KEYS[i] == "REST" <==> i == 15
  {
  }
}
