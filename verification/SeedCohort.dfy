/** The canonical cohort: one registry line per ordinal, and why the generator's
    own validation and the registry's unique keys accept it. */
module SeedCohort {
  import opened Decimals
  import opened SeedTables

  const BOT_COUNT: nat := 2500
  const CHUNJO_COUNT: nat := 1500
  const FIRST_PID: nat := 4

  /** The list of name prefixes: 64 different words of small letters. */
  ghost predicate Prefixes(words: seq<string>) {
    && |words| == 64
    && (forall i, j | 0 <= i < j < 64 :: words[i] != words[j])
    && forall w | w in words :: |w| <= 16 && SmallLetters(w)
  }

  predicate SmallLetters(s: string) {
    forall c | c in s :: 'a' <= c <= 'z'
  }

  /** One kingdom's block of ordinals: its first, its kingdom, its village map and
      the corner of its spawn grid. */
  datatype Block = Block(first: nat, empire: int, mapIndex: nat, x: int, y: int)

  function BlockOf(ordinal: nat): Block {
    if ordinal <= 1500 then Block(1, 2, 21, 51000, 165000)
    else if ordinal <= 2000 then Block(1501, 1, 1, 476000, 954000)
    else Block(2001, 3, 41, 962500, 265500)
  }

  const JOBS: seq<nat> := [0, 4, 1, 5, 2, 6, 3, 7]

  function BodyOf(job: nat, mapIndex: nat, x: int, y: int): Body {
    if job == 0 || job == 4 then Body(mapIndex, x, y, 760, 260, 6, 4, 3, 3)
    else if job == 1 || job == 5 then Body(mapIndex, x, y, 770, 260, 4, 3, 6, 3)
    else if job == 2 || job == 6 then Body(mapIndex, x, y, 770, 300, 5, 3, 3, 5)
    else Body(mapIndex, x, y, 860, 320, 3, 4, 3, 6)
  }

  // Lines are counted from zero: the line with index `i` has ordinal `i + 1`.

  function Login(i: nat): string {
    "playerbot_" + Padded(i + 1, 3)
  }

  function Social(i: nat): string {
    "9" + Padded(i + 1, 12)
  }

  function Suffix(cycle: nat): string {
    if cycle == 0 then "" else Decimal(cycle + 1)
  }

  function Name(words: seq<string>, i: nat): string
    requires |words| == 64
  {
    "bot" + words[i % 64] + Suffix(i / 64)
  }

  function SpecOf(words: seq<string>, i: nat): Spec
    requires |words| == 64
  {
    var b := BlockOf(i + 1);
    var index := i + 1 - b.first;
    var job := JOBS[i % 8];
    Spec(Login(i), Social(i), Name(words, i), job, b.empire,
         BodyOf(job, b.mapIndex, b.x + index % 25 * 80, b.y + index / 25 * 120))
  }

  datatype Row = Row(pid: Pid, spec: Spec)

  /** The registry lines, by ordinal. */
  function LinesOf(words: seq<string>): nat -> Spec
    requires |words| == 64
  {
    (i: nat) => SpecOf(words, i)
  }

  function Rows(line: nat -> Spec, n: nat): (rows: seq<Row>)
    ensures |rows| == n
  {
    seq(n, i requires 0 <= i < n => Row(FIRST_PID + i, line(i)))
  }

  lemma RowsGrow(line: nat -> Spec, n: nat)
    ensures Rows(line, n + 1) == Rows(line, n) + [Row(FIRST_PID + n, line(n))]
  {
  }

  method Cohort(words: seq<string>) returns (rows: seq<Row>)
    requires |words| == 64
    ensures rows == Rows(LinesOf(words), BOT_COUNT)
  {
    rows := [];
    ghost var line := LinesOf(words);
    for i := 0 to BOT_COUNT
      invariant rows == Rows(line, i)
    {
      RowsGrow(line, i);
      rows := rows + [Row(FIRST_PID + i, SpecOf(words, i))];
    }
  }

  // ----- one line in the registry's own words -----------------------------

  lemma RowsAt(line: nat -> Spec, n: nat, i: nat)
    requires i < n
    ensures Rows(line, n)[i] == Row(4 + i, line(i))
  {
  }

  /** 2500 lines, the PIDs running from 4. */
  lemma CohortOutcome(words: seq<string>, p: Pid)
    requires |words| == 64 && 4 <= p < 2504
    ensures var rows := Rows(LinesOf(words), BOT_COUNT);
      |rows| == 2500 && rows[p - 4] == Row(p, SpecOf(words, p - 4))
  {
    RowsAt(LinesOf(words), BOT_COUNT, p - 4);
  }

  /** Words take turns, the second time round with a 2 behind them. */
  lemma NameOutcome(words: seq<string>, round: nat, j: nat)
    requires |words| == 64 && j < 64
    ensures SpecOf(words, 64 * round + j).name
         == "bot" + words[j] + if round == 0 then "" else Decimal(round + 1)
  {
    assert (64 * round + j) / 64 == round && (64 * round + j) % 64 == j;
    if round == 0 {
      assert "bot" + words[j] + "" == "bot" + words[j];
    }
  }

  lemma {:induction false} AtLeast(n: nat, digits: nat)
    requires digits > 0 && n >= Power(digits - 1)
    ensures |Decimal(n)| >= digits
  {
    if digits > 1 {
      AtLeast(n / 10, digits - 1);
    }
  }

  lemma PaddedToThree(n: nat)
    ensures n < 10 ==> Padded(n, 3) == "00" + Decimal(n)
    ensures 10 <= n < 100 ==> Padded(n, 3) == "0" + Decimal(n)
    ensures 100 <= n ==> Padded(n, 3) == Decimal(n)
  {
    assert Power(1) == 10 && Power(2) == 100;
    if n < 100 {
      ShortNumbers(n);
    } else {
      AtLeast(n, 3);
    }
    if 10 <= n {
      AtLeast(n, 2);
    }
    assert Zeros(1) == "0" && Zeros(2) == "00";
  }

  /** Logins carry the ordinal in at least three digits. */
  lemma LoginOutcome(words: seq<string>, i: nat)
    requires |words| == 64
    ensures var login, n := SpecOf(words, i).login, i + 1;
      && (n < 10 ==> login == "playerbot_" + ("00" + Decimal(n)))
      && (10 <= n < 100 ==> login == "playerbot_" + ("0" + Decimal(n)))
      && (100 <= n ==> login == "playerbot_" + Decimal(n))
  {
    PaddedToThree(i + 1);
  }

  /** Social ids are a nine and the ordinal in twelve digits. */
  lemma SocialOutcome(words: seq<string>, i: nat)
    requires |words| == 64 && i < BOT_COUNT
    ensures var social := SpecOf(words, i).social;
      && |social| == 13 && social[0] == '9'
      && (forall c | c in social[1..] :: IsDigit(c)) && Value(social[1..]) == i + 1
  {
    ShortNumbers(i + 1);
    PaddedValue(i + 1, 12);
    assert Social(i)[1..] == Padded(i + 1, 12);
  }

  /** Jobs take turns class by class, and each class has its own points. */
  lemma ClassOutcome(words: seq<string>, i: nat)
    requires |words| == 64
    ensures var s := SpecOf(words, i); var points := (s.body.hp, s.body.mp, s.body.st, s.body.ht, s.body.dx, s.body.iq);
      && (i % 8 == 0 ==> s.job == 0 && points == (760, 260, 6, 4, 3, 3))
      && (i % 8 == 1 ==> s.job == 4 && points == (760, 260, 6, 4, 3, 3))
      && (i % 8 == 2 ==> s.job == 1 && points == (770, 260, 4, 3, 6, 3))
      && (i % 8 == 3 ==> s.job == 5 && points == (770, 260, 4, 3, 6, 3))
      && (i % 8 == 4 ==> s.job == 2 && points == (770, 300, 5, 3, 3, 5))
      && (i % 8 == 5 ==> s.job == 6 && points == (770, 300, 5, 3, 3, 5))
      && (i % 8 == 6 ==> s.job == 3 && points == (860, 320, 3, 4, 3, 6))
      && (i % 8 == 7 ==> s.job == 7 && points == (860, 320, 3, 4, 3, 6))
  {
  }

  /** Each kingdom stands on its own grid, 25 to a row, 80 apart along the row and
      120 between rows. */
  lemma SpotOutcome(words: seq<string>, row: nat, col: nat)
    requires |words| == 64 && col < 25
    ensures var i := 25 * row + col;
      && (i < 1500 ==> var s := SpecOf(words, i);
            s.empire == 2 && s.body.mapIndex == 21 && s.body.x == 51000 + 80 * col && s.body.y == 165000 + 120 * row)
      && (i < 500 ==> var s := SpecOf(words, 1500 + i);
            s.empire == 1 && s.body.mapIndex == 1 && s.body.x == 476000 + 80 * col && s.body.y == 954000 + 120 * row)
      && (i < 500 ==> var s := SpecOf(words, 2000 + i);
            s.empire == 3 && s.body.mapIndex == 41 && s.body.x == 962500 + 80 * col && s.body.y == 265500 + 120 * row)
  {
    assert (25 * row + col) % 25 == col && (25 * row + col) / 25 == row;
  }

  // ----- no two lines share a login, a social id or a name ----------------

  lemma LoginsDiffer(i: nat, j: nat)
    requires Login(i) == Login(j)
    ensures i == j
  {
    assert Login(i)[10..] == Padded(i + 1, 3) && Login(j)[10..] == Padded(j + 1, 3);
    PaddedDiffers(i + 1, j + 1, 3);
  }

  lemma SocialsDiffer(i: nat, j: nat)
    requires Social(i) == Social(j)
    ensures i == j
  {
    assert Social(i)[1..] == Padded(i + 1, 12) && Social(j)[1..] == Padded(j + 1, 12);
    PaddedDiffers(i + 1, j + 1, 12);
  }

  function LeadingLetters(s: string): nat {
    if s == [] || !('a' <= s[0] <= 'z') then 0 else 1 + LeadingLetters(s[1..])
  }

  lemma {:induction false} LeadingLettersOf(a: string, x: string)
    requires SmallLetters(a) && forall c | c in x :: IsDigit(c)
    ensures LeadingLetters(a + x) == |a|
  {
    if a == [] {
      assert a + x == x;
      assert x != [] ==> x[0] in x;
    } else {
      assert a[0] in a && (a + x)[0] == a[0];
      assert forall c | c in a[1..] :: c in a;
      assert (a + x)[1..] == a[1..] + x;
      LeadingLettersOf(a[1..], x);
    }
  }

  /** Where the letters end is where the digits begin. */
  lemma LettersThenDigits(a: string, x: string, b: string, y: string)
    requires SmallLetters(a) && SmallLetters(b)
    requires (forall c | c in x :: IsDigit(c)) && (forall c | c in y :: IsDigit(c))
    requires a + x == b + y
    ensures a == b && x == y
  {
    LeadingLettersOf(a, x);
    LeadingLettersOf(b, y);
    assert (a + x)[..|a|] == a && (b + y)[..|b|] == b;
    assert (a + x)[|a|..] == x && (b + y)[|b|..] == y;
  }

  lemma SuffixesDiffer(m: nat, n: nat)
    requires Suffix(m) == Suffix(n)
    ensures m == n
  {
    if m > 0 && n > 0 {
      ValueOfDecimal(m + 1);
      ValueOfDecimal(n + 1);
    }
  }

  lemma SameWord(words: seq<string>, a: nat, b: nat)
    requires Prefixes(words) && a < 64 && b < 64 && words[a] == words[b]
    ensures a == b
  {
  }

  lemma SameParts(i: nat, j: nat)
    requires i / 64 == j / 64 && i % 64 == j % 64
    ensures i == j
  {
  }

  lemma NamesDiffer(words: seq<string>, i: nat, j: nat)
    requires Prefixes(words) && Name(words, i) == Name(words, j)
    ensures i == j
  {
    var a, b := words[i % 64], words[j % 64];
    var x, y := Suffix(i / 64), Suffix(j / 64);
    assert Name(words, i)[3..] == a + x && Name(words, j)[3..] == b + y;
    LettersThenDigits(a, x, b, y);
    SuffixesDiffer(i / 64, j / 64);
    SameWord(words, i % 64, j % 64);
    SameParts(i, j);
  }

  // ----- the generator's own validation -----------------------------------

  predicate TextsDiffer(a: Spec, b: Spec) {
    a.name != b.name && a.login != b.login && a.social != b.social
  }

  function MapOf(empire: int): nat {
    if empire == 2 then 21 else if empire == 1 then 1 else 41
  }

  /** What the generator refuses to go on without. */
  ghost predicate Validated(rows: seq<Row>) {
    && |rows| == BOT_COUNT
    && (forall i | 0 <= i < |rows| :: rows[i].pid == FIRST_PID + i)
    && (forall i, j | 0 <= i < j < |rows| :: TextsDiffer(rows[i].spec, rows[j].spec))
    && (forall i | 0 <= i < |rows| :: RowIsFine(rows[i]))
    && forall i | 0 <= i < |rows| :: rows[i].spec.empire == 2 <==> i < CHUNJO_COUNT
  }

  predicate RowIsFine(r: Row) {
    && |r.spec.name| <= 24 && |r.spec.login| <= 30
    && |r.spec.social| == 13 && (forall c | c in r.spec.social :: IsDigit(c))
    && r.spec.job < 8 && 1 <= r.spec.empire <= 3 && r.spec.body.mapIndex == MapOf(r.spec.empire)
  }

  lemma ShortNumbers(n: nat)
    ensures n < 100 ==> |Decimal(n)| <= 2
    ensures n < 10000 ==> |Decimal(n)| <= 4
  {
    assert Power(2) == 100;
    assert Power(4) == 100 * Power(2);
    if n < 100 {
      DecimalLength(n, 2);
    }
    if n < 10000 {
      DecimalLength(n, 4);
    }
  }

  lemma TextsFit(words: seq<string>, i: nat)
    requires Prefixes(words) && i < BOT_COUNT
    ensures |Name(words, i)| <= 24 && |Login(i)| <= 30 && |Social(i)| == 13
    ensures forall c | c in Social(i) :: IsDigit(c)
  {
    ShortNumbers(i + 1);
    ShortNumbers(i / 64 + 1);
    assert words[i % 64] in words;
    assert forall c | c in Social(i) :: c == '9' || c in Padded(i + 1, 12);
  }

  lemma PlaceFits(words: seq<string>, i: nat)
    requires |words| == 64
    ensures var s := SpecOf(words, i);
      s.job < 8 && 1 <= s.empire <= 3 && s.body.mapIndex == MapOf(s.empire)
  {
  }

  lemma LineIsFine(words: seq<string>, i: nat)
    requires Prefixes(words) && i < BOT_COUNT
    ensures RowIsFine(Row(FIRST_PID + i, SpecOf(words, i)))
  {
    TextsFit(words, i);
    PlaceFits(words, i);
  }

  lemma LinesDiffer(words: seq<string>, i: nat, j: nat)
    requires Prefixes(words) && i != j
    ensures TextsDiffer(SpecOf(words, i), SpecOf(words, j))
  {
    if Name(words, i) == Name(words, j) {
      NamesDiffer(words, i, j);
    }
    if Login(i) == Login(j) {
      LoginsDiffer(i, j);
    }
    if Social(i) == Social(j) {
      SocialsDiffer(i, j);
    }
  }

  lemma EmpireOfLine(words: seq<string>, i: nat)
    requires |words| == 64
    ensures SpecOf(words, i).empire == 2 <==> i < CHUNJO_COUNT
  {
  }

  lemma RowsStand(line: nat -> Spec)
    requires forall i, j | 0 <= i < j < BOT_COUNT :: TextsDiffer(line(i), line(j))
    requires forall i | 0 <= i < BOT_COUNT ::
               RowIsFine(Row(FIRST_PID + i, line(i))) && (line(i).empire == 2 <==> i < CHUNJO_COUNT)
    ensures Validated(Rows(line, BOT_COUNT))
  {
  }

  /** The cohort passes its validation: the generator never raises. */
  lemma CohortIsValid(words: seq<string>)
    requires Prefixes(words)
    ensures Validated(Rows(LinesOf(words), BOT_COUNT))
  {
    var line := LinesOf(words);
    forall i, j | 0 <= i < j < BOT_COUNT ensures TextsDiffer(line(i), line(j)) {
      LinesDiffer(words, i, j);
    }
    forall i | 0 <= i < BOT_COUNT
      ensures RowIsFine(Row(FIRST_PID + i, line(i))) && (line(i).empire == 2 <==> i < CHUNJO_COUNT)
    {
      LineIsFine(words, i);
      EmpireOfLine(words, i);
    }
    RowsStand(line);
  }

  // ----- the registry -----------------------------------------------------

  /** The first `n` lines as a registry: all of them, or the first kingdom alone
      while the other two are switched off. */
  function RegistryOf(line: nat -> Spec, n: nat, fold: string -> string, id: Pid -> AccountId): Registry {
    Registry(map p: Pid | FIRST_PID <= p < FIRST_PID + n :: LineAt(line, p), fold, id)
  }

  function LineAt(line: nat -> Spec, p: Pid): Spec
    requires p >= FIRST_PID
  {
    line(p - FIRST_PID)
  }

  lemma RegistryOutcome(line: nat -> Spec, n: nat, fold: string -> string, id: Pid -> AccountId, p: Pid)
    ensures var specs := RegistryOf(line, n, fold, id).specs;
      (p in specs <==> 4 <= p < 4 + n) && (p in specs ==> specs[p] == line(p - 4))
  {
  }

  /** Small letters, digits and underscores: all a cohort's texts are made of. */
  predicate Plain(s: string) {
    forall c | c in s :: 'a' <= c <= 'z' || IsDigit(c) || c == '_'
  }

  /** A collation that tells plain texts apart. */
  ghost predicate KeepsPlainApart(fold: string -> string) {
    forall a, b | Plain(a) && Plain(b) && fold(a) == fold(b) :: a == b
  }

  lemma LineIsPlain(words: seq<string>, i: nat)
    requires Prefixes(words)
    ensures Plain(Name(words, i)) && Plain(Login(i)) && Plain(Social(i))
  {
    var w := words[i % 64];
    assert w in words;
    forall c | c in Name(words, i) ensures 'a' <= c <= 'z' || IsDigit(c) {
      assert c in "bot" || c in w || c in Suffix(i / 64);
    }
    forall c | c in Login(i) ensures 'a' <= c <= 'z' || IsDigit(c) || c == '_' {
      assert c in "playerbot_" || c in Padded(i + 1, 3);
    }
    forall c | c in Social(i) ensures IsDigit(c) {
      assert c == '9' || c in Padded(i + 1, 12);
    }
  }

  predicate PlainTexts(s: Spec) {
    Plain(s.name) && Plain(s.login) && Plain(s.social)
  }

  ghost predicate FoldsApart(fold: string -> string, a: Spec, b: Spec) {
    fold(a.login) != fold(b.login) && fold(a.social) != fold(b.social) && fold(a.name) != fold(b.name)
  }

  lemma SpecsFoldApart(fold: string -> string, a: Spec, b: Spec)
    requires KeepsPlainApart(fold) && PlainTexts(a) && PlainTexts(b) && TextsDiffer(a, b)
    ensures FoldsApart(fold, a, b)
  {
  }

  lemma LinesFoldApart(words: seq<string>, fold: string -> string, i: nat, j: nat)
    requires Prefixes(words) && KeepsPlainApart(fold) && i != j
    ensures FoldsApart(fold, LinesOf(words)(i), LinesOf(words)(j))
  {
    LinesDiffer(words, i, j);
    SpecIsPlain(words, i);
    SpecIsPlain(words, j);
    SpecsFoldApart(fold, LinesOf(words)(i), LinesOf(words)(j));
  }

  lemma SpecIsPlain(words: seq<string>, i: nat)
    requires Prefixes(words)
    ensures PlainTexts(SpecOf(words, i))
  {
    LineIsPlain(words, i);
  }

  lemma JobIsInRange(words: seq<string>, i: nat)
    requires |words| == 64
    ensures LinesOf(words)(i).job < 8
  {
  }

  lemma LinesMakeRegistry(line: nat -> Spec, n: nat, fold: string -> string, id: Pid -> AccountId)
    requires forall i: nat :: line(i).job < 8
    requires forall i: nat, j: nat | i != j :: FoldsApart(fold, line(i), line(j))
    ensures WellFormed(RegistryOf(line, n, fold, id))
  {
  }

  /** The cohort is a registry the seed's own tables accept, with and without the
      second and third kingdom. */
  lemma CohortIsWellFormed(words: seq<string>, n: nat, fold: string -> string, id: Pid -> AccountId)
    requires Prefixes(words) && KeepsPlainApart(fold)
    ensures WellFormed(RegistryOf(LinesOf(words), n, fold, id))
  {
    var line := LinesOf(words);
    forall i: nat ensures line(i).job < 8 {
      JobIsInRange(words, i);
    }
    forall i: nat, j: nat | i != j ensures FoldsApart(fold, line(i), line(j)) {
      LinesFoldApart(words, fold, i, j);
    }
    LinesMakeRegistry(line, n, fold, id);
  }
}
