/** The generator's own 64 name prefixes, and that they are as the cohort needs
    them: short, of small letters, and all different. */
module SeedPrefixes {
  import opened SeedCohort

  const ROW0: seq<string> := ["dariusz", "arek", "brutus", "cien", "luk", "mrok", "runia", "iskra"]
  const ROW1: seq<string> := ["grom", "probe", "valkyrie", "shadow", "viper", "phantom", "witch", "blaze"]
  const ROW2: seq<string> := ["storm", "titan", "glory", "ghost", "raven", "abyss", "mystic", "oracle"]
  const ROW3: seq<string> := ["sun", "knight", "blade", "dusk", "silent", "chaos", "void", "nova"]
  const ROW4: seq<string> := ["frost", "inferno", "echo", "specter", "draco", "saber", "fury", "zenith"]
  const ROW5: seq<string> := ["onyx", "scarlet", "silver", "amber", "jade", "coral", "flint", "iron"]
  const ROW6: seq<string> := ["steel", "talon", "fang", "claw", "hawk", "falcon", "eagle", "wolf"]
  const ROW7: seq<string> := ["lynx", "panther", "tiger", "bear", "lion", "cobra", "hydra", "chimera"]

  function PrefixRow(r: nat): (row: seq<string>)
    ensures |row| == 8
  {
    if r == 0 then ROW0
    else if r == 1 then ROW1
    else if r == 2 then ROW2
    else if r == 3 then ROW3
    else if r == 4 then ROW4
    else if r == 5 then ROW5
    else if r == 6 then ROW6
    else ROW7
  }

  function NamePrefixes(): (words: seq<string>)
    ensures |words| == 64
  {
    seq(64, i requires 0 <= i < 64 => PrefixRow(i / 8)[i % 8])
  }

  /** Which prefix a word is. The first two letters and the last but one tell. */
  function Which(w: string): nat
    requires |w| >= 3
  {
    var a, b, c := w[0], w[1], w[|w| - 2];
    match a
    case 'a' => if b == 'r' then 1 else if b == 'b' then 21 else 43
    case 'b' => if b == 'r' then 2 else if b == 'l' then (if c == 'z' then 15 else 26) else 59
    case 'c' =>
      if b == 'i' then 3
      else if b == 'h' then (if c == 'o' then 29 else 63)
      else if b == 'o' then (if c == 'a' then 45 else 61)
      else 51
    case 'd' => if b == 'a' then 0 else if b == 'u' then 27 else 36
    case 'e' => if b == 'c' then 34 else 54
    case 'f' => if b == 'r' then 32 else if b == 'u' then 38 else if b == 'l' then 46 else if c == 'n' then 50 else 53
    case 'g' => if b == 'r' then 8 else if b == 'l' then 18 else 19
    case 'h' => if b == 'a' then 52 else 62
    case 'i' => if b == 's' then 7 else if b == 'n' then 33 else 47
    case 'j' => 44
    case 'k' => 25
    case 'l' => if b == 'u' then 4 else if b == 'y' then 56 else 60
    case 'm' => if b == 'r' then 5 else 22
    case 'n' => 31
    case 'o' => if b == 'r' then 23 else 40
    case 'p' => if b == 'r' then 9 else if b == 'h' then 13 else 57
    case 'r' => if b == 'u' then 6 else 20
    case 's' =>
      if b == 'h' then 11
      else if b == 't' then (if c == 'r' then 16 else 48)
      else if b == 'u' then 24
      else if b == 'i' then (if c == 'n' then 28 else 42)
      else if b == 'p' then 35
      else if b == 'a' then 37
      else 41
    case 't' => if b == 'i' then (if c == 'a' then 17 else 58) else 49
    case 'v' => if b == 'a' then 10 else if b == 'i' then 12 else 30
    case 'w' => if b == 'i' then 14 else 55
    case 'z' => 39
    case _ => 64
  }

  predicate IsPrefix(w: string, i: nat) {
    3 <= |w| <= 16 && SmallLetters(w) && Which(w) == i
  }

  lemma Row0(i: nat)
    requires i < 8
    ensures IsPrefix(ROW0[i], i)
  {
  }

  lemma Row1(i: nat)
    requires i < 8
    ensures IsPrefix(ROW1[i], 8 + i)
  {
  }

  lemma Row2(i: nat)
    requires i < 8
    ensures IsPrefix(ROW2[i], 16 + i)
  {
  }

  lemma Row3(i: nat)
    requires i < 8
    ensures IsPrefix(ROW3[i], 24 + i)
  {
  }

  lemma Row4(i: nat)
    requires i < 8
    ensures IsPrefix(ROW4[i], 32 + i)
  {
  }

  lemma Row5(i: nat)
    requires i < 8
    ensures IsPrefix(ROW5[i], 40 + i)
  {
  }

  lemma Row6(i: nat)
    requires i < 8
    ensures IsPrefix(ROW6[i], 48 + i)
  {
  }

  lemma Row7(i: nat)
    requires i < 8
    ensures IsPrefix(ROW7[i], 56 + i)
  {
  }

  lemma PrefixAt(i: nat)
    requires i < 64
    ensures IsPrefix(NamePrefixes()[i], i)
  {
    match i / 8
    case 0 => Row0(i % 8);
    case 1 => Row1(i % 8);
    case 2 => Row2(i % 8);
    case 3 => Row3(i % 8);
    case 4 => Row4(i % 8);
    case 5 => Row5(i % 8);
    case 6 => Row6(i % 8);
    case _ => Row7(i % 8);
  }

  lemma NamePrefixesFit()
    ensures Prefixes(NamePrefixes())
  {
    forall i, j | 0 <= i < j < 64 ensures NamePrefixes()[i] != NamePrefixes()[j] {
      PrefixAt(i);
      PrefixAt(j);
    }
    forall w | w in NamePrefixes() ensures |w| <= 16 && SmallLetters(w) {
      var i :| 0 <= i < 64 && NamePrefixes()[i] == w;
      PrefixAt(i);
    }
  }

  /** So the generator's own cohort passes its validation. */
  lemma OwnCohortIsValid()
    ensures Validated(Rows(LinesOf(NamePrefixes()), BOT_COUNT))
  {
    NamePrefixesFit();
    CohortIsValid(NamePrefixes());
  }

  /** And the registry's unique keys accept it. */
  lemma OwnCohortIsWellFormed(n: nat, fold: string -> string, id: SeedTables.Pid -> SeedTables.AccountId)
    requires KeepsPlainApart(fold)
    ensures SeedTables.WellFormed(RegistryOf(LinesOf(NamePrefixes()), n, fold, id))
  {
    NamePrefixesFit();
    CohortIsWellFormed(NamePrefixes(), n, fold, id);
  }
}
