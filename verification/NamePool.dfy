/** The nickname pool: cleaning the written list, and cutting it into a share per
    kingdom followed by rounds of suffixed names. The shuffle is any order. */
module NamePool {
  import opened Common
  import opened Decimals

  const MAX_LEN: nat := 24
  const PER_KINGDOM: nat := 1800

  // ----- one name ---------------------------------------------------------

  predicate Letter(c: char) {
    'A' <= c <= 'Z' || 'a' <= c <= 'z'
  }

  /** Lower case, on the characters a name may hold. */
  function LowChar(c: char): char {
    if 'A' <= c <= 'Z' then 'a' + (c - 'A') else c
  }

  function Low(s: string): (r: string)
    ensures |r| == |s|
  {
    seq(|s|, i requires 0 <= i < |s| => LowChar(s[i]))
  }

  function Kept(s: string): string {
    if s == [] then []
    else Kept(s[..|s| - 1]) + if Letter(s[|s| - 1]) || IsDigit(s[|s| - 1]) then [s[|s| - 1]] else []
  }

  predicate At(s: string, part: string, i: int) {
    0 <= i <= |s| - |part| && s[i..i + |part|] == part
  }

  predicate Contains(s: string, part: string) {
    exists i | 0 <= i <= |s| :: At(s, part, i)
  }

  const BLOCKED_STEMS: seq<string> := ["ksujebomoge"]
  const BLOCKED_PREFIXES: seq<string> := ["gm", "admin", "system", "serwer", "server"]

  predicate Blocked(name: string) {
    || (exists stem | stem in BLOCKED_STEMS :: Contains(Low(name), stem))
    || exists p | p in BLOCKED_PREFIXES :: p <= Low(name)
  }

  function Clean(raw: string): Option<string> {
    var name := Kept(raw);
    if |name| < 3 || |name| > MAX_LEN then None
    else if forall c | c in name :: !Letter(c) then None
    else if Blocked(name) then None
    else Some(name)
  }

  /** What the engine takes as a name and the list allows. */
  predicate Wearable(name: string) {
    && 3 <= |name| <= MAX_LEN
    && (forall c | c in name :: Letter(c) || IsDigit(c))
    && !Blocked(name)
  }

  lemma {:induction false} KeptIsAlphanumeric(s: string)
    ensures forall c | c in Kept(s) :: Letter(c) || IsDigit(c)
  {
    if s != [] {
      KeptIsAlphanumeric(s[..|s| - 1]);
    }
  }

  lemma {:induction false} KeptKeepsAlphanumeric(s: string)
    requires forall c | c in s :: Letter(c) || IsDigit(c)
    ensures Kept(s) == s
  {
    if s != [] {
      KeptKeepsAlphanumeric(s[..|s| - 1]);
      assert s == s[..|s| - 1] + [s[|s| - 1]];
    }
  }

  /** The cleaned name is exactly the wearable, lettered name hidden in the line,
      and cleaning it again changes nothing. */
  lemma CleanIsWearable(raw: string)
    ensures match Clean(raw)
      case Some(name) => Wearable(name) && (exists c :: c in name && Letter(c)) && Clean(name) == Some(name)
      case None => !Wearable(Kept(raw)) || forall c | c in Kept(raw) :: IsDigit(c)
  {
    KeptIsAlphanumeric(raw);
    KeptKeepsAlphanumeric(Kept(raw));
  }

  // ----- the written list -------------------------------------------------

  function Strip(s: string): string {
    if s != [] && Blank(s[0]) then Strip(s[1..])
    else if s != [] && Blank(s[|s| - 1]) then Strip(s[..|s| - 1])
    else s
  }

  predicate Comment(raw: string) {
    raw == [] || raw[0] == '#'
  }

  predicate Named(out: seq<string>, low: string) {
    exists n :: n in out && Low(n) == low
  }

  /** The names of a list of lines, in order, each once ignoring case, and the
      lines that hold no usable name. */
  function Listed(lines: seq<string>): (seq<string>, seq<string>) {
    if lines == [] then ([], [])
    else
      var (out, dropped) := Listed(lines[..|lines| - 1]);
      var raw := Strip(lines[|lines| - 1]);
      if Comment(raw) then (out, dropped)
      else
        match Clean(raw)
        case None => (out, dropped + [raw])
        case Some(name) => if Named(out, Low(name)) then (out, dropped) else (out + [name], dropped)
  }

  method ReadList(lines: seq<string>) returns (out: seq<string>, dropped: seq<string>)
    ensures (out, dropped) == Listed(lines)
  {
    out, dropped := [], [];
    var seen: set<string> := {};
    var i := 0;
    while i < |lines|
      invariant 0 <= i <= |lines|
      invariant (out, dropped) == Listed(lines[..i])
      invariant forall low :: low in seen <==> Named(out, low)
    {
      assert lines[..i + 1][..i] == lines[..i];
      var raw := Strip(lines[i]);
      i := i + 1;
      if Comment(raw) {
        continue;
      }
      var name := Clean(raw);
      if name.None? {
        dropped := dropped + [raw];
        continue;
      }
      if Low(name.value) in seen {
        continue;
      }
      NamedGrows(out, name.value);
      seen := seen + {Low(name.value)};
      out := out + [name.value];
    }
    assert lines[..i] == lines;
  }

  lemma NamedGrows(out: seq<string>, name: string)
    ensures forall low :: Named(out + [name], low) <==> Named(out, low) || low == Low(name)
  {
    forall low | Named(out + [name], low) ensures Named(out, low) || low == Low(name) {
      var n :| n in out + [name] && Low(n) == low;
      assert n in out || n == name;
    }
    forall low | Named(out, low) || low == Low(name) ensures Named(out + [name], low) {
      if Named(out, low) {
        var n :| n in out && Low(n) == low;
        assert n in out + [name];
      } else {
        assert name in out + [name];
      }
    }
  }

  /** No two names are the same ignoring case. */
  predicate AllDifferent(names: seq<string>) {
    forall i, j | 0 <= i < j < |names| :: Low(names[i]) != Low(names[j])
  }

  predicate AllWearable(names: seq<string>) {
    forall n | n in names :: Wearable(n)
  }

  /** The list holds every name written in the file, once ignoring case. */
  lemma {:induction false} ListIsComplete(lines: seq<string>)
    ensures var out := Listed(lines).0;
      && AllDifferent(out) && AllWearable(out)
      && forall line | line in lines && !Comment(Strip(line)) && Clean(Strip(line)).Some? ::
           Named(out, Low(Clean(Strip(line)).value))
  {
    if lines != [] {
      var k := |lines| - 1;
      ListIsComplete(lines[..k]);
      assert lines == lines[..k] + [lines[k]];
      var raw := Strip(lines[k]);
      CleanIsWearable(raw);
      var before := Listed(lines[..k]).0;
      if !Comment(raw) && Clean(raw).Some? {
        NamedGrows(before, Clean(raw).value);
        forall n | n in before ensures Named(before, Low(n)) {
        }
      }
    }
  }

  /** And it holds nothing else. */
  lemma {:induction false} ListComesFromLines(lines: seq<string>, n: string)
    requires n in Listed(lines).0
    ensures exists line :: line in lines && !Comment(Strip(line)) && Clean(Strip(line)) == Some(n)
  {
    var k := |lines| - 1;
    assert lines[k] in lines;
    if n in Listed(lines[..k]).0 {
      ListComesFromLines(lines[..k], n);
      var line :| line in lines[..k] && !Comment(Strip(line)) && Clean(Strip(line)) == Some(n);
      assert line in lines;
    }
  }

  // ----- the pool ---------------------------------------------------------

  /** Names handed to one kingdom so far, and every name in use, in lower case. */
  datatype Hand = Hand(out: seq<string>, seen: set<string>)

  datatype Round = Round(source: seq<string>, suffixes: seq<string>)

  /** Every suffix is one or two characters, a digit or a `v` in front of one. */
  predicate SuffixesOk(suffixes: seq<string>) {
    |suffixes| > 0 && forall s | s in suffixes :: 1 <= |s| <= 2 && forall c | c in s :: IsDigit(c) || c == 'v'
  }

  /** The suffixes of a round take turns. */
  function SuffixAt(r: Round, i: nat): (s: string)
    requires SuffixesOk(r.suffixes)
    ensures s in r.suffixes
  {
    r.suffixes[i % |r.suffixes|]
  }

  function Candidate(name: string, suffix: string): string
    requires |suffix| <= MAX_LEN
  {
    (if |name| <= MAX_LEN - |suffix| then name else name[..MAX_LEN - |suffix|]) + suffix
  }

  /** One name of a round: nothing once the kingdom is full. */
  function DealOne(h: Hand, name: string, suffix: string): Hand
    requires |suffix| <= MAX_LEN
  {
    var c := Candidate(name, suffix);
    if |h.out| >= PER_KINGDOM || Low(c) in h.seen then h else Hand(h.out + [c], h.seen + {Low(c)})
  }

  /** The first `i` names of a round. */
  function DealRound(h: Hand, r: Round, i: nat): Hand
    requires i <= |r.source| && SuffixesOk(r.suffixes)
  {
    if i == 0 then h else DealOne(DealRound(h, r, i - 1), r.source[i - 1], SuffixAt(r, i - 1))
  }

  predicate RoundsOk(rounds: seq<Round>) {
    forall r | r in rounds :: SuffixesOk(r.suffixes)
  }

  const SUFFIXES: seq<seq<string>> :=
    [["2", "v2"], ["3", "v3"], ["v4"], ["v5"], ["v6"], ["v7"], ["v8"], ["v9"]]

  lemma SuffixesAreOk(k: nat)
    requires k < 8
    ensures SuffixesOk(SUFFIXES[k])
  {
  }

  /** Two rounds over the kingdom's own share, then six over the whole list. */
  function Rounds(own: seq<string>, order: seq<string>): (r: seq<Round>)
    ensures RoundsOk(r) && forall k | 0 <= k < |r| :: r[k].source in [own, order]
  {
    assert forall k: nat | k < 8 :: SuffixesOk(SUFFIXES[k]) by {
      forall k: nat | k < 8 ensures SuffixesOk(SUFFIXES[k]) { SuffixesAreOk(k); }
    }
    seq(8, k requires 0 <= k < 8 => Round(if k < 2 then own else order, SUFFIXES[k]))
  }

  /** The first `n` rounds. */
  function DealRounds(h: Hand, rounds: seq<Round>, n: nat): Hand
    requires n <= |rounds| && RoundsOk(rounds)
  {
    if n == 0 then h
    else DealRound(DealRounds(h, rounds, n - 1), rounds[n - 1], |rounds[n - 1].source|)
  }

  function Share(order: seq<string>): nat {
    |order| / 3
  }

  /** The shares of the kingdoms in dealing order; the first takes the remainder. */
  function Own(order: seq<string>, k: nat): seq<string>
    requires k < 3
  {
    var share := Share(order);
    order[k * share..(k + 1) * share] + if k == 0 then order[3 * share..] else []
  }

  function DealAll(h: Hand, rounds: seq<Round>): Hand
    requires RoundsOk(rounds)
  {
    DealRounds(h, rounds, |rounds|)
  }

  /** One kingdom's names: its share, then the suffixed rounds. */
  function Kingdom(own: seq<string>, order: seq<string>, seen: set<string>): Hand {
    DealAll(Hand(own, seen), Rounds(own, order))
  }

  const KINGDOMS: seq<int> := [2, 1, 3]

  /** The hands of the first `k` kingdoms and the names in use after them. */
  function Hands(order: seq<string>, k: nat): (r: (seq<seq<string>>, set<string>))
    requires k <= 3
    ensures |r.0| == k
  {
    if k == 0 then ([], set n | n in order :: Low(n))
    else
      var (hands, seen) := Hands(order, k - 1);
      var h := Kingdom(Own(order, k - 1), order, seen);
      (hands + [h.out], h.seen)
  }

  datatype PoolRow = PoolRow(empire: int, name: string)

  function RowsOf(empire: int, names: seq<string>): seq<PoolRow> {
    seq(|names|, i requires 0 <= i < |names| => PoolRow(empire, names[i]))
  }

  function RowsOfAll(hands: seq<seq<string>>): seq<PoolRow>
    requires |hands| <= 3
  {
    if hands == [] then []
    else RowsOfAll(hands[..|hands| - 1]) + RowsOf(KINGDOMS[|hands| - 1], hands[|hands| - 1])
  }

  function Pool(order: seq<string>): seq<PoolRow> {
    RowsOfAll(Hands(order, 3).0)
  }

  method BuildPool(order: seq<string>) returns (rows: seq<PoolRow>)
    ensures rows == Pool(order)
  {
    var seen := set n | n in order :: Low(n);
    rows := [];
    ghost var hands: seq<seq<string>> := [];
    var k := 0;
    while k < 3
      invariant 0 <= k <= 3
      invariant (hands, seen) == Hands(order, k)
      invariant rows == RowsOfAll(hands)
    {
      var own := Own(order, k);
      var out: seq<string>;
      out, seen := DealKingdom(own, Rounds(own, order), seen);
      rows := rows + RowsOf(KINGDOMS[k], out);
      assert (hands + [out])[..k] == hands;
      hands := hands + [out];
      k := k + 1;
    }
  }

  method PlayRound(given: seq<string>, used: set<string>, r: Round) returns (out: seq<string>, seen: set<string>)
    requires SuffixesOk(r.suffixes)
    ensures Hand(out, seen) == DealRound(Hand(given, used), r, |r.source|)
  {
    out, seen := given, used;
    var i := 0;
    while i < |r.source|
      invariant 0 <= i <= |r.source|
      invariant Hand(out, seen) == DealRound(Hand(given, used), r, i)
    {
      if |out| >= PER_KINGDOM {
        RoundStaysFull(Hand(given, used), r, i, |r.source|);
        return;
      }
      var suffix := SuffixAt(r, i);
      var candidate := Candidate(r.source[i], suffix);
      i := i + 1;
      if Low(candidate) in seen {
        continue;
      }
      seen := seen + {Low(candidate)};
      out := out + [candidate];
    }
  }

  method DealKingdom(own: seq<string>, rounds: seq<Round>, before: set<string>)
    returns (out: seq<string>, seen: set<string>)
    requires RoundsOk(rounds)
    ensures Hand(out, seen) == DealAll(Hand(own, before), rounds)
  {
    out, seen := own, before;
    var j := 0;
    while j < |rounds|
      invariant 0 <= j <= |rounds|
      invariant Hand(out, seen) == DealRounds(Hand(own, before), rounds, j)
    {
      if |out| >= PER_KINGDOM {
        FullStaysFull(Hand(own, before), rounds, j, |rounds|);
        return;
      }
      out, seen := PlayRound(out, seen, rounds[j]);
      j := j + 1;
    }
  }

  lemma {:induction false} RoundStaysFull(h: Hand, r: Round, i: nat, n: nat)
    requires i <= n <= |r.source| && SuffixesOk(r.suffixes) && |DealRound(h, r, i).out| >= PER_KINGDOM
    ensures DealRound(h, r, n) == DealRound(h, r, i)
  {
    if i < n {
      RoundStaysFull(h, r, i, n - 1);
    }
  }

  lemma FullRound(h: Hand, r: Round)
    requires SuffixesOk(r.suffixes) && |h.out| >= PER_KINGDOM
    ensures DealRound(h, r, |r.source|) == h
  {
    RoundStaysFull(h, r, 0, |r.source|);
  }

  lemma {:induction false} FullStaysFull(h: Hand, rounds: seq<Round>, j: nat, n: nat)
    requires j <= n <= |rounds| && RoundsOk(rounds) && |DealRounds(h, rounds, j).out| >= PER_KINGDOM
    ensures DealRounds(h, rounds, n) == DealRounds(h, rounds, j)
  {
    if j < n {
      FullStaysFull(h, rounds, j, n - 1);
      var full, last := DealRounds(h, rounds, n - 1), rounds[n - 1];
      FullRound(full, last);
    }
  }
}
