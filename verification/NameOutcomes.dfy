/** The nickname pool and its dealing in plain words: what cleaning keeps, what a
    kingdom is dealt and from where, and what a run does to each character. */
module NameOutcomes {
  import opened Common
  import opened Decimals
  import opened NamePool
  import Deal = NameDeal

  // ----- cleaning ---------------------------------------------------------

  /** Cleaning looks at one character at a time and keeps the ASCII letters and
      digits, in order. */
  lemma {:induction false} KeptOfParts(a: string, b: string)
    ensures Kept(a + b) == Kept(a) + Kept(b)
  {
    if b == [] {
      assert a + b == a;
    } else {
      KeptOfParts(a, b[..|b| - 1]);
      assert (a + b)[..|a + b| - 1] == a + b[..|b| - 1];
    }
  }

  lemma KeptOfOne(c: char)
    ensures Kept([c]) == if 'a' <= c <= 'z' || 'A' <= c <= 'Z' || '0' <= c <= '9' then [c] else []
  {
  }

  /** Small letters for capitals, every other character as it is. */
  lemma LowOutcome(s: string, i: nat)
    requires i < |s|
    ensures Low(s)[i] as int == s[i] as int + if 'A' <= s[i] <= 'Z' then 32 else 0
  {
  }

  lemma ContainsWhen(s: string, part: string)
    ensures Contains(s, part) <==> exists a: string, b: string :: s == a + part + b
  {
    if Contains(s, part) {
      var i :| 0 <= i <= |s| && At(s, part, i);
      assert s == s[..i] + part + s[i + |part|..];
    }
    if a: string, b: string :| s == a + part + b {
      assert At(s, part, |a|);
    }
  }

  lemma PrefixWhen(low: string)
    ensures (exists p | p in BLOCKED_PREFIXES :: p <= low) <==>
      "gm" <= low || "admin" <= low || "system" <= low || "serwer" <= low || "server" <= low
  {
    var ps := BLOCKED_PREFIXES;
    assert ps[0] in ps && ps[1] in ps && ps[2] in ps && ps[3] in ps && ps[4] in ps;
  }

  /** The words that keep a name out, written out. */
  lemma BlockedWhen(name: string)
    ensures var low := Low(name);
      Blocked(name) <==>
        || Contains(low, "ksujebomoge")
        || "gm" <= low || "admin" <= low || "system" <= low || "serwer" <= low || "server" <= low
  {
    PrefixWhen(Low(name));
  }

  predicate AsciiLetter(c: char) {
    'a' <= c <= 'z' || 'A' <= c <= 'Z'
  }

  /** A line is usable exactly when what cleaning keeps of it is 3 to 24 characters
      long, holds a letter and none of those words; then that is its name. */
  lemma CleanWhen(raw: string)
    ensures var k := Kept(raw);
      Clean(raw) == if 3 <= |k| <= 24 && (exists c :: c in k && AsciiLetter(c)) && !Blocked(k) then Some(k) else None
  {
    assert forall c :: AsciiLetter(c) <==> Letter(c);
  }

  predicate AllBlank(s: string) {
    forall c | c in s :: Blank(c)
  }

  /** `r` is `s` without some blanks at either end. */
  ghost predicate Trims(s: string, r: string) {
    exists a: string, b: string :: s == a + r + b && AllBlank(a) && AllBlank(b)
  }

  lemma TrimsLeft(s: string, r: string)
    requires s != [] && Blank(s[0]) && Trims(s[1..], r)
    ensures Trims(s, r)
  {
    var a: string, b: string :| s[1..] == a + r + b && AllBlank(a) && AllBlank(b);
    assert s == [s[0]] + s[1..];
    assert [s[0]] + (a + r + b) == ([s[0]] + a) + r + b;
    assert AllBlank([s[0]] + a);
  }

  lemma TrimsRight(s: string, r: string)
    requires s != [] && Blank(s[|s| - 1]) && Trims(s[..|s| - 1], r)
    ensures Trims(s, r)
  {
    var a: string, b: string :| s[..|s| - 1] == a + r + b && AllBlank(a) && AllBlank(b);
    assert s == s[..|s| - 1] + [s[|s| - 1]];
    assert (a + r + b) + [s[|s| - 1]] == a + r + (b + [s[|s| - 1]]);
    assert AllBlank(b + [s[|s| - 1]]);
  }

  /** Stripping takes the blanks off both ends and nothing else. */
  lemma {:induction false} StripTrims(s: string)
    ensures var r := Strip(s);
      Trims(s, r) && (r != [] ==> !Blank(r[0]) && !Blank(r[|r| - 1]))
    decreases |s|
  {
    if s != [] && Blank(s[0]) {
      StripTrims(s[1..]);
      TrimsLeft(s, Strip(s));
    } else if s != [] && Blank(s[|s| - 1]) {
      StripTrims(s[..|s| - 1]);
      TrimsRight(s, Strip(s));
    } else {
      assert s == [] + s + [] && AllBlank([]);
    }
  }

  predicate Unusable(raw: string) {
    raw != "" && raw[0] != '#' && Clean(raw).None?
  }

  /** The lines reported as dropped are those that are neither empty nor a comment
      and hold no usable name, in file order. */
  lemma {:induction false} DroppedOutcome(lines: seq<string>, line: string)
    ensures Listed(lines + [line]).1 == Listed(lines).1 + if Unusable(Strip(line)) then [Strip(line)] else []
    ensures Listed([]).1 == []
  {
    assert (lines + [line])[..|lines|] == lines;
  }

  /** A name joins the list at its end, unless it is there already. */
  lemma ListedOutcome(lines: seq<string>, line: string)
    ensures var raw, out := Strip(line), Listed(lines).0;
      Listed(lines + [line]).0 ==
        if raw == "" || raw[0] == '#' || Clean(raw).None? || (exists n :: n in out && Low(n) == Low(Clean(raw).value))
        then out else out + [Clean(raw).value]
  {
    assert (lines + [line])[..|lines|] == lines;
  }

  // ----- one kingdom's hand -----------------------------------------------

  /** What round `k` hangs behind the name at place `i`. */
  function Tail(k: nat, i: nat): string
    requires k < 8
  {
    if k == 0 then (if i % 2 == 0 then "2" else "v2")
    else if k == 1 then (if i % 2 == 0 then "3" else "v3")
    else "v" + Decimal(k + 2)
  }

  lemma TailsTakeTurns(own: seq<string>, order: seq<string>, k: nat, i: nat)
    requires k < 8
    ensures var r := Rounds(own, order);
      |r| == 8 && r[k].source == (if k < 2 then own else order) && SuffixesOk(r[k].suffixes)
      && SuffixAt(r[k], i) == Tail(k, i)
  {
    SuffixesAreOk(k);
    assert Decimal(4) == "4" && Decimal(5) == "5" && Decimal(6) == "6";
    assert Decimal(7) == "7" && Decimal(8) == "8" && Decimal(9) == "9";
  }

  /** A name with its tail: cut so that both fit 24 characters. */
  lemma CandidateOutcome(name: string, tail: string)
    requires |tail| <= 24
    ensures Candidate(name, tail) == if |name| + |tail| <= 24 then name + tail else name[..24 - |tail|] + tail
  {
  }

  /** `n` is what round `k` makes of the name at place `i`. */
  predicate Offered(own: seq<string>, order: seq<string>, k: nat, i: nat, n: string) {
    k < 8 && var source := if k < 2 then own else order;
      i < |source| && n == Candidate(source[i], Tail(k, i))
  }

  /** Names go out only behind the share, only as some round offers them, and are
      the only ones newly in use. */
  ghost predicate HandHolds(own: seq<string>, order: seq<string>, seen: set<string>, h: Hand) {
    && own <= h.out
    && (forall j | |own| <= j < |h.out| :: IsOffered(own, order, h.out[j]))
    && (forall low :: low in h.seen <==> low in seen || Named(h.out[|own|..], low))
  }

  ghost predicate IsOffered(own: seq<string>, order: seq<string>, n: string) {
    exists k: nat, i: nat :: Offered(own, order, k, i, n)
  }

  lemma OneDealHolds(own: seq<string>, order: seq<string>, seen: set<string>, h: Hand, k: nat, i: nat)
    requires HandHolds(own, order, seen, h) && k < 8 && i < |if k < 2 then own else order|
    ensures HandHolds(own, order, seen, DealOne(h, (if k < 2 then own else order)[i], Tail(k, i)))
  {
    var c := Candidate((if k < 2 then own else order)[i], Tail(k, i));
    if |h.out| < PER_KINGDOM && Low(c) !in h.seen {
      assert Offered(own, order, k, i, c);
      assert (h.out + [c])[|own|..] == h.out[|own|..] + [c];
      NamedGrows(h.out[|own|..], c);
    }
  }

  lemma RoundGrows(h: Hand, r: Round, i: nat)
    requires i < |r.source| && SuffixesOk(r.suffixes)
    ensures DealRound(h, r, i + 1) == DealOne(DealRound(h, r, i), r.source[i], SuffixAt(r, i))
  {
  }

  ghost predicate RoundSoFar(
    own: seq<string>, order: seq<string>, seen: set<string>, h: Hand, r: Round, i: nat)
    requires SuffixesOk(r.suffixes)
  {
    i <= |r.source| && HandHolds(own, order, seen, DealRound(h, r, i))
  }

  lemma OneMoreOffer(
    own: seq<string>, order: seq<string>, seen: set<string>, h: Hand, k: nat, i: nat)
    requires k < 8 && |Rounds(own, order)| == 8 && SuffixesOk(Rounds(own, order)[k].suffixes)
    requires RoundSoFar(own, order, seen, h, Rounds(own, order)[k], i) && i < |Rounds(own, order)[k].source|
    ensures RoundSoFar(own, order, seen, h, Rounds(own, order)[k], i + 1)
  {
    var r := Rounds(own, order)[k];
    TailsTakeTurns(own, order, k, i);
    RoundGrows(h, r, i);
    OneDealHolds(own, order, seen, DealRound(h, r, i), k, i);
  }

  lemma RoundAdvances(
    own: seq<string>, order: seq<string>, seen: set<string>, h: Hand, k: nat, holds: nat -> bool)
    requires k < 8 && |Rounds(own, order)| == 8 && SuffixesOk(Rounds(own, order)[k].suffixes)
    requires HandHolds(own, order, seen, h)
    requires forall i: nat :: holds(i) <==> RoundSoFar(own, order, seen, h, Rounds(own, order)[k], i)
    ensures holds(0) && forall i: nat | i < |Rounds(own, order)[k].source| :: holds(i) ==> holds(i + 1)
  {
    forall i: nat | i < |Rounds(own, order)[k].source| && holds(i) ensures holds(i + 1) {
      OneMoreOffer(own, order, seen, h, k, i);
    }
  }

  lemma NextRoundHolds(own: seq<string>, order: seq<string>, seen: set<string>, h: Hand, k: nat)
    requires k < 8 && HandHolds(own, order, seen, h)
    ensures |Rounds(own, order)| == 8
    ensures var r := Rounds(own, order)[k];
      SuffixesOk(r.suffixes) && HandHolds(own, order, seen, DealRound(h, r, |r.source|))
  {
    TailsTakeTurns(own, order, k, 0);
    var r := Rounds(own, order)[k];
    var holds := (i: nat) => RoundSoFar(own, order, seen, h, r, i);
    RoundAdvances(own, order, seen, h, k, holds);
    StepByStep(holds, |r.source|);
    assert holds(|r.source|);
  }

  lemma {:induction false} RoundsHold(own: seq<string>, order: seq<string>, seen: set<string>, n: nat)
    requires n <= 8
    ensures |Rounds(own, order)| == 8
    ensures HandHolds(own, order, seen, DealRounds(Hand(own, seen), Rounds(own, order), n))
  {
    TailsTakeTurns(own, order, 0, 0);
    if n == 0 {
      assert own[|own|..] == [];
    } else {
      RoundsHold(own, order, seen, n - 1);
      NextRoundHolds(own, order, seen, DealRounds(Hand(own, seen), Rounds(own, order), n - 1), n - 1);
    }
  }

  /** A hand is full, or the offer is in use. */
  predicate Settled(h: Hand, n: string) {
    |h.out| >= 1800 || Low(n) in h.seen
  }

  lemma {:induction false} RoundSettles(h: Hand, r: Round, i: nat, n: nat)
    requires i < n <= |r.source| && SuffixesOk(r.suffixes)
    ensures Settled(DealRound(h, r, n), Candidate(r.source[i], SuffixAt(r, i)))
  {
    if i < n - 1 {
      RoundSettles(h, r, i, n - 1);
    }
  }

  lemma {:induction false} RoundKeepsSettled(h: Hand, r: Round, n: nat, c: string)
    requires n <= |r.source| && SuffixesOk(r.suffixes) && Settled(h, c)
    ensures Settled(DealRound(h, r, n), c)
  {
    if n > 0 {
      RoundKeepsSettled(h, r, n - 1, c);
    }
  }

  lemma RoundsGrow(h: Hand, rounds: seq<Round>, n: nat)
    requires n < |rounds| && RoundsOk(rounds)
    ensures rounds[n] in rounds
    ensures DealRounds(h, rounds, n + 1) == DealRound(DealRounds(h, rounds, n), rounds[n], |rounds[n].source|)
  {
  }

  ghost predicate SettledAfter(h: Hand, rounds: seq<Round>, k: nat, c: string, n: nat)
    requires RoundsOk(rounds)
  {
    k < n <= |rounds| ==> Settled(DealRounds(h, rounds, n), c)
  }

  lemma NextRoundSettles(own: seq<string>, order: seq<string>, h: Hand, k: nat, i: nat, c: string, n: nat)
    requires Offered(own, order, k, i, c) && n < |Rounds(own, order)|
    requires SettledAfter(h, Rounds(own, order), k, c, n)
    ensures SettledAfter(h, Rounds(own, order), k, c, n + 1)
  {
    var rounds := Rounds(own, order);
    RoundsGrow(h, rounds, n);
    TailsTakeTurns(own, order, k, i);
    if k == n {
      RoundSettles(DealRounds(h, rounds, n), rounds[n], i, |rounds[n].source|);
    } else if k < n {
      RoundKeepsSettled(DealRounds(h, rounds, n), rounds[n], |rounds[n].source|, c);
    }
  }

  lemma RoundsSettle(own: seq<string>, order: seq<string>, h: Hand, k: nat, i: nat, c: string)
    requires Offered(own, order, k, i, c)
    ensures Settled(DealAll(h, Rounds(own, order)), c)
  {
    var rounds := Rounds(own, order);
    TailsTakeTurns(own, order, k, i);
    var n := 0;
    while n < 8
      invariant n <= 8 && SettledAfter(h, rounds, k, c, n)
    {
      NextRoundSettles(own, order, h, k, i, c, n);
      n := n + 1;
    }
  }

  predicate NotOverfull(own: seq<string>, h: Hand) {
    |h.out| <= |own| || |h.out| <= 1800
  }

  lemma {:induction false} RoundFills(own: seq<string>, h: Hand, r: Round, n: nat)
    requires NotOverfull(own, h) && n <= |r.source| && SuffixesOk(r.suffixes)
    ensures NotOverfull(own, DealRound(h, r, n))
  {
    if n > 0 {
      RoundFills(own, h, r, n - 1);
    }
  }

  lemma {:induction false} RoundsFill(own: seq<string>, h: Hand, rounds: seq<Round>, n: nat)
    requires NotOverfull(own, h) && n <= |rounds| && RoundsOk(rounds)
    ensures NotOverfull(own, DealRounds(h, rounds, n))
  {
    if n > 0 {
      RoundsFill(own, h, rounds, n - 1);
      RoundFills(own, DealRounds(h, rounds, n - 1), rounds[n - 1], |rounds[n - 1].source|);
    }
  }

  /** A kingdom starts with its share and is dealt on from what the eight rounds
      offer, until it has 1800 names or every offer is in use. */
  lemma KingdomOutcome(own: seq<string>, order: seq<string>, seen: set<string>)
    ensures var h := Kingdom(own, order, seen);
      && HandHolds(own, order, seen, h) && NotOverfull(own, h)
      && forall k: nat, i: nat, c | Offered(own, order, k, i, c) :: Settled(h, c)
  {
    TailsTakeTurns(own, order, 0, 0);
    RoundsHold(own, order, seen, 8);
    RoundsFill(own, Hand(own, seen), Rounds(own, order), 8);
    forall k: nat, i: nat, c | Offered(own, order, k, i, c) ensures Settled(Kingdom(own, order, seen), c) {
      RoundsSettle(own, order, Hand(own, seen), k, i, c);
    }
  }

  function RowsFor(empire: int, names: seq<string>): seq<PoolRow> {
    seq(|names|, i requires 0 <= i < |names| => PoolRow(empire, names[i]))
  }

  lemma RowsOfThree(a: seq<string>, b: seq<string>, c: seq<string>)
    ensures RowsOfAll([a, b, c]) == RowsFor(2, a) + RowsFor(1, b) + RowsFor(3, c)
  {
    assert [a, b, c][..2] == [a, b] && [a, b][..1] == [a] && [a][..0] == [];
    assert RowsOfAll([]) == [];
    assert RowsOfAll([a]) == RowsFor(2, a);
    assert RowsOfAll([a, b]) == RowsFor(2, a) + RowsFor(1, b);
  }

  /** Who is dealt from which part of the list, and what it finds in use. */
  lemma HandsOutcome(order: seq<string>, k: nat)
    requires k < 3
    ensures var (hands, seen) := Hands(order, k); var h := Kingdom(Own(order, k), order, seen);
      Hands(order, k + 1) == (hands + [h.out], h.seen)
    ensures Hands(order, 0) == ([], set n | n in order :: Low(n))
    ensures var s := |order| / 3;
      Own(order, 0) == order[..s] + order[3 * s..] && Own(order, 1) == order[s..2 * s]
      && Own(order, 2) == order[2 * s..3 * s]
  {
  }

  lemma ThreeHands(order: seq<string>)
    ensures var h1 := Kingdom(Own(order, 0), order, set n | n in order :: Low(n));
      var h2 := Kingdom(Own(order, 1), order, h1.seen);
      Hands(order, 3).0 == [h1.out, h2.out, Kingdom(Own(order, 2), order, h2.seen).out]
  {
    HandsOutcome(order, 0);
    HandsOutcome(order, 1);
    HandsOutcome(order, 2);
  }

  /** Kingdom 2 is dealt first and has the first third and what is left over, then
      kingdom 1 the second third, then kingdom 3 the last; each finds in use what
      the list and those before it hold. */
  lemma PoolOutcome(order: seq<string>)
    ensures var s := |order| / 3;
      var chunjo := Kingdom(order[..s] + order[3 * s..], order, set n | n in order :: Low(n));
      var shinsoo := Kingdom(order[s..2 * s], order, chunjo.seen);
      var jinno := Kingdom(order[2 * s..3 * s], order, shinsoo.seen);
      Pool(order) == RowsFor(2, chunjo.out) + RowsFor(1, shinsoo.out) + RowsFor(3, jinno.out)
  {
    HandsOutcome(order, 0);
    ThreeHands(order);
    var hands := Hands(order, 3).0;
    RowsOfThree(hands[0], hands[1], hands[2]);
  }

  // ----- dealing ----------------------------------------------------------

  /** A bot to be dealt a name: no nickname yet, or one of another version that it
      still wears. */
  predicate ToBeDealt(w: Deal.World, v: Deal.Version, p: Deal.Pid) {
    && p in w.players && w.players[p].account.Some? && w.players[p].account.value.bot
    && (p in w.history ==> w.history[p].version != v && w.players[p].name == w.history[p].humanName)
  }

  /** Bots whose index names no kingdom count for kingdom 2. */
  predicate LivesIn(c: Deal.Character, k: int) {
    c.account.Some? &&
    match c.account.value.empire
    case Some(e) => if 1 <= e <= 3 then k == e else k == 2
    case None => k == 2
  }

  /** Somebody who will not be renamed wears the name: a person, a bot settled on
      this version, or one renamed by hand. */
  ghost predicate WornByAnother(w: Deal.World, v: Deal.Version, fold: Deal.Fold, name: string) {
    exists q :: q in w.players && WornBy(w, v, fold, name, q)
  }

  predicate WornBy(w: Deal.World, v: Deal.Version, fold: Deal.Fold, name: string, q: Deal.Pid)
    requires q in w.players
  {
    var c := w.players[q];
    && fold(c.name) == fold(name) && c.account.Some?
    && (!c.account.value.bot
        || (q in w.history &&
            if c.name == w.history[q].humanName then w.history[q].version == v
            else c.name != w.history[q].seedName))
  }

  /** The pool row dealt to a bot: its own kingdom's, and worn by nobody who stays. */
  lemma DealtRowOutcome(w: Deal.World, v: Deal.Version, fold: Deal.Fold, pool: seq<PoolRow>, p: Deal.Pid)
    requires p in Deal.PlanOf(w, v, fold, pool)
    ensures ToBeDealt(w, v, p)
    ensures exists i: nat ::
              && i < |pool| && pool[i].name == Deal.PlanOf(w, v, fold, pool)[p]
              && LivesIn(w.players[p], pool[i].empire) && !WornByAnother(w, v, fold, pool[i].name)
  {
    var i := Deal.PlannedIndex(w, v, fold, pool, p);
    assert !Deal.Taken(w, v, fold, pool[i].name);
    WornMeansTaken(w, v, fold, pool[i].name);
  }

  lemma WornMeansTaken(w: Deal.World, v: Deal.Version, fold: Deal.Fold, name: string)
    ensures WornByAnother(w, v, fold, name) <==> Deal.Taken(w, v, fold, name)
  {
    forall q | q in w.players
      ensures WornBy(w, v, fold, name, q) <==> fold(w.players[q].name) == fold(name) && Deal.Keeps(w, v, q)
    {
    }
  }

  /** Whoever is to be dealt a name waits, and nobody else. */
  lemma WaitsWhen(w: Deal.World, v: Deal.Version, p: Deal.Pid)
    ensures Deal.Waits(w, v, p) <==> ToBeDealt(w, v, p)
  {
  }

  /** No name is passed over: a free name of the kingdom that stands before a dealt
      one goes to a bot with a lower PID. */
  lemma NoNameIsPassedOver(
    w: Deal.World, v: Deal.Version, fold: Deal.Fold, pool: seq<PoolRow>, p: Deal.Pid, j: nat) returns (q: Deal.Pid)
    requires Deal.Planned(w, v, fold, pool, p) && j < Deal.PlannedIndex(w, v, fold, pool, p)
    requires LivesIn(w.players[p], pool[j].empire) && !WornByAnother(w, v, fold, pool[j].name)
    ensures q < p && q in Deal.PlanOf(w, v, fold, pool) && Deal.PlanOf(w, v, fold, pool)[q] == pool[j].name
  {
    var k := Deal.Kingdom(w.players[p]);
    var waiting, free := Deal.Waiting(w, v, k), Deal.Free(w, v, fold, pool, k);
    WornMeansTaken(w, v, fold, pool[j].name);
    assert j in free && p in waiting;
    Deal.RankGrows(free, j, Deal.PlannedIndex(w, v, fold, pool, p));
    Deal.RankIsBelowSize(waiting, p);
    q := Deal.RankIsReached(waiting, Deal.Rank(free, j));
    if p < q {
      Deal.RankGrows(waiting, p, q);
    }
    assert Deal.Matched(w, v, fold, pool, q, j);
    Deal.MatchIsUnique(w, v, fold, pool, q, j, Deal.PlannedIndex(w, v, fold, pool, q));
  }

  /** Nor is a bot: whoever waits in the kingdom with a lower PID is dealt a name too. */
  lemma NobodyIsPassedOver(
    w: Deal.World, v: Deal.Version, fold: Deal.Fold, pool: seq<PoolRow>, p: Deal.Pid, q: Deal.Pid, k: int)
    requires Deal.Planned(w, v, fold, pool, p) && q < p && ToBeDealt(w, v, q)
    requires LivesIn(w.players[p], k) && LivesIn(w.players[q], k)
    ensures q in Deal.PlanOf(w, v, fold, pool)
  {
    var waiting, free := Deal.Waiting(w, v, k), Deal.Free(w, v, fold, pool, k);
    WaitsWhen(w, v, q);
    assert q in waiting && p in waiting;
    Deal.RankGrows(waiting, q, p);
    Deal.RankIsBelowSize(free, Deal.PlannedIndex(w, v, fold, pool, p));
    var i := Deal.RankIsReached(free, Deal.Rank(waiting, q));
    assert Deal.Matched(w, v, fold, pool, q, i);
  }

  /** What a run leaves of every character and of its history row. */
  lemma DealOutcome(w: Deal.World, v: Deal.Version, fold: Deal.Fold, pool: seq<PoolRow>, p: Deal.Pid)
    requires p in w.players
    ensures var e, plan := Deal.Script(w, Deal.DealNames, v, fold, pool), Deal.PlanOf(w, v, fold, pool);
      && e.players.Keys == w.players.Keys && e.players[p].account == w.players[p].account
      && if p in plan then
           && e.players[p].name == plan[p] && p in e.history
           && e.history[p].humanName == plan[p] && e.history[p].version == v
           && e.history[p].seedName == if p in w.history then w.history[p].seedName else w.players[p].name
         else
           && e.players[p].name == w.players[p].name && (p in e.history <==> p in w.history)
           && (p in w.history ==> e.history[p] == w.history[p])
  {
  }

  /** Taking names back: who still wears the dealt name has the old one again, and
      nothing is remembered; leaving names changes nothing. */
  lemma RestoreOutcome(w: Deal.World, v: Deal.Version, fold: Deal.Fold, pool: seq<PoolRow>, p: Deal.Pid)
    requires p in w.players
    ensures Deal.Script(w, Deal.LeaveNames, v, fold, pool) == w
    ensures var e := Deal.Script(w, Deal.RestoreNames, v, fold, pool);
      && e.history == map[] && p in e.players && e.players[p].account == w.players[p].account
      && e.players[p].name == if p in w.history && w.players[p].name == w.history[p].humanName
                              then w.history[p].seedName else w.players[p].name
  {
  }
}
