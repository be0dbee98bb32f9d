/** What the nickname pool promises, for every cleaned list and every shuffle. */
module NamePoolTheorems {
  import opened Common
  import opened Decimals
  import opened NamePool

  // ----- a suffixed name is still wearable --------------------------------

  predicate Plain(c: char) {
    'a' <= c <= 'z' && c != 'v'
  }

  /** No blocked stem, and no last letter of a blocked prefix, could have come from
      a suffix. */
  lemma BlockedWordsArePlain()
    ensures forall stem | stem in BLOCKED_STEMS :: stem != [] && forall c | c in stem :: Plain(c)
    ensures forall p | p in BLOCKED_PREFIXES :: p != [] && Plain(p[|p| - 1])
  {
    assert forall k | 0 <= k < |BLOCKED_PREFIXES| ::
        BLOCKED_PREFIXES[k] != [] && Plain(BLOCKED_PREFIXES[k][|BLOCKED_PREFIXES[k]| - 1]);
  }

  lemma LowOfParts(a: string, b: string)
    ensures Low(a + b) == Low(a) + Low(b)
  {
  }

  lemma SuffixIsNotPlain(s: string)
    requires forall c | c in s :: IsDigit(c) || c == 'v'
    ensures forall c | c in Low(s) :: !Plain(c)
  {
    forall c | c in Low(s) ensures !Plain(c) {
      var i :| 0 <= i < |s| && c == LowChar(s[i]);
      assert s[i] in s;
    }
  }

  lemma StemStaysOut(a: string, b: string, stem: string)
    requires stem != [] && (forall c | c in stem :: Plain(c)) && (forall c | c in b :: !Plain(c))
    requires Contains(a + b, stem)
    ensures Contains(a, stem)
  {
    var i :| 0 <= i <= |a + b| && At(a + b, stem, i);
    var last := i + |stem| - 1;
    forall k | |a| <= k < |a + b| ensures !Plain((a + b)[k]) {
      assert (a + b)[k] == b[k - |a|];
    }
    assert (a + b)[last] == stem[|stem| - 1] && stem[|stem| - 1] in stem;
    assert (a + b)[i..i + |stem|] == a[i..i + |stem|];
    assert At(a, stem, i);
  }

  lemma PrefixStaysOut(a: string, b: string, p: string)
    requires p != [] && Plain(p[|p| - 1]) && (forall c | c in b :: !Plain(c))
    requires p <= a + b
    ensures p <= a
  {
    assert (a + b)[|p| - 1] == p[|p| - 1];
  }

  lemma CutHoldsLess(name: string, n: nat, stem: string)
    requires n <= |name| && Contains(Low(name[..n]), stem)
    ensures Contains(Low(name), stem)
  {
    var i :| 0 <= i <= |Low(name[..n])| && At(Low(name[..n]), stem, i);
    assert Low(name)[i..i + |stem|] == Low(name[..n])[i..i + |stem|];
    assert At(Low(name), stem, i);
  }

  lemma CutIsNotBlocked(name: string, n: nat)
    requires n <= |name| && Blocked(name[..n])
    ensures Blocked(name)
  {
    if exists stem | stem in BLOCKED_STEMS :: Contains(Low(name[..n]), stem) {
      var stem :| stem in BLOCKED_STEMS && Contains(Low(name[..n]), stem);
      CutHoldsLess(name, n, stem);
    } else {
      var p :| p in BLOCKED_PREFIXES && p <= Low(name[..n]);
      assert Low(name[..n]) == Low(name)[..n];
      assert p <= Low(name);
    }
  }

  lemma SuffixBlocksNothing(a: string, s: string)
    requires (forall c | c in s :: IsDigit(c) || c == 'v') && Blocked(a + s)
    ensures Blocked(a)
  {
    BlockedWordsArePlain();
    LowOfParts(a, s);
    SuffixIsNotPlain(s);
    if exists stem | stem in BLOCKED_STEMS :: Contains(Low(a + s), stem) {
      var stem :| stem in BLOCKED_STEMS && Contains(Low(a + s), stem);
      StemStaysOut(Low(a), Low(s), stem);
    } else {
      var p :| p in BLOCKED_PREFIXES && p <= Low(a + s);
      PrefixStaysOut(Low(a), Low(s), p);
    }
  }

  lemma CandidateIsWearable(name: string, s: string)
    requires Wearable(name) && 1 <= |s| <= 2 && forall c | c in s :: IsDigit(c) || c == 'v'
    ensures Wearable(Candidate(name, s))
  {
    var n := if |name| <= MAX_LEN - |s| then |name| else MAX_LEN - |s|;
    assert Candidate(name, s) == name[..n] + s;
    assert name[..|name|] == name;
    if Blocked(Candidate(name, s)) {
      SuffixBlocksNothing(name[..n], s);
      CutIsNotBlocked(name, n);
    }
  }

  // ----- names stay distinct ----------------------------------------------

  lemma CountOfTwo(s: seq<string>, i: nat, j: nat)
    requires i < j < |s| && s[i] == s[j]
    ensures multiset(s)[s[i]] >= 2
  {
    assert s == s[..j] + [s[j]] + s[j + 1..];
    assert s[i] in s[..j];
  }

  lemma TwoOfCount(s: seq<string>, x: string) returns (i: nat, j: nat)
    requires multiset(s)[x] >= 2
    ensures i < j < |s| && s[i] == s[j] == x
  {
    var k :| 0 <= k < |s| && s[k] == x;
    assert s == s[..k] + [x] + s[k + 1..];
    assert x in s[..k] || x in s[k + 1..];
    if x in s[..k] {
      i :| 0 <= i < k && s[i] == x;
      j := k;
    } else {
      i := k;
      j :| k < j < |s| && s[j] == x;
    }
  }

  lemma CountOfDifferent(s: seq<string>, x: string)
    requires AllDifferent(s)
    ensures multiset(s)[x] <= 1
  {
    if multiset(s)[x] >= 2 {
      var i, j := TwoOfCount(s, x);
    }
  }

  lemma ShuffleKeepsDistinct(s: seq<string>, t: seq<string>)
    requires multiset(s) == multiset(t) && AllDifferent(s)
    ensures AllDifferent(t) && forall n :: n in s <==> n in t
  {
    forall n ensures n in s <==> n in t {
      assert n in multiset(s) <==> n in multiset(t);
    }
    forall i, j | 0 <= i < j < |t| ensures Low(t[i]) != Low(t[j]) {
      CountOfDifferent(s, t[i]);
      if t[i] == t[j] {
        CountOfTwo(t, i, j);
      } else {
        assert t[i] in s && t[j] in s;
        var a :| 0 <= a < |s| && s[a] == t[i];
        var b :| 0 <= b < |s| && s[b] == t[j];
        assert a < b || b < a;
      }
    }
  }

  function Flat(parts: seq<seq<string>>): seq<string> {
    if parts == [] then [] else Flat(parts[..|parts| - 1]) + parts[|parts| - 1]
  }

  /** The shares not yet dealt after `k` kingdoms. */
  function Left(order: seq<string>, k: nat): seq<string>
    requires k <= 3
    decreases 3 - k
  {
    if k == 3 then [] else Own(order, k) + Left(order, k + 1)
  }

  lemma SharesCoverTheList(order: seq<string>)
    ensures multiset(Left(order, 0)) == multiset(order)
    ensures forall n | n in Left(order, 0) :: exists k: nat :: k < 3 && n in Own(order, k)
  {
    var s := Share(order);
    assert order == order[..s] + order[s..2 * s] + order[2 * s..3 * s] + order[3 * s..];
    assert Own(order, 0) == order[..s] + order[3 * s..];
    assert Left(order, 0) == Own(order, 0) + (Own(order, 1) + (Own(order, 2) + []));
  }

  /** The names dealt and still to be dealt, around the hand in play, are distinct
      and all counted as in use. */
  ghost predicate Tidy(before: seq<string>, h: Hand, after: seq<string>) {
    AllDifferent(before + h.out + after) && forall n | n in before + h.out + after :: Low(n) in h.seen
  }

  /** A hand holds its share first, wearable names only, and is not overfull. */
  ghost predicate Fair(own: seq<string>, out: seq<string>) {
    own <= out && AllWearable(out) && |out| <= Max(|own|, PER_KINGDOM)
  }

  lemma DistinctGrows(a: seq<string>, c: string, b: seq<string>)
    requires AllDifferent(a + b) && forall n | n in a + b :: Low(n) != Low(c)
    ensures AllDifferent(a + [c] + b)
  {
    var t := a + [c] + b;
    forall i, j | 0 <= i < j < |t| ensures Low(t[i]) != Low(t[j]) {
      var i', j' := if i < |a| then i else i - 1, if j < |a| then j else j - 1;
      if i == |a| {
        assert t[j] == (a + b)[j'];
      } else if j == |a| {
        assert t[i] == (a + b)[i'];
      } else {
        assert t[i] == (a + b)[i'] && t[j] == (a + b)[j'];
      }
    }
  }

  lemma DealOneKeeps(before: seq<string>, h: Hand, after: seq<string>, own: seq<string>, name: string, s: string)
    requires Tidy(before, h, after) && Fair(own, h.out)
    requires Wearable(name) && 1 <= |s| <= 2 && forall c | c in s :: IsDigit(c) || c == 'v'
    ensures Tidy(before, DealOne(h, name, s), after) && Fair(own, DealOne(h, name, s).out)
  {
    var c := Candidate(name, s);
    if |h.out| < PER_KINGDOM && Low(c) !in h.seen {
      CandidateIsWearable(name, s);
      assert before + h.out + after == (before + h.out) + after;
      DistinctGrows(before + h.out, c, after);
      assert before + (h.out + [c]) + after == (before + h.out) + [c] + after;
    }
  }

  lemma {:induction false} DealRoundKeeps(
    before: seq<string>, h: Hand, after: seq<string>, own: seq<string>, r: Round, i: nat)
    requires Tidy(before, h, after) && Fair(own, h.out)
    requires i <= |r.source| && SuffixesOk(r.suffixes) && AllWearable(r.source)
    ensures Tidy(before, DealRound(h, r, i), after) && Fair(own, DealRound(h, r, i).out)
  {
    if i > 0 {
      DealRoundKeeps(before, h, after, own, r, i - 1);
      DealOneKeeps(before, DealRound(h, r, i - 1), after, own, r.source[i - 1], SuffixAt(r, i - 1));
    }
  }

  lemma {:induction false} DealRoundsKeep(
    before: seq<string>, h: Hand, after: seq<string>, own: seq<string>, rounds: seq<Round>, n: nat)
    requires Tidy(before, h, after) && Fair(own, h.out)
    requires n <= |rounds| && RoundsOk(rounds) && forall r | r in rounds :: AllWearable(r.source)
    ensures Tidy(before, DealRounds(h, rounds, n), after) && Fair(own, DealRounds(h, rounds, n).out)
  {
    if n > 0 {
      DealRoundsKeep(before, h, after, own, rounds, n - 1);
      var last := rounds[n - 1];
      DealRoundKeeps(before, DealRounds(h, rounds, n - 1), after, own, last, |last.source|);
    }
  }

  lemma KingdomKeeps(before: seq<string>, own: seq<string>, after: seq<string>, order: seq<string>, seen: set<string>)
    requires Tidy(before, Hand(own, seen), after) && AllWearable(own) && AllWearable(order)
    ensures Tidy(before, Kingdom(own, order, seen), after) && Fair(own, Kingdom(own, order, seen).out)
  {
    var rounds := Rounds(own, order);
    forall r | r in rounds ensures AllWearable(r.source) {
      assert r.source == own || r.source == order;
    }
    DealRoundsKeep(before, Hand(own, seen), after, own, rounds, |rounds|);
  }

  // ----- the whole pool ---------------------------------------------------

  lemma HandBegins(before: seq<string>, own: seq<string>, rest: seq<string>, seen: set<string>)
    requires Tidy(before, Hand([], seen), own + rest)
    ensures Tidy(before, Hand(own, seen), rest)
  {
    assert before + [] + (own + rest) == before + own + rest;
  }

  lemma HandEnds(hands: seq<seq<string>>, h: Hand, rest: seq<string>)
    requires Tidy(Flat(hands), h, rest)
    ensures Tidy(Flat(hands + [h.out]), Hand([], h.seen), rest)
  {
    FlatGrows(hands, h.out);
    assert Flat(hands) + h.out + rest == Flat(hands + [h.out]) + [] + rest;
  }

  lemma NothingDealt(order: seq<string>)
    requires AllDifferent(order)
    ensures Tidy([], Hand([], Hands(order, 0).1), Left(order, 0))
  {
    SharesCoverTheList(order);
    ShuffleKeepsDistinct(order, Left(order, 0));
    assert [] + [] + Left(order, 0) == Left(order, 0);
  }

  lemma PartIsWearable(order: seq<string>, a: nat, b: nat)
    requires a <= b <= |order| && AllWearable(order)
    ensures AllWearable(order[a..b])
  {
  }

  lemma OwnIsWearable(order: seq<string>, k: nat)
    requires k < 3 && AllWearable(order)
    ensures AllWearable(Own(order, k))
  {
    var share := Share(order);
    PartIsWearable(order, k * share, (k + 1) * share);
    PartIsWearable(order, 3 * share, |order|);
    assert order[3 * share..|order|] == order[3 * share..];
  }

  lemma PlayKingdom(before: seq<string>, own: seq<string>, rest: seq<string>, order: seq<string>, seen: set<string>)
    returns (h: Hand)
    requires AllWearable(own) && AllWearable(order) && Tidy(before, Hand([], seen), own + rest)
    ensures h == Kingdom(own, order, seen) && Tidy(before, h, rest) && Fair(own, h.out)
  {
    HandBegins(before, own, rest, seen);
    KingdomKeeps(before, own, rest, order, seen);
    h := Kingdom(own, order, seen);
  }

  lemma NextHand(order: seq<string>, k: nat) returns (h: Hand)
    requires k < 3 && AllWearable(order)
    requires Tidy(Flat(Hands(order, k).0), Hand([], Hands(order, k).1), Left(order, k))
    ensures Hands(order, k + 1) == (Hands(order, k).0 + [h.out], h.seen)
    ensures Tidy(Flat(Hands(order, k).0), h, Left(order, k + 1)) && Fair(Own(order, k), h.out)
  {
    OwnIsWearable(order, k);
    h := PlayKingdom(Flat(Hands(order, k).0), Own(order, k), Left(order, k + 1), order, Hands(order, k).1);
  }

  lemma {:induction false} HandsAreTidy(order: seq<string>, k: nat)
    requires k <= 3 && AllDifferent(order) && AllWearable(order)
    ensures Tidy(Flat(Hands(order, k).0), Hand([], Hands(order, k).1), Left(order, k))
    ensures forall j: nat | j < k :: Fair(Own(order, j), Hands(order, k).0[j])
  {
    if k == 0 {
      NothingDealt(order);
    } else {
      HandsAreTidy(order, k - 1);
      var h := NextHand(order, k - 1);
      HandEnds(Hands(order, k - 1).0, h, Left(order, k));
    }
  }

  lemma FlatGrows(parts: seq<seq<string>>, last: seq<string>)
    ensures Flat(parts + [last]) == Flat(parts) + last
  {
    assert (parts + [last])[..|parts|] == parts;
  }

  /** For every list the cleaning accepts and every shuffle of it: no two names of
      the pool are the same ignoring case, every one can be worn, each kingdom has
      its share first and no more than it may, and every written name is dealt. */
  lemma PoolIsFair(base: seq<string>, order: seq<string>)
    requires AllDifferent(base) && AllWearable(base) && multiset(order) == multiset(base)
    ensures var hands := Hands(order, 3).0;
      && AllDifferent(Flat(hands))
      && (forall k: nat | k < 3 :: Fair(Own(order, k), hands[k]))
      && (forall n | n in base :: exists k: nat :: k < 3 && n in hands[k])
  {
    ShuffleKeepsDistinct(base, order);
    SharesCoverTheList(order);
    HandsAreTidy(order, 3);
    var hands := Hands(order, 3).0;
    assert Flat(hands) + [] + Left(order, 3) == Flat(hands);
    ShuffleKeepsDistinct(order, Left(order, 0));
    forall n | n in base ensures exists k: nat :: k < 3 && n in hands[k] {
      assert n in Left(order, 0);
      var k: nat :| k < 3 && n in Own(order, k);
      assert Fair(Own(order, k), hands[k]);
    }
  }

  function NamesOf(rows: seq<PoolRow>): seq<string> {
    seq(|rows|, i requires 0 <= i < |rows| => rows[i].name)
  }

  lemma {:induction false} RowsHoldHands(hands: seq<seq<string>>)
    requires |hands| <= 3
    ensures NamesOf(RowsOfAll(hands)) == Flat(hands)
  {
    if hands != [] {
      var k := |hands| - 1;
      RowsHoldHands(hands[..k]);
      var a, b := RowsOfAll(hands[..k]), RowsOf(KINGDOMS[k], hands[k]);
      assert NamesOf(a + b) == NamesOf(a) + NamesOf(b);
      assert NamesOf(b) == hands[k];
    }
  }

  /** No name is in the pool twice, ignoring case, whichever kingdom it is for. */
  lemma PoolNamesDiffer(base: seq<string>, order: seq<string>)
    requires AllDifferent(base) && AllWearable(base) && multiset(order) == multiset(base)
    ensures AllDifferent(NamesOf(Pool(order)))
  {
    PoolIsFair(base, order);
    RowsHoldHands(Hands(order, 3).0);
  }
}
