/** Dealing the pool's names to the bots, and taking them back. Characters and
    the rename history are tables keyed by PID; `fold` is the collation's
    comparison key, and `BINARY` comparisons are plain equality. */
module NameDeal {
  import opened Common
  import opened NamePool
  import NamePoolTheorems

  type Pid = nat
  type Version = string

  /** The account behind a character: whether its login is a bot's, and the
      kingdom its player_index row names, if it has one. */
  datatype Account = Account(bot: bool, empire: Option<int>)

  /** A character whose account row is missing joins nothing. */
  datatype Character = Character(name: string, account: Option<Account>)

  datatype Past = Past(seedName: string, humanName: string, version: Version)

  datatype World = World(players: map<Pid, Character>, history: map<Pid, Past>)

  /** The collation: which spellings the database takes for the same name. */
  type Fold = string -> string

  predicate IsBot(c: Character) {
    c.account.Some? && c.account.value.bot
  }

  function Kingdom(c: Character): int
    requires c.account.Some?
  {
    match c.account.value.empire
    case Some(e) => if e == 1 || e == 2 || e == 3 then e else 2
    case None => 2
  }

  /** Still wearing the name the history gave it. */
  predicate Wears(w: World, p: Pid)
    requires p in w.players
  {
    p in w.history && w.players[p].name == w.history[p].humanName
  }

  predicate Waits(w: World, v: Version, p: Pid) {
    && p in w.players && IsBot(w.players[p])
    && (p !in w.history || (w.history[p].version != v && Wears(w, p)))
    && (p !in w.history || Wears(w, p) || w.players[p].name == w.history[p].seedName)
  }

  /** Waiting bots of one kingdom. */
  function Waiting(w: World, v: Version, k: int): set<Pid> {
    set p | p in w.players && Waits(w, v, p) && Kingdom(w.players[p]) == k
  }

  /** A character whose name is not to be dealt to anybody else. */
  predicate Keeps(w: World, v: Version, p: Pid)
    requires p in w.players
  {
    var c := w.players[p];
    c.account.Some? &&
    ( || !c.account.value.bot
      || (Wears(w, p) && w.history[p].version == v)
      || (p in w.history && !Wears(w, p) && c.name != w.history[p].seedName))
  }

  predicate Taken(w: World, v: Version, fold: Fold, name: string) {
    exists p | p in w.players :: fold(w.players[p].name) == fold(name) && Keeps(w, v, p)
  }

  /** Where in the pool the free names of one kingdom stand. */
  function Free(w: World, v: Version, fold: Fold, pool: seq<PoolRow>, k: int): set<nat> {
    set i | 0 <= i < |pool| && pool[i].empire == k && !Taken(w, v, fold, pool[i].name) :: i
  }

  /** ROW_NUMBER: how many come before. */
  function Rank(s: set<nat>, x: nat): nat {
    |set y | y in s && y < x|
  }

  /** The plan's join: same kingdom, same number. */
  predicate Matched(w: World, v: Version, fold: Fold, pool: seq<PoolRow>, p: Pid, i: nat) {
    && Waits(w, v, p)
    && var k := Kingdom(w.players[p]);
       i in Free(w, v, fold, pool, k) && Rank(Free(w, v, fold, pool, k), i) == Rank(Waiting(w, v, k), p)
  }

  predicate Planned(w: World, v: Version, fold: Fold, pool: seq<PoolRow>, p: Pid) {
    exists i: nat | i < |pool| :: Matched(w, v, fold, pool, p, i)
  }

  // ----- row numbers ------------------------------------------------------

  lemma RankGrows(s: set<nat>, x: nat, y: nat)
    requires x in s && x < y
    ensures Rank(s, x) < Rank(s, y)
  {
    var a, b := set z | z in s && z < x, set z | z in s && z < y;
    assert a + {x} <= b;
    assert b == (a + {x}) + (b - (a + {x}));
  }

  /** Whoever comes first among `s` gets the number that comes first among `r`. */
  lemma RanksFollow(s: set<nat>, p: nat, q: nat, r: set<nat>, i: nat, j: nat)
    requires p in s && p < q && i in r && j in r
    requires Rank(r, i) == Rank(s, p) && Rank(r, j) == Rank(s, q)
    ensures i < j
  {
    RankGrows(s, p, q);
    if j < i {
      RankGrows(r, j, i);
    }
  }

  lemma RankIsBelowSize(s: set<nat>, x: nat)
    requires x in s
    ensures Rank(s, x) < |s|
  {
    var a := set z | z in s && z < x;
    assert a + {x} <= s;
    assert s == (a + {x}) + (s - (a + {x}));
  }

  lemma {:induction false} Greatest(s: set<nat>) returns (m: nat)
    requires s != {}
    ensures m in s && forall x | x in s :: x <= m
    decreases |s|
  {
    m :| m in s;
    var rest := s - {m};
    assert forall x | x in s :: x == m || x in rest;
    if rest != {} {
      var n := Greatest(rest);
      m := if n > m then n else m;
    }
  }

  /** Numbering leaves no gap: every number below the size is somebody's. */
  lemma {:induction false} RankIsReached(s: set<nat>, r: nat) returns (x: nat)
    requires r < |s|
    ensures x in s && Rank(s, x) == r
    decreases |s|
  {
    var m := Greatest(s);
    var rest := s - {m};
    if r == |s| - 1 {
      x := m;
      assert (set z | z in s && z < m) == rest;
    } else {
      x := RankIsReached(rest, r);
      assert (set z | z in s && z < x) == (set z | z in rest && z < x);
    }
  }

  lemma MatchIsUnique(w: World, v: Version, fold: Fold, pool: seq<PoolRow>, p: Pid, i: nat, j: nat)
    requires Matched(w, v, fold, pool, p, i) && Matched(w, v, fold, pool, p, j)
    ensures i == j
  {
    var free := Free(w, v, fold, pool, Kingdom(w.players[p]));
    if i < j {
      RankGrows(free, i, j);
    } else if j < i {
      RankGrows(free, j, i);
    }
  }

  // ----- the statements ---------------------------------------------------

  function PlannedIndex(w: World, v: Version, fold: Fold, pool: seq<PoolRow>, p: Pid): (i: nat)
    requires Planned(w, v, fold, pool, p)
    ensures i < |pool| && Matched(w, v, fold, pool, p, i)
  {
    assert forall i: nat, j: nat | Matched(w, v, fold, pool, p, i) && Matched(w, v, fold, pool, p, j) :: i == j by {
      forall i: nat, j: nat | Matched(w, v, fold, pool, p, i) && Matched(w, v, fold, pool, p, j) ensures i == j {
        MatchIsUnique(w, v, fold, pool, p, i, j);
      }
    }
    var i: nat :| i < |pool| && Matched(w, v, fold, pool, p, i); i
  }

  type Plan = map<Pid, string>

  function PlanOf(w: World, v: Version, fold: Fold, pool: seq<PoolRow>): Plan {
    map p | p in w.players && Planned(w, v, fold, pool, p) :: pool[PlannedIndex(w, v, fold, pool, p)].name
  }

  /** A first deal remembers the name worn so far; a later one keeps what the
      first remembered. */
  function Recorded(w: World, v: Version, plan: Plan): map<Pid, Past>
    requires plan.Keys <= w.players.Keys
  {
    map p | p in w.history.Keys + plan.Keys ::
      if p !in plan then w.history[p]
      else if p in w.history then w.history[p].(humanName := plan[p], version := v)
      else Past(w.players[p].name, plan[p], v)
  }

  function Renamed(players: map<Pid, Character>, plan: Plan): map<Pid, Character> {
    map p | p in players :: if p in plan then players[p].(name := plan[p]) else players[p]
  }

  function Dealt(w: World, v: Version, fold: Fold, pool: seq<PoolRow>): World {
    var plan := PlanOf(w, v, fold, pool);
    World(Renamed(w.players, plan), Recorded(w, v, plan))
  }

  function GivenBack(w: World): map<Pid, Character> {
    map p | p in w.players ::
      if Wears(w, p) then w.players[p].(name := w.history[p].seedName) else w.players[p]
  }

  function Restored(w: World): World {
    World(GivenBack(w), map[])
  }

  /** What the operator asked of the script. */
  datatype Mode = LeaveNames | DealNames | RestoreNames

  function Script(w: World, mode: Mode, v: Version, fold: Fold, pool: seq<PoolRow>): World {
    match mode
    case LeaveNames => w
    case DealNames => Dealt(w, v, fold, pool)
    case RestoreNames => Restored(w)
  }

  /** The two tables and the script that runs over them, statement by statement. */
  class NameTables {
    var players: map<Pid, Character>
    var history: map<Pid, Past>

    function Now(): World
      reads this
    {
      World(players, history)
    }

    method Run(mode: Mode, v: Version, fold: Fold, pool: seq<PoolRow>) returns (plan: Plan)
      modifies this
      ensures Now() == Script(old(Now()), mode, v, fold, pool)
      ensures plan == if mode == DealNames then PlanOf(old(Now()), v, fold, pool) else map[]
    {
      if mode == RestoreNames {
        players := GivenBack(Now());
        history := map[];
      }
      plan := if mode == DealNames then PlanOf(Now(), v, fold, pool) else map[];
      history := Recorded(Now(), v, plan);
      players := Renamed(players, plan);
    }
  }

  // ----- one deal ---------------------------------------------------------

  /** A pool whose names the database's unique key accepts. */
  ghost predicate UniqueKey(fold: Fold, pool: seq<PoolRow>) {
    forall i, j | 0 <= i < j < |pool| :: fold(pool[i].name) != fold(pool[j].name)
  }

  /** The pool built from a cleaned list is one the key accepts when spellings
      differ only by case. */
  lemma BuiltPoolFitsTheKey(base: seq<string>, order: seq<string>)
    requires AllDifferent(base) && NamePool.AllWearable(base) && multiset(order) == multiset(base)
    ensures UniqueKey(Low, Pool(order))
  {
    NamePoolTheorems.PoolNamesDiffer(base, order);
    var names := NamePoolTheorems.NamesOf(Pool(order));
    forall i, j | 0 <= i < j < |Pool(order)| ensures Low(Pool(order)[i].name) != Low(Pool(order)[j].name) {
      assert Low(names[i]) != Low(names[j]);
    }
  }

  ghost predicate EnoughNames(w: World, v: Version, fold: Fold, pool: seq<PoolRow>) {
    forall k | 1 <= k <= 3 :: |Waiting(w, v, k)| <= |Free(w, v, fold, pool, k)|
  }

  ghost predicate EveryoneHasAccount(w: World) {
    forall p | p in w.players :: w.players[p].account.Some?
  }

  /** No bot that went back to its seed name wears a pool name by it. */
  ghost predicate SeedNamesOutsidePool(w: World, fold: Fold, pool: seq<PoolRow>) {
    forall p, i | p in w.players && p in w.history && w.players[p].name == w.history[p].seedName && 0 <= i < |pool| ::
      fold(w.players[p].name) != fold(pool[i].name)
  }

  lemma EveryoneWaitingIsPlanned(w: World, v: Version, fold: Fold, pool: seq<PoolRow>, p: Pid)
    requires EnoughNames(w, v, fold, pool) && Waits(w, v, p)
    ensures Planned(w, v, fold, pool, p)
  {
    var k := Kingdom(w.players[p]);
    var waiting, free := Waiting(w, v, k), Free(w, v, fold, pool, k);
    assert p in waiting;
    RankIsBelowSize(waiting, p);
    assert |waiting| <= |free|;
    var i := RankIsReached(free, Rank(waiting, p));
    assert Matched(w, v, fold, pool, p, i);
  }

  lemma TwoPlansTwoNames(w: World, v: Version, fold: Fold, pool: seq<PoolRow>, p: Pid, q: Pid)
    requires p != q && Planned(w, v, fold, pool, p) && Planned(w, v, fold, pool, q)
    ensures PlannedIndex(w, v, fold, pool, p) != PlannedIndex(w, v, fold, pool, q)
  {
    var i, j := PlannedIndex(w, v, fold, pool, p), PlannedIndex(w, v, fold, pool, q);
    var k := Kingdom(w.players[p]);
    if i == j {
      assert k == pool[i].empire == Kingdom(w.players[q]);
      assert p in Waiting(w, v, k) && q in Waiting(w, v, k);
      if p < q {
        RankGrows(Waiting(w, v, k), p, q);
      } else {
        RankGrows(Waiting(w, v, k), q, p);
      }
    }
  }

  /** A character outside the plan never wears a name the plan gives away. */
  lemma OthersKeepOff(w: World, v: Version, fold: Fold, pool: seq<PoolRow>, p: Pid, q: Pid)
    requires EnoughNames(w, v, fold, pool) && EveryoneHasAccount(w) && SeedNamesOutsidePool(w, fold, pool)
    requires Planned(w, v, fold, pool, p) && q in w.players && !Planned(w, v, fold, pool, q)
    ensures fold(w.players[q].name) != fold(pool[PlannedIndex(w, v, fold, pool, p)].name)
  {
    var i := PlannedIndex(w, v, fold, pool, p);
    assert !Taken(w, v, fold, pool[i].name);
    if Waits(w, v, q) {
      EveryoneWaitingIsPlanned(w, v, fold, pool, q);
    }
  }

  /** After a deal every dealt name is worn by exactly the one bot it went to. */
  lemma DealtNamesAreUnique(w: World, v: Version, fold: Fold, pool: seq<PoolRow>, p: Pid, q: Pid)
    requires UniqueKey(fold, pool) && EnoughNames(w, v, fold, pool)
    requires EveryoneHasAccount(w) && SeedNamesOutsidePool(w, fold, pool)
    requires p in PlanOf(w, v, fold, pool) && q in w.players
    ensures var after := Dealt(w, v, fold, pool);
      && after.players[p].name == PlanOf(w, v, fold, pool)[p]
      && (fold(after.players[q].name) == fold(after.players[p].name) <==> q == p)
  {
    if q != p {
      if Planned(w, v, fold, pool, q) {
        TwoPlansTwoNames(w, v, fold, pool, p, q);
      } else {
        OthersKeepOff(w, v, fold, pool, p, q);
      }
    }
  }

  lemma NobodyWaitsAfter(w: World, v: Version, fold: Fold, pool: seq<PoolRow>, p: Pid)
    requires EnoughNames(w, v, fold, pool)
    ensures !Waits(Dealt(w, v, fold, pool), v, p)
  {
    if Waits(w, v, p) {
      EveryoneWaitingIsPlanned(w, v, fold, pool, p);
    }
  }

  lemma EmptyPlanIsIdle(w: World, v: Version, fold: Fold, pool: seq<PoolRow>)
    requires forall p :: !Waits(w, v, p)
    ensures PlanOf(w, v, fold, pool) == map[] && Dealt(w, v, fold, pool) == w
  {
    assert Renamed(w.players, map[]) == w.players;
    assert Recorded(w, v, map[]) == w.history;
  }

  /** A second run of the same version finds nobody waiting and changes nothing,
      whatever pool it is given. */
  lemma SecondDealIsIdle(w: World, v: Version, fold: Fold, pool: seq<PoolRow>, fold': Fold, pool': seq<PoolRow>)
    requires EnoughNames(w, v, fold, pool)
    ensures PlanOf(Dealt(w, v, fold, pool), v, fold', pool') == map[]
    ensures Dealt(Dealt(w, v, fold, pool), v, fold', pool') == Dealt(w, v, fold, pool)
  {
    var after := Dealt(w, v, fold, pool);
    forall p ensures !Waits(after, v, p) {
      NobodyWaitsAfter(w, v, fold, pool, p);
    }
    EmptyPlanIsIdle(after, v, fold', pool');
  }

  /** Names go out in list order by PID: of two bots of one kingdom the lower PID
      gets the earlier name, from its own kingdom's part of the pool. */
  lemma DealtInOrder(w: World, v: Version, fold: Fold, pool: seq<PoolRow>, p: Pid, q: Pid)
    requires Planned(w, v, fold, pool, p) && Planned(w, v, fold, pool, q) && p < q
    requires Kingdom(w.players[p]) == Kingdom(w.players[q])
    ensures PlannedIndex(w, v, fold, pool, p) < PlannedIndex(w, v, fold, pool, q)
    ensures pool[PlannedIndex(w, v, fold, pool, p)].empire == Kingdom(w.players[p])
  {
    var i, j, k := PlannedIndex(w, v, fold, pool, p), PlannedIndex(w, v, fold, pool, q), Kingdom(w.players[p]);
    assert p in Waiting(w, v, k);
    RanksFollow(Waiting(w, v, k), p, q, Free(w, v, fold, pool, k), i, j);
  }

  /** A deal renames exactly the bots it planned for, all of them waiting, and so
      nobody else: not a person, not a bot settled on this version, not one an
      operator renamed by hand. */
  lemma OthersAreLeftAlone(w: World, v: Version, fold: Fold, pool: seq<PoolRow>, p: Pid)
    requires p in w.players
    ensures Keeps(w, v, p) ==> !Waits(w, v, p)
    ensures !Waits(w, v, p) ==> !Planned(w, v, fold, pool, p)
    ensures var after := Dealt(w, v, fold, pool);
      !Planned(w, v, fold, pool, p) ==>
        after.players[p] == w.players[p] && (p in after.history <==> p in w.history)
        && (p in w.history ==> after.history[p] == w.history[p])
  {
  }

  // ----- any number of runs -----------------------------------------------

  /** A run of the script, or what happens to the tables between runs. */
  datatype Event =
    | Ran(mode: Mode, v: Version, fold: Fold, pool: seq<PoolRow>)
    | RenamedByHand(p: Pid, name: string)
    | Created(p: Pid, c: Character)
    | Deleted(p: Pid)
    | Forgotten(p: Pid)

  /** The seed makes missing characters anew under their old PID, and forgets the
      nickname of a missing one first; nobody else uses a PID twice. */
  predicate CanHappen(w: World, e: Event) {
    match e
    case Ran(_, _, _, _) => true
    case RenamedByHand(p, _) => p in w.players
    case Created(p, _) => p !in w.players && p !in w.history
    case Deleted(p) => p in w.players
    case Forgotten(p) => p !in w.players
  }

  function Happen(w: World, e: Event): World
    requires CanHappen(w, e)
  {
    match e
    case Ran(mode, v, fold, pool) => Script(w, mode, v, fold, pool)
    case RenamedByHand(p, name) => w.(players := w.players[p := w.players[p].(name := name)])
    case Created(p, c) => w.(players := w.players[p := c])
    case Deleted(p) => w.(players := w.players - {p})
    case Forgotten(p) => w.(history := w.history - {p})
  }

  predicate Plausible(w: World, es: seq<Event>)
    decreases |es|, 0
  {
    es == [] || (Plausible(w, es[..|es| - 1]) && CanHappen(Lived(w, es[..|es| - 1]), es[|es| - 1]))
  }

  function Lived(w: World, es: seq<Event>): World
    requires Plausible(w, es)
    decreases |es|, 1
  {
    if es == [] then w else Happen(Lived(w, es[..|es| - 1]), es[|es| - 1])
  }

  ghost predicate Forgets(e: Event, p: Pid) {
    (e.Ran? && e.mode == RestoreNames) || (e.Forgotten? && e.p == p)
  }

  /** `e` deals `p` a name it has none remembered for. */
  ghost predicate Deals(w: World, e: Event, p: Pid) {
    p in w.players && p !in w.history && e.Ran? && e.mode == DealNames && Planned(w, e.v, e.fold, e.pool, p)
  }

  ghost predicate NeverForgets(es: seq<Event>, p: Pid) {
    forall e | e in es :: !Forgets(e, p)
  }

  /** Event `k` is the first deal of `p` since the names were last taken back, or
      `p`'s own was forgotten. */
  ghost predicate FirstDealt(w: World, es: seq<Event>, k: nat, p: Pid)
    requires Plausible(w, es)
  {
    && k < |es| && Plausible(w, es[..k]) && Deals(Lived(w, es[..k]), es[k], p) && NeverForgets(es[k + 1..], p)
  }

  /** `name` is what `p` wore just before its first deal, event `k`. */
  ghost predicate WoreBefore(w: World, es: seq<Event>, k: nat, p: Pid, name: string)
    requires Plausible(w, es)
  {
    FirstDealt(w, es, k, p) && Lived(w, es[..k]).players[p].name == name
  }

  /** One event either keeps what is remembered for `p`, or deals it its first name. */
  lemma Remembers(w: World, e: Event, p: Pid)
    requires CanHappen(w, e) && p in Happen(w, e).history
    ensures if p in w.history then !Forgets(e, p) && Happen(w, e).history[p].seedName == w.history[p].seedName
            else Deals(w, e, p) && Happen(w, e).history[p].seedName == w.players[p].name
  {
  }

  lemma NeverForgetsGrows(es: seq<Event>, k: nat, p: Pid)
    requires k + 1 < |es| && NeverForgets(es[..|es| - 1][k + 1..], p) && !Forgets(es[|es| - 1], p)
    ensures NeverForgets(es[k + 1..], p)
  {
    assert es[k + 1..] == es[..|es| - 1][k + 1..] + [es[|es| - 1]];
  }

  lemma StillFirst(w: World, es: seq<Event>, k: nat, p: Pid)
    requires |es| > 0 && Plausible(w, es) && FirstDealt(w, es[..|es| - 1], k, p) && !Forgets(es[|es| - 1], p)
    ensures FirstDealt(w, es, k, p) && es[..|es| - 1][..k] == es[..k]
  {
    var front := es[..|es| - 1];
    assert front[..k] == es[..k] && front[k] == es[k];
    NeverForgetsGrows(es, k, p);
  }

  /** The name remembered for a bot is the one it wore before its first deal. */
  lemma {:induction false} SeedNameIsFirstName(w: World, es: seq<Event>, p: Pid) returns (k: nat)
    requires w.history == map[] && Plausible(w, es) && p in Lived(w, es).history
    ensures WoreBefore(w, es, k, p, Lived(w, es).history[p].seedName)
  {
    var n := |es| - 1;
    Remembers(Lived(w, es[..n]), es[n], p);
    if p in Lived(w, es[..n]).history {
      k := SeedNameIsFirstName(w, es[..n], p);
      StillFirst(w, es, k, p);
    } else {
      k := n;
    }
  }

  /** After any history of deals, hand renames, new, deleted and recreated
      characters, taking the names back gives every bot that still wears its dealt
      name the name it had before its first deal, and touches nobody else. */
  lemma RestoreUndoesEveryDeal(w: World, es: seq<Event>, p: Pid)
    requires w.history == map[] && Plausible(w, es) && p in Lived(w, es).players
    ensures var now := Lived(w, es);
      var back := Restored(now);
      && back.history == map[] && p in back.players && back.players[p].account == now.players[p].account
      && if Wears(now, p)
         then exists k: nat :: WoreBefore(w, es, k, p, back.players[p].name)
         else back.players[p] == now.players[p]
  {
    if Wears(Lived(w, es), p) {
      var k := SeedNameIsFirstName(w, es, p);
      assert WoreBefore(w, es, k, p, Lived(w, es).history[p].seedName);
    }
  }
}
