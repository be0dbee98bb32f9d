/** What the seed promises: any number of interrupted runs come to the same end,
    finished bots are never touched again, and no check fires. */
module SeedTheorems {
  import opened Common
  import opened SeedTables
  import opened SeedBot
  import opened SeedRuns
  import opened SeedResume

  // ----- a whole run ------------------------------------------------------

  /** What a run to the end makes of every registry line: the closed form for a PID
      it cares for, and nothing but a forgotten nickname for one it leaves alone. */
  lemma WholeRunMakes(reg: Registry, start: Tables, orders: Orders, p: Pid)
    requires WellFormed(reg) && Keyed(reg, start) && Thorough(reg, start, orders) && p in reg.specs
    ensures var b, c := BotOf(reg, start, p), BotOf(reg, Seeded(reg, start, orders), p);
      if Skipped(reg, start, p) then c == (if b.player.Some? then b else b.(past := None))
      else c == Done(LineOf(reg, p), b)
  {
    SeededUnderway(reg, start, orders);
    var run, b := RunOf(reg, start), BotOf(reg, start, p);
    assert BotOf(reg, Seeded(reg, start, orders), p) == BotAt(reg, run, b, p, Progress(STATEMENTS, {}, p));
    if p in run.spec {
      NotSkippedIsSound(reg, start, p);
      AllStagesAreDone(LineOf(reg, p), b);
    }
  }

  // ----- interrupted runs -------------------------------------------------

  lemma ResumedBot(
    reg: Registry, start: Tables, t: Tables, k: nat, done: set<Pid>, again: Orders, whole: Orders, p: Pid)
    requires WellFormed(reg) && Keyed(reg, start) && k < STATEMENTS && p in reg.specs
    requires Underway(reg, RunOf(reg, start), start, t, k, done)
    requires Thorough(reg, t, again) && Thorough(reg, start, whole)
    ensures BotOf(reg, Seeded(reg, t, again), p) == BotOf(reg, Seeded(reg, start, whole), p)
  {
    var run, run', b := RunOf(reg, start), RunOf(reg, t), BotOf(reg, start, p);
    var m := Progress(k, done, p);
    SeededUnderway(reg, start, whole);
    SeededUnderway(reg, t, again);
    assert BotOf(reg, t, p) == BotAt(reg, run, b, p, m);
    assert BotOf(reg, Seeded(reg, start, whole), p) == BotAt(reg, run, b, p, STATEMENTS);
    assert BotOf(reg, Seeded(reg, t, again), p) == BotAt(reg, run', BotAt(reg, run, b, p, m), p, STATEMENTS);
    RestartCaresForTheSame(reg, start, t, k, done, p);
    BotEndsTheSame(reg, start, run, run', p, m);
  }

  lemma BotEndsTheSame(reg: Registry, start: Tables, run: Run, run': Run, p: Pid, m: nat)
    requires WellFormed(reg) && Keyed(reg, start) && run == RunOf(reg, start)
    requires p in reg.specs && (p in run'.spec <==> p in run.spec) && m <= STATEMENTS
    ensures var b := BotOf(reg, start, p);
      BotAt(reg, run', BotAt(reg, run, b, p, m), p, STATEMENTS) == BotAt(reg, run, b, p, STATEMENTS)
  {
    if p in run.spec {
      NotSkippedIsSound(reg, start, p);
      RestartEndsTheSame(LineOf(reg, p), BotOf(reg, start, p), m);
    } else {
      StageTwice(LineOf(reg, p), false, BotOf(reg, start, p), 0);
    }
  }

  lemma PlayerStays(reg: Registry, run: Run, start: Tables, p: Pid, m: nat)
    requires Fits(reg, run, start) && p in reg.specs && m <= STATEMENTS
    ensures var b := BotOf(reg, start, p);
      b.player.Some? ==> BotAt(reg, run, b, p, m).player == b.player
  {
    if p in run.spec {
      StagesSpare(LineOf(reg, p), BotOf(reg, start, p), m);
    }
  }

  lemma CharactersStay(reg: Registry, run: Run, start: Tables, t: Tables, k: nat, done: set<Pid>, p: Pid)
    requires Fits(reg, run, start) && k < STATEMENTS && Underway(reg, run, start, t, k, done)
    ensures p in start.players ==> Find(t.players, p) == Find(start.players, p)
  {
    if p in reg.specs {
      assert BotOf(reg, t, p) == BotAt(reg, run, BotOf(reg, start, p), p, Progress(k, done, p));
      PlayerStays(reg, run, start, p, Progress(k, done, p));
    } else {
      assert Find(t.players, p) == Find(start.players, p);
    }
  }

  lemma NewcomersHaveNoPast(reg: Registry, run: Run, start: Tables, t: Tables, k: nat, done: set<Pid>, p: Pid)
    requires Fits(reg, run, start) && k < STATEMENTS && Underway(reg, run, start, t, k, done)
    ensures p in t.players && p !in start.players ==> Find(t.history, p).None?
  {
    assert Find(t.history, p) == PastAt(start, p, Progress(k, done, p));
    if k == 0 {
      NobodyNewYet(reg, run, start, t, done, p);
    }
  }

  lemma ResumedPast(
    reg: Registry, start: Tables, t: Tables, k: nat, done: set<Pid>, again: Orders, whole: Orders, p: Pid)
    requires WellFormed(reg) && Keyed(reg, start) && k < STATEMENTS
    requires Underway(reg, RunOf(reg, start), start, t, k, done)
    requires Thorough(reg, t, again) && Thorough(reg, start, whole)
    ensures Find(Seeded(reg, t, again).history, p) == Find(Seeded(reg, start, whole).history, p)
  {
    SeededUnderway(reg, start, whole);
    SeededUnderway(reg, t, again);
    RunFits(reg, start);
    CharactersStay(reg, RunOf(reg, start), start, t, k, done, p);
    NewcomersHaveNoPast(reg, RunOf(reg, start), start, t, k, done, p);
    assert Find(Seeded(reg, start, whole).history, p) == PastAt(start, p, Progress(STATEMENTS, {}, p));
    assert Find(Seeded(reg, t, again).history, p) == PastAt(t, p, Progress(STATEMENTS, {}, p));
    assert Find(t.history, p) == PastAt(start, p, Progress(k, done, p));
  }

  /** From any point a run can have reached, a new run ends in the tables the run
      would have ended in, whatever order each visits its rows in. */
  lemma ResumeEndsTheSame(reg: Registry, start: Tables, t: Tables, k: nat, done: set<Pid>, again: Orders, whole: Orders)
    requires WellFormed(reg) && Keyed(reg, start) && k < STATEMENTS
    requires Underway(reg, RunOf(reg, start), start, t, k, done)
    requires Thorough(reg, t, again) && Thorough(reg, start, whole)
    ensures Seeded(reg, t, again) == Seeded(reg, start, whole)
  {
    var u, v := Seeded(reg, t, again), Seeded(reg, start, whole);
    forall p | p in reg.specs ensures BotOf(reg, u, p) == BotOf(reg, v, p) {
      ResumedBot(reg, start, t, k, done, again, whole, p);
    }
    forall p ensures Find(u.history, p) == Find(v.history, p) {
      ResumedPast(reg, start, t, k, done, again, whole, p);
    }
    SeededUnderway(reg, start, whole);
    SeededUnderway(reg, t, again);
    ElsewhereMeets(reg, start, t, u, v);
    SameTables(reg, u, v);
  }

  lemma ElsewhereMeets(reg: Registry, start: Tables, t: Tables, u: Tables, v: Tables)
    requires SameElsewhere(reg, start, t) && SameElsewhere(reg, t, u) && SameElsewhere(reg, start, v)
    ensures SameElsewhere(reg, u, v)
  {
  }

  /** One interrupted run: the row order it used and the write it stopped at. */
  datatype Crash = Crash(orders: Orders, k: nat, i: nat)

  ghost predicate CanCrash(reg: Registry, t: Tables, c: Crash) {
    Thorough(reg, t, c.orders) && c.k < STATEMENTS && c.i <= |c.orders(c.k)|
  }

  ghost predicate CanCrashAll(reg: Registry, t: Tables, cs: seq<Crash>)
    decreases |cs|, 0
  {
    cs == [] || (
      CanCrashAll(reg, t, cs[..|cs| - 1]) && CanCrash(reg, Crashed(reg, t, cs[..|cs| - 1]), cs[|cs| - 1]))
  }

  /** The tables after run upon run was interrupted. */
  ghost function Crashed(reg: Registry, t: Tables, cs: seq<Crash>): Tables
    requires CanCrashAll(reg, t, cs)
    decreases |cs|, 1
  {
    if cs == [] then t
    else
      var c := cs[|cs| - 1];
      Stopped(reg, Crashed(reg, t, cs[..|cs| - 1]), c.orders, c.k, c.i)
  }

  /** However many runs are stopped, each between any two row writes, and in
      whatever order each visits its rows: one run to the end leaves exactly the
      tables of a single uninterrupted run. */
  lemma {:induction false} CrashesDoNotMatter(
    reg: Registry, start: Tables, cs: seq<Crash>, again: Orders, whole: Orders)
    requires WellFormed(reg) && Keyed(reg, start) && CanCrashAll(reg, start, cs)
    requires Thorough(reg, Crashed(reg, start, cs), again) && Thorough(reg, start, whole)
    ensures Keyed(reg, Crashed(reg, start, cs))
    ensures Seeded(reg, Crashed(reg, start, cs), again) == Seeded(reg, start, whole)
  {
    if cs == [] {
      RunStarts(reg, RunOf(reg, start), start);
      ResumeEndsTheSame(reg, start, start, 0, {}, again, whole);
    } else {
      var t, c := Crashed(reg, start, cs[..|cs| - 1]), cs[|cs| - 1];
      CrashesDoNotMatter(reg, start, cs[..|cs| - 1], c.orders, whole);
      StoppedUnderway(reg, t, c.orders, c.k, c.i);
      ResumeEndsTheSame(reg, t, Crashed(reg, start, cs), c.k, Visited(c.orders(c.k)[..c.i]), again, c.orders);
    }
  }

  // ----- what a run leaves alone ------------------------------------------

  /** A PID this run has nothing to stock: not in the registry, left alone, or a
      bot the ledger calls complete or adopted, or will call adopted. */
  predicate NotStocked(reg: Registry, start: Tables, p: Pid) {
    p !in reg.specs || Skipped(reg, start, p) || !Unfinished(BotOf(reg, start, p))
  }

  lemma KitStays(reg: Registry, start: Tables, p: Pid, m: nat)
    requires WellFormed(reg) && Keyed(reg, start) && p in reg.specs && NotStocked(reg, start, p) && m <= STATEMENTS
    ensures var b, c := BotOf(reg, start, p), BotAt(reg, RunOf(reg, start), BotOf(reg, start, p), p, m);
      c.kit == b.kit && c.flag == b.flag && (b.ledger.Some? ==> c.ledger == b.ledger)
  {
    if p in RunOf(reg, start).spec {
      NotSkippedIsSound(reg, start, p);
      StagesSpare(LineOf(reg, p), BotOf(reg, start, p), m);
    }
  }

  ghost predicate CharacterKept(start: Tables, t: Tables, p: Pid) {
    p in start.players ==> p in t.players && t.players[p] == start.players[p]
  }

  ghost predicate BelongingsKept(start: Tables, t: Tables, p: Pid) {
    && (forall x: Place | x.owner == p :: Find(t.items, x) == Find(start.items, x))
    && (forall f: Flag | f.owner == p :: Find(t.quests, f) == Find(start.quests, f))
    && (p in start.ledger ==> Find(t.ledger, p) == Find(start.ledger, p))
  }

  /** A run that starts again has nothing to stock for it either. */
  lemma StillNotStocked(reg: Registry, start: Tables, t: Tables, k: nat, done: set<Pid>, p: Pid)
    requires WellFormed(reg) && Keyed(reg, start) && k < STATEMENTS && NotStocked(reg, start, p)
    requires Underway(reg, RunOf(reg, start), start, t, k, done)
    ensures NotStocked(reg, t, p)
  {
    if p in reg.specs {
      RestartCaresForTheSame(reg, start, t, k, done, p);
      if p in RunOf(reg, start).spec {
        NotSkippedIsSound(reg, start, p);
        StagesSpare(LineOf(reg, p), BotOf(reg, start, p), Progress(k, done, p));
        assert BotOf(reg, t, p) == BotAt(reg, RunOf(reg, start), BotOf(reg, start, p), p, Progress(k, done, p));
      }
    }
  }

  /** Wherever a run is stopped, every character that was there is exactly as it
      was, and a bot it has nothing to stock keeps every item and quest flag. */
  lemma FinishedBotsAreNotTouched(reg: Registry, start: Tables, orders: Orders, k: nat, i: nat, p: Pid)
    requires WellFormed(reg) && Keyed(reg, start) && Thorough(reg, start, orders) && k < STATEMENTS && i <= |orders(k)|
    ensures var t := Stopped(reg, start, orders, k, i);
      && CharacterKept(start, t, p)
      && (NotStocked(reg, start, p) ==> NotStocked(reg, t, p) && BelongingsKept(start, t, p))
  {
    var t, done := Stopped(reg, start, orders, k, i), Visited(orders(k)[..i]);
    StoppedUnderway(reg, start, orders, k, i);
    RunFits(reg, start);
    CharactersStay(reg, RunOf(reg, start), start, t, k, done, p);
    assert p in start.players ==> Find(t.players, p) == Find(start.players, p);
    if NotStocked(reg, start, p) {
      StillNotStocked(reg, start, t, k, done, p);
      BelongingsStay(reg, start, t, k, done, p);
    }
  }

  lemma KeptChains(start: Tables, t: Tables, u: Tables, p: Pid)
    ensures CharacterKept(start, t, p) && CharacterKept(t, u, p) ==> CharacterKept(start, u, p)
    ensures BelongingsKept(start, t, p) && BelongingsKept(t, u, p) ==> BelongingsKept(start, u, p)
  {
    assert p in start.ledger && Find(t.ledger, p) == Find(start.ledger, p) ==> p in t.ledger;
  }

  /** The same after run upon run was stopped, wherever each of them was: what the
      first found finished, none of them touches. */
  lemma {:induction false} FinishedBotsAreNeverTouched(reg: Registry, start: Tables, cs: seq<Crash>, p: Pid)
    requires WellFormed(reg) && Keyed(reg, start) && CanCrashAll(reg, start, cs)
    ensures var t := Crashed(reg, start, cs);
      && Keyed(reg, t) && CharacterKept(start, t, p)
      && (NotStocked(reg, start, p) ==> NotStocked(reg, t, p) && BelongingsKept(start, t, p))
  {
    if cs != [] {
      var t, c := Crashed(reg, start, cs[..|cs| - 1]), cs[|cs| - 1];
      FinishedBotsAreNeverTouched(reg, start, cs[..|cs| - 1], p);
      StoppedUnderway(reg, t, c.orders, c.k, c.i);
      FinishedBotsAreNotTouched(reg, t, c.orders, c.k, c.i, p);
      KeptChains(start, t, Crashed(reg, start, cs), p);
    }
  }

  lemma ItemStays(start: Tables, t: Tables, x: Place)
    requires KitOf(t.items, x.owner) == KitOf(start.items, x.owner)
    requires !StarterSlot(x.slot) ==> Find(start.items, x) == Find(t.items, x)
    ensures Find(t.items, x) == Find(start.items, x)
  {
    if StarterSlot(x.slot) {
      var j: nat :| j < |SLOTS| && SLOTS[j] == x.slot;
      assert KitOf(t.items, x.owner)[j] == KitOf(start.items, x.owner)[j];
      assert Place(x.owner, SLOTS[j]) == x;
    }
  }

  lemma RowsStay(reg: Registry, start: Tables, t: Tables, k: nat, done: set<Pid>, p: Pid)
    requires WellFormed(reg) && Keyed(reg, start) && k < STATEMENTS && NotStocked(reg, start, p) && p in reg.specs
    requires Underway(reg, RunOf(reg, start), start, t, k, done)
    ensures KitOf(t.items, p) == KitOf(start.items, p)
    ensures Find(t.quests, WeaponFlag(p)) == Find(start.quests, WeaponFlag(p))
    ensures p in start.ledger ==> Find(t.ledger, p) == Find(start.ledger, p)
  {
    KitStays(reg, start, p, Progress(k, done, p));
    var b, c := BotOf(reg, start, p), BotOf(reg, t, p);
    assert c == BotAt(reg, RunOf(reg, start), b, p, Progress(k, done, p));
    assert c.kit == b.kit && c.flag == b.flag;
  }

  lemma BelongingsStay(reg: Registry, start: Tables, t: Tables, k: nat, done: set<Pid>, p: Pid)
    requires WellFormed(reg) && Keyed(reg, start) && k < STATEMENTS && NotStocked(reg, start, p)
    requires Underway(reg, RunOf(reg, start), start, t, k, done)
    ensures forall x: Place | x.owner == p :: Find(t.items, x) == Find(start.items, x)
    ensures forall f: Flag | f.owner == p :: Find(t.quests, f) == Find(start.quests, f)
    ensures p in start.ledger ==> Find(t.ledger, p) == Find(start.ledger, p)
  {
    if p in reg.specs {
      RowsStay(reg, start, t, k, done, p);
    }
    Gathered(reg, start, t, p);
  }

  lemma Gathered(reg: Registry, start: Tables, t: Tables, p: Pid)
    requires SameElsewhere(reg, start, t)
    requires p in reg.specs ==> KitOf(t.items, p) == KitOf(start.items, p)
    requires p in reg.specs ==> Find(t.quests, WeaponFlag(p)) == Find(start.quests, WeaponFlag(p))
    requires p in reg.specs && p in start.ledger ==> Find(t.ledger, p) == Find(start.ledger, p)
    ensures forall x: Place | x.owner == p :: Find(t.items, x) == Find(start.items, x)
    ensures forall f: Flag | f.owner == p :: Find(t.quests, f) == Find(start.quests, f)
    ensures p in start.ledger ==> Find(t.ledger, p) == Find(start.ledger, p)
  {
    forall x: Place | x.owner == p && p in reg.specs ensures Find(t.items, x) == Find(start.items, x) {
      ItemStays(start, t, x);
    }
    assert p !in reg.specs ==> Find(start.ledger, p) == Find(t.ledger, p);
  }

  // ----- the assumption about ids -----------------------------------------

  ghost predicate LoginsDiffer(fold: string -> string, t: Tables) {
    forall a, b | a in t.accounts && b in t.accounts && a != b :: fold(t.accounts[a].login) != fold(t.accounts[b].login)
  }

  lemma {:induction false} Bounded(s: set<nat>) returns (m: nat)
    ensures forall x | x in s :: x < m
    decreases |s|
  {
    if s == {} {
      m := 0;
    } else {
      var x :| x in s;
      m := Bounded(s - {x});
      assert forall y | y in s :: y == x || y in s - {x};
      m := if m > x then m else x + 1;
    }
  }

  /** The account a login already has, or an id above every one in use. */
  ghost function IdFor(specs: map<Pid, Spec>, fold: string -> string, t: Tables, m: nat, p: Pid): AccountId {
    if p in specs && exists a | a in t.accounts :: fold(t.accounts[a].login) == fold(specs[p].login)
    then var a :| a in t.accounts && fold(t.accounts[a].login) == fold(specs[p].login); a
    else m + p
  }

  /** A unique login column and generated ids are all that `Keyed` asks for. */
  lemma KeyedCanBeMet(reg: Registry, t: Tables)
    requires WellFormed(reg) && LoginsDiffer(reg.fold, t)
    ensures exists id: Pid -> AccountId :: Keyed(reg.(id := id), t)
  {
    var m := Bounded(t.accounts.Keys + t.index.Keys + set q | q in t.players :: t.players[q].account);
    var id := (p: Pid) => IdFor(reg.specs, reg.fold, t, m, p);
    forall p, a | p in reg.specs && a in t.accounts
      ensures reg.fold(t.accounts[a].login) == reg.fold(reg.specs[p].login) <==> a == id(p)
    {
      assert id(p) == IdFor(reg.specs, reg.fold, t, m, p);
    }
    forall p, q | p in reg.specs && q in reg.specs && p != q ensures id(p) != id(q) {
      assert id(p) in t.accounts ==> reg.fold(t.accounts[id(p)].login) == reg.fold(reg.specs[p].login);
      assert id(q) in t.accounts ==> reg.fold(t.accounts[id(q)].login) == reg.fold(reg.specs[q].login);
    }
    forall p, q | p in reg.specs && id(p) !in t.accounts && q in t.players ensures t.players[q].account != id(p) {
      assert t.players[q].account in set r | r in t.players :: t.players[r].account;
    }
    assert Keyed(reg.(id := id), t);
  }
}
