/** The seed script as it runs against the database: the statements in order, and
    between them the checks that abort it. */
module SeedScript {
  import opened Common
  import opened SeedTables
  import opened SeedBot
  import opened SeedRuns
  import opened SeedResume

  // ----- the checks -------------------------------------------------------

  const CONFLICTS: nat := 9

  predicate AccountIsForeign(reg: Registry, t: Tables, s: Spec) {
    exists a | a in t.accounts :: SameLogin(reg, t.accounts[a], s) && (t.accounts[a].login != s.login || Used(t, a, s))
  }

  /** What conflict check `c` counts. */
  predicate ConflictFor(reg: Registry, run: Run, t: Tables, c: nat, p: Pid)
    requires p in reg.specs
  {
    var s := reg.specs[p];
    match c
    case 0 => ForeignCharacter(t, p, s)
    case 1 => NameWornByAnother(reg, t, p, s)
    case 2 => ForeignAccount(t, p, s)
    case 3 => LoginOwnsAnother(reg, t, p, s)
    case 4 => SocialElsewhere(reg, t, s)
    case 5 => p in run.missing && AccountIsForeign(reg, t, s)
    case 6 => ForeignIndex(t, p, s)
    case 7 => InForeignIndex(reg, t, p, s)
    case _ => LedgerConflict(t, p)
  }

  predicate Conflict(reg: Registry, run: Run, t: Tables, c: nat) {
    exists p | p in run.spec :: p in reg.specs && ConflictFor(reg, run, t, c, p)
  }

  predicate Conflicting(reg: Registry, run: Run, t: Tables) {
    exists c | 0 <= c < CONFLICTS :: Conflict(reg, run, t, c)
  }

  predicate NoBlockedAccount(reg: Registry, t: Tables, s: Spec) {
    || NoSuchLogin(reg, t, s)
    || exists a | a in t.accounts ::
         SameLogin(reg, t.accounts[a], s)
         && (t.accounts[a].login != s.login || t.accounts[a].social != s.social
             || t.accounts[a].password != "!" || t.accounts[a].status != "BLOCK")
  }

  predicate AccountsFailed(reg: Registry, run: Run, t: Tables) {
    exists p | p in run.missing :: p in reg.specs && NoBlockedAccount(reg, t, reg.specs[p])
  }

  predicate SlotFree(t: Tables, p: Pid) {
    exists j | 0 <= j < 5 :: Place(p, SLOTS[j]) !in t.items
  }

  predicate SlotsIncomplete(pending: set<Pid>, t: Tables) {
    exists p | p in pending :: SlotFree(t, p)
  }

  /** The row the final count expects of every PID it cared for. */
  predicate Settled(reg: Registry, t: Tables, p: Pid) {
    && p in reg.specs && p in t.players
    && var s, c := reg.specs[p], t.players[p];
       && c.job == s.job && Named(s, c.name, PastOf(t, p))
       && c.account in t.accounts && t.accounts[c.account].login == s.login && t.accounts[c.account].social == s.social
       && c.account in t.index && Exact(t.index[c.account], p, s)
       && p in t.ledger && t.ledger[p].version == 1 && t.ledger[p].state != Pending
  }

  predicate RowsFailed(reg: Registry, run: Run, t: Tables) {
    exists p | p in run.spec :: !Settled(reg, t, p)
  }

  function PendingOf(run: Run, t: Tables): set<Pid> {
    set p | p in run.spec && SeedTables.IsPending(t, p)
  }

  // ----- the script -------------------------------------------------------

  /** The tables after `k` statements of the run begun at `t`. */
  function After(reg: Registry, t: Tables, orders: Orders, k: nat): Tables {
    Statements(WriterOf(reg, RunOf(reg, t)), t, orders, k)
  }

  /** No check fires in the run begun at `t`. */
  predicate Quiet(reg: Registry, t: Tables, orders: Orders) {
    var run := RunOf(reg, t);
    && !Conflicting(reg, run, After(reg, t, orders, 1))
    && !AccountsFailed(reg, run, After(reg, t, orders, 3))
    && !SlotsIncomplete(PendingOf(run, After(reg, t, orders, 6)), After(reg, t, orders, 12))
    && !RowsFailed(reg, run, After(reg, t, orders, STATEMENTS))
  }

  lemma AfterStep(reg: Registry, t: Tables, orders: Orders, k: nat)
    ensures After(reg, t, orders, 0) == t
    ensures After(reg, t, orders, k + 1)
         == Rows(WriterOf(reg, RunOf(reg, t)), After(reg, t, orders, k), k, orders(k), |orders(k)|)
  {
  }

  class Database {
    var players: map<Pid, Player>
    var accounts: map<AccountId, Account>
    var index: map<AccountId, Index>
    var ledger: map<Pid, Ledger>
    var history: map<Pid, Past>
    var items: map<Place, Item>
    var quests: map<Flag, int>

    function Now(): Tables
      reads this
    {
      Tables(players, accounts, index, ledger, history, items, quests)
    }

    method AddMissingIndex(p: Pid, s: Spec)
      modifies this`index
      ensures Now() == AddIndex(old(Now()), p, s)
    {
      if p in players && players[p].job == s.job && Named(s, players[p].name, PastOf(Now(), p)) {
        var a := players[p].account;
        if a in accounts && accounts[a].login == s.login && accounts[a].social == s.social && a !in index {
          index := index[a := NewIndex(p, s)];
        }
      }
    }

    method WriteRow(reg: Registry, run: Run, k: nat, p: Pid)
      requires k < STATEMENTS && run.spec <= reg.specs.Keys
      modifies this
      ensures Now() == Write(reg, run, old(Now()), k, p)
    {
      if k == 0 {
        if p !in players {
          history := history - {p};
        }
        return;
      }
      if p !in run.spec {
        return;
      }
      var s := reg.specs[p];
      if k == 1 {
        if p !in ledger {
          ledger := ledger[p := Ledger(1, if p in players then Adopted else Pending)];
        }
      } else if k == 2 {
        if p in run.missing && SeedTables.IsPending(Now(), p) && NoSuchLogin(reg, Now(), s) {
          accounts := accounts[reg.id(p) := NewAccount(s)];
        }
      } else if k == 3 {
        if p in run.missing && SeedTables.IsPending(Now(), p) && !NoSuchLogin(reg, Now(), s) && p !in players {
          players := players[p := NewPlayer(s, reg.id(p))];
        }
      } else if k == 4 {
        AddMissingIndex(p, s);
      } else if k == 5 {
        accounts := map a | a in accounts ::
          if EmpireOff(Now(), p, s, a) then accounts[a].(empire := s.empire) else accounts[a];
      } else if k < 11 {
        var place := Place(p, SLOTS[k - 6]);
        if SeedTables.IsPending(Now(), p) && place !in items {
          items := items[place := Starter(s.job, k - 6)];
        }
      } else if k == 11 {
        if SeedTables.IsPending(Now(), p) {
          var f := WeaponFlag(p);
          quests := quests[f := if f in quests then Max(quests[f], 1) else 1];
        }
      } else if SeedTables.IsPending(Now(), p) {
        ledger := ledger[p := Ledger(1, Complete)];
      }
    }

    method Statement(reg: Registry, run: Run, k: nat, order: seq<Pid>)
      requires k < STATEMENTS && run.spec <= reg.specs.Keys
      modifies this
      ensures Now() == Rows(WriterOf(reg, run), old(Now()), k, order, |order|)
    {
      ghost var write, was := WriterOf(reg, run), Now();
      var i := 0;
      while i < |order|
        invariant 0 <= i <= |order|
        invariant Now() == Rows(write, was, k, order, i)
      {
        WriterWrites(reg, run, Now(), k, order[i]);
        WriteRow(reg, run, k, order[i]);
        RowsGrow(write, was, k, order, i);
        i := i + 1;
      }
    }

    method HasConflict(reg: Registry, run: Run) returns (found: bool)
      ensures found <==> Conflicting(reg, run, Now())
    {
      var c := 0;
      while c < CONFLICTS
        invariant 0 <= c <= CONFLICTS
        invariant forall d | 0 <= d < c :: !Conflict(reg, run, Now(), d)
      {
        if Conflict(reg, run, Now(), c) {
          return true;
        }
        c := c + 1;
      }
      return false;
    }

    /** The statements from `k` up to `to`. */
    method RunTo(reg: Registry, run: Run, orders: Orders, k: nat, to: nat, ghost start: Tables)
      requires k <= to <= STATEMENTS && run == RunOf(reg, start) && Now() == After(reg, start, orders, k)
      modifies this
      ensures Now() == After(reg, start, orders, to)
    {
      var i := k;
      while i < to
        invariant k <= i <= to
        invariant Now() == After(reg, start, orders, i)
      {
        Statement(reg, run, i, orders(i));
        AfterStep(reg, start, orders, i);
        i := i + 1;
      }
    }

    /** Runs the whole script; false where a check stopped it. */
    method Seed(reg: Registry, orders: Orders) returns (ok: bool)
      modifies this
      ensures ok <==> Quiet(reg, old(Now()), orders)
      ensures ok ==> Now() == Seeded(reg, old(Now()), orders)
      ensures var was, run := old(Now()), RunOf(reg, old(Now()));
        if Conflicting(reg, run, After(reg, was, orders, 1)) then !ok && Now() == After(reg, was, orders, 1)
        else if AccountsFailed(reg, run, After(reg, was, orders, 3)) then !ok && Now() == After(reg, was, orders, 3)
        else if SlotsIncomplete(PendingOf(run, After(reg, was, orders, 6)), After(reg, was, orders, 12)) then
          !ok && Now() == After(reg, was, orders, 12)
        else
          Now() == After(reg, was, orders, 13) && ok == !RowsFailed(reg, run, Now())
    {
      ghost var start := Now();
      var run := RunOf(reg, Now());
      RunTo(reg, run, orders, 0, 1, start);
      var stop := HasConflict(reg, run);
      if stop {
        return false;
      }
      RunTo(reg, run, orders, 1, 3, start);
      if AccountsFailed(reg, run, Now()) {
        return false;
      }
      RunTo(reg, run, orders, 3, 6, start);
      var pending := PendingOf(run, Now());
      RunTo(reg, run, orders, 6, 12, start);
      if SlotsIncomplete(pending, Now()) {
        return false;
      }
      RunTo(reg, run, orders, 12, STATEMENTS, start);
      return !RowsFailed(reg, run, Now());
    }
  }

  // ----- why none of them fires -------------------------------------------

  /** The account check compares the login exactly, which the matching skip rule
      does not: what that rule lets pass, the rule about social ids takes. */
  lemma AccountCheckNeedsTwoRules(reg: Registry, t: Tables, p: Pid, s: Spec)
    requires p !in t.players
    ensures AccountIsForeign(reg, t, s) ==> MissingButUsed(reg, t, p, s) || SocialElsewhere(reg, t, s)
    ensures MissingButUsed(reg, t, p, s) ==> AccountIsForeign(reg, t, s)
  {
    if AccountIsForeign(reg, t, s) {
      var a :| a in t.accounts && SameLogin(reg, t.accounts[a], s) && (t.accounts[a].login != s.login || Used(t, a, s));
      if !Used(t, a, s) {
        assert reg.fold(t.accounts[a].social) == reg.fold(s.social);
      }
    }
  }

  /** Each conflict check only counts what a skip rule has taken out. */
  lemma SkipRulesCoverChecks(reg: Registry, run: Run, t: Tables, c: nat, p: Pid)
    requires p in reg.specs && !Skipped(reg, t, p) && (p in run.missing ==> p !in t.players)
    ensures !ConflictFor(reg, run, t, c, p)
  {
    if p in run.missing {
      AccountCheckNeedsTwoRules(reg, t, p, reg.specs[p]);
    }
  }

  lemma StillMissing(reg: Registry, start: Tables, t: Tables, k: nat, p: Pid)
    requires WellFormed(reg) && Keyed(reg, start) && k <= 3
    requires Underway(reg, RunOf(reg, start), start, t, k, {}) && p in RunOf(reg, start).missing
    ensures p !in t.players
  {
    var run, b := RunOf(reg, start), BotOf(reg, start, p);
    assert BotOf(reg, t, p) == BotAt(reg, run, b, p, Progress(k, {}, p));
    PlayerNotYet(LineOf(reg, p), b, k);
    assert BotOf(reg, t, p).player == b.player;
  }

  lemma PlayerNotYet(l: Line, b: Bot, k: nat)
    requires |b.kit| == 5 && k <= 3
    ensures Stages(l, b.player.None?, b, k).player == b.player
  {
    if k > 0 {
      PlayerNotYet(l, b, k - 1);
    }
  }

  lemma NoConflict(reg: Registry, start: Tables, t: Tables)
    requires WellFormed(reg) && Keyed(reg, start) && Underway(reg, RunOf(reg, start), start, t, 1, {})
    ensures !Conflicting(reg, RunOf(reg, start), t)
  {
    var run := RunOf(reg, start);
    forall p, c: nat | p in run.spec && c < CONFLICTS ensures p in reg.specs && !ConflictFor(reg, run, t, c, p) {
      RestartCaresForTheSame(reg, start, t, 1, {}, p);
      if p in run.missing {
        StillMissing(reg, start, t, 1, p);
      }
      SkipRulesCoverChecks(reg, run, t, c, p);
    }
  }

  /** What the tables show of a bot after `k` whole statements. */
  lemma BotReached(reg: Registry, start: Tables, t: Tables, k: nat, p: Pid)
    requires WellFormed(reg) && Keyed(reg, start) && k <= STATEMENTS && p in RunOf(reg, start).spec
    requires Underway(reg, RunOf(reg, start), start, t, k, {})
    ensures p in reg.specs && Reached(LineOf(reg, p), BotOf(reg, start, p).player.None?, BotOf(reg, t, p), k)
    ensures BotOf(reg, t, p) == Stages(LineOf(reg, p), BotOf(reg, start, p).player.None?, BotOf(reg, start, p), k)
  {
    NotSkippedIsSound(reg, start, p);
    StagesReach(LineOf(reg, p), BotOf(reg, start, p), k);
    assert BotOf(reg, t, p) == BotAt(reg, RunOf(reg, start), BotOf(reg, start, p), p, Progress(k, {}, p));
  }

  lemma AccountsMade(reg: Registry, start: Tables, t: Tables)
    requires WellFormed(reg) && Keyed(reg, start) && Underway(reg, RunOf(reg, start), start, t, 3, {})
    ensures !AccountsFailed(reg, RunOf(reg, start), t)
  {
    forall p | p in RunOf(reg, start).missing ensures p in reg.specs && !NoBlockedAccount(reg, t, reg.specs[p]) {
      BotReached(reg, start, t, 3, p);
      StillMissing(reg, start, t, 3, p);
      AccountShows(reg, t, p);
    }
  }

  lemma AccountShows(reg: Registry, t: Tables, p: Pid)
    requires Keyed(reg, t) && p in reg.specs && p !in t.players
    requires Sound(LineOf(reg, p), BotOf(reg, t, p)) && BotOf(reg, t, p).account.Some?
    ensures !NoBlockedAccount(reg, t, reg.specs[p])
  {
    assert SameLogin(reg, t.accounts[reg.id(p)], reg.specs[p]);
  }

  lemma {:induction false} LedgerRests(l: Line, missing: bool, b: Bot, k: nat)
    requires |b.kit| == 5 && 6 <= k <= 12
    ensures Stages(l, missing, b, k).ledger == Stages(l, missing, b, 6).ledger
  {
    if k > 6 {
      LedgerRests(l, missing, b, k - 1);
    }
  }

  lemma SlotsFilled(reg: Registry, start: Tables, t: Tables, u: Tables)
    requires WellFormed(reg) && Keyed(reg, start)
    requires Underway(reg, RunOf(reg, start), start, t, 6, {}) && Underway(reg, RunOf(reg, start), start, u, 12, {})
    ensures !SlotsIncomplete(PendingOf(RunOf(reg, start), t), u)
  {
    forall p | p in PendingOf(RunOf(reg, start), t) ensures !SlotFree(u, p) {
      BotReached(reg, start, t, 6, p);
      BotReached(reg, start, u, 12, p);
      LedgerRests(LineOf(reg, p), BotOf(reg, start, p).player.None?, BotOf(reg, start, p), 12);
      assert BotOf(reg, u, p).ledger == BotOf(reg, t, p).ledger == Some(t.ledger[p]);
      KitShows(reg, u, p);
    }
  }

  lemma KitShows(reg: Registry, u: Tables, p: Pid)
    requires forall j | 0 <= j < 5 :: BotOf(reg, u, p).kit[j].Some?
    ensures !SlotFree(u, p)
  {
    forall j | 0 <= j < 5 ensures Place(p, SLOTS[j]) in u.items {
      assert KitOf(u.items, p)[j] == BotOf(reg, u, p).kit[j];
    }
  }

  lemma AllSettled(reg: Registry, start: Tables, t: Tables)
    requires WellFormed(reg) && Keyed(reg, start) && Underway(reg, RunOf(reg, start), start, t, STATEMENTS, {})
    ensures !RowsFailed(reg, RunOf(reg, start), t)
  {
    forall p | p in RunOf(reg, start).spec ensures Settled(reg, t, p) {
      BotReached(reg, start, t, STATEMENTS, p);
      BotShows(reg, t, p);
    }
  }

  lemma BotShows(reg: Registry, t: Tables, p: Pid)
    requires p in reg.specs && Reached(LineOf(reg, p), BotOf(reg, t, p).player.None?, BotOf(reg, t, p), STATEMENTS)
    ensures Settled(reg, t, p)
  {
    var b := BotOf(reg, t, p);
    assert b.player.Some? && b.account.Some? && b.index.Some? && b.ledger.Some?;
  }

  /** Whatever the database holds, the skip rules leave nothing for a check to
      find, and what the statements make satisfies every one of them. */
  lemma NoCheckFires(reg: Registry, start: Tables, orders: Orders)
    requires WellFormed(reg) && Keyed(reg, start) && Thorough(reg, start, orders)
    ensures Quiet(reg, start, orders)
  {
    var run := RunOf(reg, start);
    RunFits(reg, start);
    StatementsUnderway(reg, run, start, orders, 1);
    NoConflict(reg, start, After(reg, start, orders, 1));
    StatementsUnderway(reg, run, start, orders, 3);
    AccountsMade(reg, start, After(reg, start, orders, 3));
    StatementsUnderway(reg, run, start, orders, 6);
    StatementsUnderway(reg, run, start, orders, 12);
    SlotsFilled(reg, start, After(reg, start, orders, 6), After(reg, start, orders, 12));
    StatementsUnderway(reg, run, start, orders, STATEMENTS);
    AllSettled(reg, start, After(reg, start, orders, STATEMENTS));
  }
}
