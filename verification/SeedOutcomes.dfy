/** The seed's promises by the columns of its tables: whom it cares for, what each
    of its rows holds after a whole run, and what its checks catch. */
module SeedOutcomes {
  import opened Common
  import opened SeedTables
  import opened SeedBot
  import opened SeedRuns
  import opened SeedTheorems
  import opened SeedScript

  // ----- whom the seed cares for ------------------------------------------

  /** The character under the PID is the bot, and its account and index are its own. */
  predicate IsTheBot(t: Tables, p: Pid, s: Spec) {
    && p in t.players
    && var c := t.players[p];
       && c.job == s.job
       && (c.name == s.name
           || (p in t.history && t.history[p].seedName == s.name && t.history[p].humanName == c.name))
       && c.account in t.accounts
       && t.accounts[c.account].login == s.login && t.accounts[c.account].social == s.social
       && (c.account in t.index ==> t.index[c.account] == Index(p, 0, 0, 0, s.empire))
  }

  /** Nobody is there, and an account with the login is an unused blocked one. */
  predicate IsVacant(reg: Registry, t: Tables, p: Pid, s: Spec) {
    && p !in t.players
    && forall a | a in t.accounts && reg.fold(t.accounts[a].login) == reg.fold(s.login) ::
         && t.accounts[a].social == s.social && t.accounts[a].password == "!" && t.accounts[a].status == "BLOCK"
         && a !in t.index && forall q | q in t.players :: t.players[q].account != a
  }

  /** No other character has the name or plays under the login; no account with
      another login has the social id. */
  predicate NobodyElse(reg: Registry, t: Tables, p: Pid, s: Spec) {
    && (forall q | q in t.players && q != p ::
          && reg.fold(t.players[q].name) != reg.fold(s.name)
          && (t.players[q].account in t.accounts ==>
                reg.fold(t.accounts[t.players[q].account].login) != reg.fold(s.login)))
    && forall a | a in t.accounts && reg.fold(t.accounts[a].social) == reg.fold(s.social) ::
         t.accounts[a].login == s.login
  }

  /** An index that lists the PID is the bot's own. */
  predicate ListedByItself(reg: Registry, t: Tables, p: Pid, s: Spec) {
    forall i | i in t.index
               && (t.index[i].pid1 == p || t.index[i].pid2 == p || t.index[i].pid3 == p || t.index[i].pid4 == p) ::
      && p in t.players && t.index[i] == Index(p, 0, 0, 0, s.empire)
      && (exists a :: a in t.accounts && reg.fold(t.accounts[a].login) == reg.fold(s.login))
      && forall a | a in t.accounts && reg.fold(t.accounts[a].login) == reg.fold(s.login) :: a == i
  }

  predicate LedgerAgrees(t: Tables, p: Pid) {
    p in t.ledger ==> t.ledger[p].version == 1 && (p in t.players || t.ledger[p].state == Pending)
  }

  /** The nine rules let a PID pass exactly when its place in the database is
      vacant or held by the bot itself, and nobody stands in the way. */
  lemma CaredForWhen(reg: Registry, t: Tables, p: Pid)
    requires p in reg.specs
    ensures var s := reg.specs[p];
      !Skipped(reg, t, p) <==>
        && (IsTheBot(t, p, s) || IsVacant(reg, t, p, s))
        && NobodyElse(reg, t, p, s) && ListedByItself(reg, t, p, s) && LedgerAgrees(t, p)
  {
    var s := reg.specs[p];
    assert ForeignCharacter(t, p, s) || ForeignAccount(t, p, s) || ForeignIndex(t, p, s)
      <==> p in t.players && !IsTheBot(t, p, s);
    assert MissingButUsed(reg, t, p, s) <==> p !in t.players && !IsVacant(reg, t, p, s);
    assert NameWornByAnother(reg, t, p, s) || LoginOwnsAnother(reg, t, p, s) || SocialElsewhere(reg, t, s)
      <==> !NobodyElse(reg, t, p, s);
    ListedWhen(reg, t, p, s);
  }

  lemma ListedWhen(reg: Registry, t: Tables, p: Pid, s: Spec)
    ensures InForeignIndex(reg, t, p, s) <==> !ListedByItself(reg, t, p, s)
  {
  }

  // ----- what a whole run leaves ------------------------------------------

  /** A starter slot: what lay there, or the given item. */
  predicate Filled(was: Tables, now: Tables, place: Place, vnum: nat, count: nat) {
    Find(now.items, place) == if place in was.items then Find(was.items, place) else Some(Item(vnum, count))
  }

  predicate StockedWith(was: Tables, now: Tables, p: Pid, weapon: nat, armour: nat, chest: nat) {
    && Filled(was, now, Place(p, Slot(Equipment, 4)), weapon, 1)
    && Filled(was, now, Place(p, Slot(Equipment, 0)), armour, 1)
    && Filled(was, now, Place(p, Slot(Inventory, 0)), 27001, 200)
    && Filled(was, now, Place(p, Slot(Inventory, 1)), 27004, 200)
    && Filled(was, now, Place(p, Slot(Inventory, 2)), chest, 1)
  }

  /** The seed stocks a bot it makes, and one whose stocking was interrupted. */
  predicate ToStock(t: Tables, p: Pid) {
    if p in t.ledger then t.ledger[p].state == Pending else p !in t.players
  }

  lemma KitOutcome(reg: Registry, start: Tables, orders: Orders, p: Pid, j: nat)
    requires WellFormed(reg) && Keyed(reg, start) && Thorough(reg, start, orders) && p in reg.specs
    requires !Skipped(reg, start, p) && ToStock(start, p) && j < 5
    ensures var was := Find(start.items, Place(p, SLOTS[j]));
      Find(Seeded(reg, start, orders).items, Place(p, SLOTS[j]))
        == Some(if was.Some? then was.value else Starter(reg.specs[p].job, j))
  {
    WholeRunMakes(reg, start, orders, p);
    var b, c := BotOf(reg, start, p), BotOf(reg, Seeded(reg, start, orders), p);
    assert b.kit[j] == Find(start.items, Place(p, SLOTS[j]));
    assert c.kit[j] == Find(Seeded(reg, start, orders).items, Place(p, SLOTS[j]));
  }

  /** Every bot the seed stocks gets what its class starts with, in the slots that
      were free. */
  lemma StarterOutcome(reg: Registry, start: Tables, orders: Orders, p: Pid)
    requires WellFormed(reg) && Keyed(reg, start) && Thorough(reg, start, orders) && p in reg.specs
    requires !Skipped(reg, start, p) && ToStock(start, p)
    ensures var t, job := Seeded(reg, start, orders), reg.specs[p].job;
      && (job == 0 || job == 4 ==> StockedWith(start, t, p, 10, 11200, 50187))
      && (job == 1 || job == 5 ==> StockedWith(start, t, p, 1000, 11400, 50212))
      && (job == 2 || job == 6 ==> StockedWith(start, t, p, 10, 11600, 50187))
      && (job == 3 || job == 7 ==> StockedWith(start, t, p, 7000, 11800, 50213))
  {
    KitOutcome(reg, start, orders, p, 0);
    KitOutcome(reg, start, orders, p, 1);
    KitOutcome(reg, start, orders, p, 2);
    KitOutcome(reg, start, orders, p, 3);
    KitOutcome(reg, start, orders, p, 4);
  }

  /** The character, account, index and nickname of every bot cared for. */
  lemma RowsOutcome(reg: Registry, start: Tables, orders: Orders, p: Pid)
    requires WellFormed(reg) && Keyed(reg, start) && Thorough(reg, start, orders) && p in reg.specs
    requires !Skipped(reg, start, p)
    ensures var t, s, id := Seeded(reg, start, orders), reg.specs[p], reg.id(p);
      && (p in start.players ==>
            Find(t.players, p) == Find(start.players, p) && Find(t.history, p) == Find(start.history, p))
      && (p !in start.players ==>
            Find(t.players, p) == Some(Player(id, s.name, s.job, s.body, 800, 1, 2500)) && p !in t.history)
      && Find(t.accounts, id) == Some(
           if id in start.accounts then start.accounts[id].(empire := s.empire)
           else Account(s.login, s.social, "!", "BLOCK", s.empire))
      && Find(t.index, id) == Some(if id in start.index then start.index[id] else Index(p, 0, 0, 0, s.empire))
  {
    WholeRunMakes(reg, start, orders, p);
  }

  /** Its ledger row, and its quest flag if it is stocked. */
  lemma LedgerOutcome(reg: Registry, start: Tables, orders: Orders, p: Pid)
    requires WellFormed(reg) && Keyed(reg, start) && Thorough(reg, start, orders) && p in reg.specs
    requires !Skipped(reg, start, p)
    ensures var t, flag := Seeded(reg, start, orders), Flag(p, "give_basic_weapon", "basic_weapon");
      if ToStock(start, p) then
        && Find(t.ledger, p) == Some(Ledger(1, Complete))
        && flag in t.quests && t.quests[flag] == if flag in start.quests then Max(1, start.quests[flag]) else 1
      else
        && Find(t.ledger, p) == Some(if p in start.ledger then start.ledger[p] else Ledger(1, Adopted))
        && Find(t.quests, flag) == Find(start.quests, flag)
  {
    WholeRunMakes(reg, start, orders, p);
  }

  predicate NothingStored(t: Tables, p: Pid) {
    && p !in t.players && p !in t.ledger && Flag(p, "give_basic_weapon", "basic_weapon") !in t.quests
    && Place(p, Slot(Equipment, 4)) !in t.items && Place(p, Slot(Equipment, 0)) !in t.items
    && Place(p, Slot(Inventory, 0)) !in t.items && Place(p, Slot(Inventory, 1)) !in t.items
    && Place(p, Slot(Inventory, 2)) !in t.items
  }

  predicate Holds(t: Tables, p: Pid, weapon: nat, armour: nat, chest: nat) {
    && Find(t.items, Place(p, Slot(Equipment, 4))) == Some(Item(weapon, 1))
    && Find(t.items, Place(p, Slot(Equipment, 0))) == Some(Item(armour, 1))
    && Find(t.items, Place(p, Slot(Inventory, 0))) == Some(Item(27001, 200))
    && Find(t.items, Place(p, Slot(Inventory, 1))) == Some(Item(27004, 200))
    && Find(t.items, Place(p, Slot(Inventory, 2))) == Some(Item(chest, 1))
  }

  /** In particular a PID with no rows at all comes out as the registry's bot: its
      blocked account, its level-one character, its index, its class's starter
      items, its quest flag, and a ledger row that says complete. */
  lemma NewBotIsMade(reg: Registry, start: Tables, orders: Orders, p: Pid)
    requires WellFormed(reg) && Keyed(reg, start) && Thorough(reg, start, orders) && p in reg.specs
    requires !Skipped(reg, start, p) && NothingStored(start, p)
    ensures var t, s, id := Seeded(reg, start, orders), reg.specs[p], reg.id(p);
      && Find(t.players, p) == Some(Player(id, s.name, s.job, s.body, 800, 1, 2500))
      && Find(t.accounts, id) == Some(Account(s.login, s.social, "!", "BLOCK", s.empire))
      && Find(t.index, id) == Some(Index(p, 0, 0, 0, s.empire))
      && Find(t.ledger, p) == Some(Ledger(1, Complete))
      && Find(t.quests, Flag(p, "give_basic_weapon", "basic_weapon")) == Some(1)
      && (s.job == 0 || s.job == 4 ==> Holds(t, p, 10, 11200, 50187))
      && (s.job == 1 || s.job == 5 ==> Holds(t, p, 1000, 11400, 50212))
      && (s.job == 2 || s.job == 6 ==> Holds(t, p, 10, 11600, 50187))
      && (s.job == 3 || s.job == 7 ==> Holds(t, p, 7000, 11800, 50213))
  {
    RowsOutcome(reg, start, orders, p);
    StarterOutcome(reg, start, orders, p);
    LedgerOutcome(reg, start, orders, p);
    NotSkippedIsSound(reg, start, p);
    var b := BotOf(reg, start, p);
    assert b.player.None? && b.index.None?;
    assert Sound(LineOf(reg, p), b) && (b.account.Some? ==> start.accounts[reg.id(p)] == b.account.value);
  }

  // ----- what the checks catch --------------------------------------------

  /** The conflict check fires for every PID of the run that a skip rule would now
      take: the nine checks and the nine rules find the same. */
  lemma ChecksCatch(reg: Registry, run: Run, t: Tables, p: Pid)
    requires p in run.spec && p in reg.specs && (p in run.missing <==> p !in t.players)
    ensures Skipped(reg, t, p) ==> Conflicting(reg, run, t)
  {
    var s := reg.specs[p];
    if Skipped(reg, t, p) {
      if MissingButUsed(reg, t, p, s) {
        AccountCheckNeedsTwoRules(reg, t, p, s);
      }
      var c :=
        if ForeignCharacter(t, p, s) then 0
        else if NameWornByAnother(reg, t, p, s) then 1
        else if ForeignAccount(t, p, s) then 2
        else if LoginOwnsAnother(reg, t, p, s) then 3
        else if SocialElsewhere(reg, t, s) then 4
        else if MissingButUsed(reg, t, p, s) then 5
        else if ForeignIndex(t, p, s) then 6
        else if InForeignIndex(reg, t, p, s) then 7
        else 8;
      assert ConflictFor(reg, run, t, c, p);
      assert Conflict(reg, run, t, c);
    }
  }

  /** The account check passes exactly when each missing bot has an account and
      every account with its login is its own blocked one. */
  lemma AccountsPassWhen(reg: Registry, run: Run, t: Tables)
    requires run.missing <= reg.specs.Keys
    ensures !AccountsFailed(reg, run, t) <==>
      forall p | p in run.missing :: var s := reg.specs[p];
        && (exists a :: a in t.accounts && reg.fold(t.accounts[a].login) == reg.fold(s.login))
        && forall a | a in t.accounts && reg.fold(t.accounts[a].login) == reg.fold(s.login) ::
             && t.accounts[a].login == s.login && t.accounts[a].social == s.social
             && t.accounts[a].password == "!" && t.accounts[a].status == "BLOCK"
  {
  }

  /** The slot check passes exactly when all five places of every pending bot hold
      something. */
  lemma SlotsPassWhen(pending: set<Pid>, t: Tables)
    ensures !SlotsIncomplete(pending, t) <==>
      forall p | p in pending ::
        && Place(p, Slot(Equipment, 4)) in t.items && Place(p, Slot(Equipment, 0)) in t.items
        && Place(p, Slot(Inventory, 0)) in t.items && Place(p, Slot(Inventory, 1)) in t.items
        && Place(p, Slot(Inventory, 2)) in t.items
  {
    forall p ensures SlotFree(t, p) <==>
      || Place(p, Slot(Equipment, 4)) !in t.items || Place(p, Slot(Equipment, 0)) !in t.items
      || Place(p, Slot(Inventory, 0)) !in t.items || Place(p, Slot(Inventory, 1)) !in t.items
      || Place(p, Slot(Inventory, 2)) !in t.items
    {
      assert SLOTS[0] == Slot(Equipment, 4) && SLOTS[1] == Slot(Equipment, 0) && SLOTS[2] == Slot(Inventory, 0);
      assert SLOTS[3] == Slot(Inventory, 1) && SLOTS[4] == Slot(Inventory, 2);
    }
  }

  /** The last check passes exactly when every PID of the run holds the bot, with its
      index row and a ledger row that is finished. */
  lemma RowsPassWhen(reg: Registry, run: Run, t: Tables)
    requires run.spec <= reg.specs.Keys
    ensures !RowsFailed(reg, run, t) <==>
      forall p | p in run.spec ::
        && IsTheBot(t, p, reg.specs[p]) && t.players[p].account in t.index
        && p in t.ledger && t.ledger[p].version == 1 && t.ledger[p].state != Pending
  {
  }
}
