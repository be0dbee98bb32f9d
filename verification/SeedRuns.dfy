/** The seed over whole tables: every statement works on each bot's rows alone,
    so a run may stop anywhere, any number of times, and be started again. */
module SeedRuns {
  import opened Common
  import opened SeedTables
  import opened SeedBot

  function Find<K, V>(m: map<K, V>, k: K): Option<V> {
    if k in m then Some(m[k]) else None
  }

  function LineOf(reg: Registry, p: Pid): Line
    requires p in reg.specs
  {
    Line(p, reg.id(p), reg.specs[p])
  }

  function KitOf(items: map<Place, Item>, p: Pid): (kit: seq<Option<Item>>)
    ensures |kit| == 5
  {
    seq(5, j requires 0 <= j < 5 => Find(items, Place(p, SLOTS[j])))
  }

  function BotOf(reg: Registry, t: Tables, p: Pid): Bot {
    Bot(Find(t.players, p), Find(t.accounts, reg.id(p)), Find(t.index, reg.id(p)), Find(t.ledger, p),
        Find(t.history, p), KitOf(t.items, p), Find(t.quests, WeaponFlag(p)))
  }

  /** Nobody else has the bot's name or its account. */
  predicate NameIsOwn(reg: Registry, t: Tables, p: Pid)
    requires p in reg.specs
  {
    forall q | q in t.players && q != p ::
      reg.fold(t.players[q].name) != reg.fold(reg.specs[p].name) && t.players[q].account != reg.id(p)
  }

  /** No other account has its social id. */
  predicate SocialIsOwn(reg: Registry, t: Tables, p: Pid)
    requires p in reg.specs
  {
    forall a | a in t.accounts && a != reg.id(p) :: reg.fold(t.accounts[a].social) != reg.fold(reg.specs[p].social)
  }

  /** No other index lists its PID. */
  predicate PidIsOwn(reg: Registry, t: Tables, p: Pid)
    requires p in reg.specs
  {
    forall i | i in t.index && i != reg.id(p) :: !Mentions(t.index[i], p)
  }

  predicate Alone(reg: Registry, t: Tables, p: Pid)
    requires p in reg.specs
  {
    NameIsOwn(reg, t, p) && SocialIsOwn(reg, t, p) && PidIsOwn(reg, t, p)
  }

  lemma NotSkippedIsSound(reg: Registry, t: Tables, p: Pid)
    requires WellFormed(reg) && Keyed(reg, t) && p in reg.specs && !Skipped(reg, t, p)
    ensures Sound(LineOf(reg, p), BotOf(reg, t, p)) && Alone(reg, t, p)
  {
    var s, b := reg.specs[p], BotOf(reg, t, p);
    if b.account.Some? {
      assert SameLogin(reg, t.accounts[reg.id(p)], s);
    }
    if b.player.Some? {
      var a := t.players[p].account;
      assert t.accounts[a].login == s.login;
      assert reg.fold(t.accounts[a].login) == reg.fold(s.login);
    }
  }

  lemma SoundIsNotSkipped(reg: Registry, t: Tables, p: Pid)
    requires WellFormed(reg) && Keyed(reg, t) && p in reg.specs
    requires Sound(LineOf(reg, p), BotOf(reg, t, p)) && Alone(reg, t, p)
    ensures !Skipped(reg, t, p)
  {
    var s := reg.specs[p];
  }

  // ----- one row write ----------------------------------------------------

  /** The rows of nobody in the registry are the same; nicknames apart. */
  ghost predicate SameElsewhere(reg: Registry, t: Tables, u: Tables) {
    && (forall p | p !in reg.specs :: Find(t.players, p) == Find(u.players, p))
    && (forall p | p !in reg.specs :: Find(t.ledger, p) == Find(u.ledger, p))
    && (forall a | a !in Ids(reg) :: Find(t.accounts, a) == Find(u.accounts, a))
    && (forall a | a !in Ids(reg) :: Find(t.index, a) == Find(u.index, a))
    && (forall x: Place | x.owner !in reg.specs || !StarterSlot(x.slot) :: Find(t.items, x) == Find(u.items, x))
    && (forall f: Flag | f.owner !in reg.specs || f != WeaponFlag(f.owner) :: Find(t.quests, f) == Find(u.quests, f))
  }

  function Ids(reg: Registry): set<AccountId> {
    set p | p in reg.specs :: reg.id(p)
  }

  /** `u` differs from `t` in `p`'s own rows at most, and what it added there is
      what a registry line may own. Nothing is removed but a nickname. */
  ghost predicate Touches(reg: Registry, t: Tables, u: Tables, p: Pid) {
    && SameBut(t.players, u.players, p) && SameBut(t.ledger, u.ledger, p) && SameBut(t.history, u.history, p)
    && SameBut(t.accounts, u.accounts, reg.id(p)) && SameBut(t.index, u.index, reg.id(p))
    && SameButKit(t.items, u.items, p) && SameBut(t.quests, u.quests, WeaponFlag(p))
  }

  ghost predicate SameBut<K(!new), V>(m: map<K, V>, n: map<K, V>, k: K) {
    forall x | x != k :: Find(m, x) == Find(n, x)
  }

  predicate StarterSlot(s: Slot) {
    s in SLOTS
  }

  ghost predicate SameButKit(m: map<Place, Item>, n: map<Place, Item>, p: Pid) {
    forall x: Place | x.owner != p || !StarterSlot(x.slot) :: Find(m, x) == Find(n, x)
  }

  predicate PlayerAdded(l: Line, before: Option<Player>, after: Option<Player>) {
    after == before || (before.None? && after == Some(NewPlayer(l.spec, l.id)))
  }

  predicate AccountAdded(l: Line, before: Option<Account>, after: Option<Account>) {
    after.Some? == before.Some? || (before.None? && after == Some(NewAccount(l.spec)))
  }

  predicate AccountKept(before: Option<Account>, after: Option<Account>) {
    before.Some? ==> after.Some? && after.value == before.value.(empire := after.value.empire)
  }

  predicate IndexAdded(l: Line, before: Option<Index>, after: Option<Index>) {
    after == before || (before.None? && after == Some(NewIndex(l.pid, l.spec)))
  }

  /** The bot's rows grew the way a run lets them grow. */
  predicate Grows(l: Line, b: Bot, c: Bot) {
    && PlayerAdded(l, b.player, c.player) && (c.player.Some? ==> c.account.Some?)
    && AccountAdded(l, b.account, c.account) && AccountKept(b.account, c.account)
    && IndexAdded(l, b.index, c.index) && (c.index.Some? ==> c.account.Some?)
  }

  lemma TouchedOthers(reg: Registry, t: Tables, u: Tables, p: Pid, q: Pid)
    requires WellFormed(reg) && Keyed(reg, t) && p in reg.specs && Touches(reg, t, u, p)
    requires q in reg.specs && q != p
    ensures BotOf(reg, u, q) == BotOf(reg, t, q)
  {
    forall j | 0 <= j < 5 ensures KitOf(u.items, q)[j] == KitOf(t.items, q)[j] {
      assert Place(q, SLOTS[j]).owner != p;
    }
    assert WeaponFlag(q) != WeaponFlag(p);
  }

  lemma TouchedElsewhere(reg: Registry, t: Tables, u: Tables, p: Pid)
    requires p in reg.specs && Touches(reg, t, u, p)
    ensures SameElsewhere(reg, t, u)
  {
    assert reg.id(p) in Ids(reg);
  }

  lemma TouchedLogin(reg: Registry, t: Tables, u: Tables, p: Pid, q: Pid, a: AccountId)
    requires WellFormed(reg) && Keyed(reg, t) && p in reg.specs && Touches(reg, t, u, p)
    requires Grows(LineOf(reg, p), BotOf(reg, t, p), BotOf(reg, u, p))
    requires q in reg.specs && a in u.accounts
    ensures reg.fold(u.accounts[a].login) == reg.fold(reg.specs[q].login) <==> a == reg.id(q)
  {
    assert Find(u.accounts, a).Some?;
    if a == reg.id(p) {
      assert a in t.accounts ==> u.accounts[a].login == t.accounts[a].login;
    } else {
      assert Find(t.accounts, a) == Find(u.accounts, a);
    }
  }

  lemma TouchedFreeId(reg: Registry, t: Tables, u: Tables, p: Pid, q: Pid)
    requires WellFormed(reg) && Keyed(reg, t) && p in reg.specs && Touches(reg, t, u, p)
    requires Grows(LineOf(reg, p), BotOf(reg, t, p), BotOf(reg, u, p))
    requires q in reg.specs && reg.id(q) !in u.accounts
    ensures reg.id(q) !in u.index
  {
    assert Find(u.accounts, reg.id(q)).None?;
    if q == p {
      assert BotOf(reg, u, p).account.None?;
    } else {
      assert Find(t.accounts, reg.id(q)) == Find(u.accounts, reg.id(q));
      assert Find(t.index, reg.id(q)) == Find(u.index, reg.id(q));
    }
  }

  lemma TouchedKeyed(reg: Registry, t: Tables, u: Tables, p: Pid)
    requires WellFormed(reg) && Keyed(reg, t) && p in reg.specs && Touches(reg, t, u, p)
    requires Grows(LineOf(reg, p), BotOf(reg, t, p), BotOf(reg, u, p))
    ensures Keyed(reg, u)
  {
    forall q, a | q in reg.specs && a in u.accounts
      ensures reg.fold(u.accounts[a].login) == reg.fold(reg.specs[q].login) <==> a == reg.id(q)
    {
      TouchedLogin(reg, t, u, p, q, a);
    }
    forall q | q in reg.specs && reg.id(q) !in u.accounts ensures reg.id(q) !in u.index {
      TouchedFreeId(reg, t, u, p, q);
    }
    forall q, r | q in reg.specs && reg.id(q) !in u.accounts && r in u.players
      ensures u.players[r].account != reg.id(q)
    {
      TouchedOwner(reg, t, u, p, q, r);
    }
  }

  lemma TouchedOwner(reg: Registry, t: Tables, u: Tables, p: Pid, q: Pid, r: Pid)
    requires WellFormed(reg) && Keyed(reg, t) && p in reg.specs && Touches(reg, t, u, p)
    requires Grows(LineOf(reg, p), BotOf(reg, t, p), BotOf(reg, u, p))
    requires q in reg.specs && reg.id(q) !in u.accounts && r in u.players
    ensures u.players[r].account != reg.id(q)
  {
    assert Find(u.accounts, reg.id(q)).None? && Find(u.players, r).Some?;
    assert BotOf(reg, u, p).account == Find(u.accounts, reg.id(p));
    assert reg.id(q) !in t.accounts by {
      if q != p {
        assert Find(t.accounts, reg.id(q)) == Find(u.accounts, reg.id(q));
      } else {
        assert AccountKept(Find(t.accounts, reg.id(p)), Find(u.accounts, reg.id(p)));
      }
    }
    if r == p {
      assert PlayerAdded(LineOf(reg, p), Find(t.players, p), Find(u.players, p));
    } else {
      assert Find(t.players, r) == Find(u.players, r);
    }
  }

  lemma TouchedNames(reg: Registry, t: Tables, u: Tables, p: Pid, q: Pid, r: Pid)
    requires WellFormed(reg) && Keyed(reg, t) && p in reg.specs && Touches(reg, t, u, p)
    requires Grows(LineOf(reg, p), BotOf(reg, t, p), BotOf(reg, u, p))
    requires q in reg.specs && r != q
    ensures r in t.players ==> Find(u.players, r) == Find(t.players, r)
    ensures r in u.players && r !in t.players ==>
              reg.fold(u.players[r].name) != reg.fold(reg.specs[q].name) && u.players[r].account != reg.id(q)
  {
    if r == p {
      assert PlayerAdded(LineOf(reg, p), Find(t.players, p), Find(u.players, p));
    } else {
      assert Find(u.players, r) == Find(t.players, r);
    }
  }

  lemma TouchedSocials(reg: Registry, t: Tables, u: Tables, p: Pid, q: Pid, a: AccountId)
    requires WellFormed(reg) && Keyed(reg, t) && p in reg.specs && Touches(reg, t, u, p)
    requires Grows(LineOf(reg, p), BotOf(reg, t, p), BotOf(reg, u, p))
    requires q in reg.specs && a != reg.id(q)
    ensures a in t.accounts ==> a in u.accounts && u.accounts[a].social == t.accounts[a].social
    ensures a in u.accounts && a !in t.accounts ==> reg.fold(u.accounts[a].social) != reg.fold(reg.specs[q].social)
  {
    if a == reg.id(p) {
      assert AccountAdded(LineOf(reg, p), Find(t.accounts, a), Find(u.accounts, a));
      assert AccountKept(Find(t.accounts, a), Find(u.accounts, a));
    } else {
      assert Find(u.accounts, a) == Find(t.accounts, a);
    }
  }

  lemma TouchedMentions(reg: Registry, t: Tables, u: Tables, p: Pid, q: Pid, i: AccountId)
    requires WellFormed(reg) && Keyed(reg, t) && p in reg.specs && Touches(reg, t, u, p)
    requires Grows(LineOf(reg, p), BotOf(reg, t, p), BotOf(reg, u, p))
    requires q in reg.specs && i != reg.id(q)
    ensures i in t.index ==> Find(u.index, i) == Find(t.index, i)
    ensures i in u.index && i !in t.index ==> !Mentions(u.index[i], q)
  {
    if i == reg.id(p) {
      assert IndexAdded(LineOf(reg, p), Find(t.index, i), Find(u.index, i));
    } else {
      assert Find(u.index, i) == Find(t.index, i);
    }
  }

  lemma NameStaysOwn(reg: Registry, t: Tables, u: Tables, p: Pid, q: Pid)
    requires WellFormed(reg) && Keyed(reg, t) && p in reg.specs && Touches(reg, t, u, p)
    requires Grows(LineOf(reg, p), BotOf(reg, t, p), BotOf(reg, u, p))
    requires q in reg.specs
    ensures NameIsOwn(reg, u, q) <==> NameIsOwn(reg, t, q)
  {
    forall r | r != q
      ensures r in t.players ==> Find(u.players, r) == Find(t.players, r)
      ensures r in u.players && r !in t.players ==>
                reg.fold(u.players[r].name) != reg.fold(reg.specs[q].name) && u.players[r].account != reg.id(q)
    {
      TouchedNames(reg, t, u, p, q, r);
    }
  }

  lemma SocialStaysOwn(reg: Registry, t: Tables, u: Tables, p: Pid, q: Pid)
    requires WellFormed(reg) && Keyed(reg, t) && p in reg.specs && Touches(reg, t, u, p)
    requires Grows(LineOf(reg, p), BotOf(reg, t, p), BotOf(reg, u, p))
    requires q in reg.specs
    ensures SocialIsOwn(reg, u, q) <==> SocialIsOwn(reg, t, q)
  {
    forall a | a != reg.id(q)
      ensures a in t.accounts ==> a in u.accounts && u.accounts[a].social == t.accounts[a].social
      ensures a in u.accounts && a !in t.accounts ==> reg.fold(u.accounts[a].social) != reg.fold(reg.specs[q].social)
    {
      TouchedSocials(reg, t, u, p, q, a);
    }
  }

  lemma PidStaysOwn(reg: Registry, t: Tables, u: Tables, p: Pid, q: Pid)
    requires WellFormed(reg) && Keyed(reg, t) && p in reg.specs && Touches(reg, t, u, p)
    requires Grows(LineOf(reg, p), BotOf(reg, t, p), BotOf(reg, u, p))
    requires q in reg.specs
    ensures PidIsOwn(reg, u, q) <==> PidIsOwn(reg, t, q)
  {
    forall i | i != reg.id(q)
      ensures i in t.index ==> Find(u.index, i) == Find(t.index, i)
      ensures i in u.index && i !in t.index ==> !Mentions(u.index[i], q)
    {
      TouchedMentions(reg, t, u, p, q, i);
    }
  }

  lemma TouchedAlone(reg: Registry, t: Tables, u: Tables, p: Pid, q: Pid)
    requires WellFormed(reg) && Keyed(reg, t) && p in reg.specs && Touches(reg, t, u, p)
    requires Grows(LineOf(reg, p), BotOf(reg, t, p), BotOf(reg, u, p))
    requires q in reg.specs
    ensures Alone(reg, u, q) <==> Alone(reg, t, q)
  {
    NameStaysOwn(reg, t, u, p, q);
    SocialStaysOwn(reg, t, u, p, q);
    PidStaysOwn(reg, t, u, p, q);
  }

  // ----- each statement's row write touches one bot -----------------------

  lemma LoginFound(reg: Registry, t: Tables, p: Pid)
    requires Keyed(reg, t) && p in reg.specs
    ensures NoSuchLogin(reg, t, reg.specs[p]) <==> reg.id(p) !in t.accounts
  {
    if reg.id(p) in t.accounts {
      assert SameLogin(reg, t.accounts[reg.id(p)], reg.specs[p]);
    }
  }

  lemma ForgetTouches(reg: Registry, t: Tables, p: Pid)
    ensures Touches(reg, t, Forget(t, p), p)
  {
  }

  lemma RegisterTouches(reg: Registry, t: Tables, p: Pid)
    ensures Touches(reg, t, Register(t, p), p)
  {
  }

  lemma AccountTouches(reg: Registry, run: Run, t: Tables, p: Pid, s: Spec)
    ensures Touches(reg, t, AddAccount(reg, run, t, p, s), p)
  {
  }

  lemma PlayerTouches(reg: Registry, run: Run, t: Tables, p: Pid, s: Spec)
    ensures Touches(reg, t, AddPlayer(reg, run, t, p, s), p)
  {
  }

  lemma IndexTouches(reg: Registry, t: Tables, p: Pid)
    requires p in reg.specs && Sound(LineOf(reg, p), BotOf(reg, t, p))
    ensures Touches(reg, t, AddIndex(t, p, reg.specs[p]), p)
  {
  }

  lemma EmpireTouches(reg: Registry, t: Tables, p: Pid)
    requires p in reg.specs && Keyed(reg, t)
    ensures Touches(reg, t, RepairEmpire(t, p, reg.specs[p]), p)
  {
    var u, s := RepairEmpire(t, p, reg.specs[p]), reg.specs[p];
    forall a | a != reg.id(p) ensures Find(t.accounts, a) == Find(u.accounts, a) {
      if a in t.accounts {
        assert reg.fold(t.accounts[a].login) != reg.fold(s.login);
      }
    }
  }

  lemma StockTouches(reg: Registry, t: Tables, p: Pid, s: Spec, j: nat)
    requires j < 5
    ensures Touches(reg, t, Stock(t, p, s, j), p)
  {
    assert StarterSlot(SLOTS[j]);
  }

  lemma FlagTouches(reg: Registry, t: Tables, p: Pid)
    ensures Touches(reg, t, SetFlag(t, p), p)
  {
  }

  lemma FinishTouches(reg: Registry, t: Tables, p: Pid)
    ensures Touches(reg, t, Finish(t, p), p)
  {
  }

  /** Whatever the statement, its row for `p` changes nobody else's rows. */
  lemma WriteTouches(reg: Registry, run: Run, t: Tables, k: nat, p: Pid)
    requires run.spec <= reg.specs.Keys && p in run.spec && k < STATEMENTS
    requires Keyed(reg, t) && Sound(LineOf(reg, p), BotOf(reg, t, p))
    ensures Touches(reg, t, Write(reg, run, t, k, p), p)
  {
    if k == 0 {
      ForgetTouches(reg, t, p);
    } else if k == 1 {
      RegisterTouches(reg, t, p);
    } else if k == 2 {
      AccountTouches(reg, run, t, p, reg.specs[p]);
    } else if k == 3 {
      PlayerTouches(reg, run, t, p, reg.specs[p]);
    } else if k == 4 {
      IndexTouches(reg, t, p);
    } else if k == 5 {
      EmpireTouches(reg, t, p);
    } else if k < 11 {
      StockTouches(reg, t, p, reg.specs[p], k - 6);
    } else if k == 11 {
      FlagTouches(reg, t, p);
    } else {
      FinishTouches(reg, t, p);
    }
  }

  lemma ForgetStage(reg: Registry, missing: bool, t: Tables, p: Pid)
    requires p in reg.specs
    ensures BotOf(reg, Forget(t, p), p) == Stage(LineOf(reg, p), missing, 0, BotOf(reg, t, p))
  {
  }

  lemma RegisterStage(reg: Registry, missing: bool, t: Tables, p: Pid)
    requires p in reg.specs
    ensures BotOf(reg, Register(t, p), p) == Stage(LineOf(reg, p), missing, 1, BotOf(reg, t, p))
  {
  }

  lemma FinishStage(reg: Registry, missing: bool, t: Tables, p: Pid)
    requires p in reg.specs
    ensures BotOf(reg, Finish(t, p), p) == Stage(LineOf(reg, p), missing, 12, BotOf(reg, t, p))
  {
  }

  lemma AccountStage(reg: Registry, run: Run, t: Tables, p: Pid)
    requires p in reg.specs && Keyed(reg, t)
    ensures BotOf(reg, AddAccount(reg, run, t, p, reg.specs[p]), p)
         == Stage(LineOf(reg, p), p in run.missing, 2, BotOf(reg, t, p))
  {
    LoginFound(reg, t, p);
  }

  lemma PlayerStage(reg: Registry, run: Run, t: Tables, p: Pid)
    requires p in reg.specs && Keyed(reg, t)
    ensures BotOf(reg, AddPlayer(reg, run, t, p, reg.specs[p]), p)
         == Stage(LineOf(reg, p), p in run.missing, 3, BotOf(reg, t, p))
  {
    LoginFound(reg, t, p);
  }

  lemma IndexStage(reg: Registry, missing: bool, t: Tables, p: Pid)
    requires p in reg.specs && Sound(LineOf(reg, p), BotOf(reg, t, p))
    ensures BotOf(reg, AddIndex(t, p, reg.specs[p]), p) == Stage(LineOf(reg, p), missing, 4, BotOf(reg, t, p))
  {
  }

  lemma EmpireStage(reg: Registry, missing: bool, t: Tables, p: Pid)
    requires p in reg.specs && Keyed(reg, t) && Sound(LineOf(reg, p), BotOf(reg, t, p))
    ensures BotOf(reg, RepairEmpire(t, p, reg.specs[p]), p) == Stage(LineOf(reg, p), missing, 5, BotOf(reg, t, p))
  {
  }

  lemma SlotsDiffer(i: nat, j: nat)
    requires i < 5 && j < 5 && SLOTS[i] == SLOTS[j]
    ensures i == j
  {
  }

  lemma KitStocked(items: map<Place, Item>, p: Pid, j: nat, item: Item)
    requires j < 5
    ensures KitOf(items[Place(p, SLOTS[j]) := item], p) == KitOf(items, p)[j := Some(item)]
  {
    var after := items[Place(p, SLOTS[j]) := item];
    forall i: nat | i < 5 && i != j ensures KitOf(after, p)[i] == KitOf(items, p)[i] {
      if SLOTS[i] == SLOTS[j] {
        SlotsDiffer(i, j);
      }
    }
  }

  lemma KitStage(reg: Registry, missing: bool, t: Tables, j: nat, p: Pid)
    requires p in reg.specs && j < 5
    ensures BotOf(reg, Stock(t, p, reg.specs[p], j), p) == Stage(LineOf(reg, p), missing, j + 6, BotOf(reg, t, p))
  {
    KitStocked(t.items, p, j, Starter(reg.specs[p].job, j));
    assert KitOf(t.items, p)[j] == Find(t.items, Place(p, SLOTS[j]));
  }

  lemma FlagStage(reg: Registry, missing: bool, t: Tables, p: Pid)
    requires p in reg.specs
    ensures BotOf(reg, SetFlag(t, p), p) == Stage(LineOf(reg, p), missing, 11, BotOf(reg, t, p))
  {
  }

  /** Whatever the statement, its row for `p` does to the tables what the stage
      does to the bot. */
  lemma WriteStages(reg: Registry, run: Run, t: Tables, k: nat, p: Pid)
    requires run.spec <= reg.specs.Keys && p in run.spec && k < STATEMENTS
    requires Keyed(reg, t) && Sound(LineOf(reg, p), BotOf(reg, t, p))
    ensures BotOf(reg, Write(reg, run, t, k, p), p) == Stage(LineOf(reg, p), p in run.missing, k, BotOf(reg, t, p))
  {
    var missing := p in run.missing;
    if k == 0 {
      ForgetStage(reg, missing, t, p);
    } else if k == 1 {
      RegisterStage(reg, missing, t, p);
    } else if k == 2 {
      AccountStage(reg, run, t, p);
    } else if k == 3 {
      PlayerStage(reg, run, t, p);
    } else if k == 4 {
      IndexStage(reg, missing, t, p);
    } else if k == 5 {
      EmpireStage(reg, missing, t, p);
    } else if k < 11 {
      KitStage(reg, missing, t, k - 6, p);
    } else if k == 11 {
      FlagStage(reg, missing, t, p);
    } else {
      FinishStage(reg, missing, t, p);
    }
  }
}
