/** The tables the bot seed works on, the rules by which it leaves a PID alone,
    and the row writes of each of its statements. */
module SeedTables {
  import opened Common

  type Pid = nat
  type AccountId = nat

  /** Where a new character stands and what it is made of. */
  datatype Body = Body(mapIndex: nat, x: int, y: int, hp: int, mp: int, st: int, ht: int, dx: int, iq: int)

  /** One line of the registry. */
  datatype Spec = Spec(login: string, social: string, name: string, job: nat, empire: int, body: Body)

  datatype Player = Player(account: AccountId, name: string, job: nat, body: Body, stamina: int, level: int, gold: int)

  datatype Account = Account(login: string, social: string, password: string, status: string, empire: int)

  datatype Index = Index(pid1: Pid, pid2: Pid, pid3: Pid, pid4: Pid, empire: int)

  datatype SeedState = Pending | Complete | Adopted

  datatype Ledger = Ledger(version: nat, state: SeedState)

  datatype Past = Past(seedName: string, humanName: string)

  datatype Window = Equipment | Inventory

  datatype Slot = Slot(window: Window, pos: nat)

  datatype Place = Place(owner: Pid, slot: Slot)

  datatype Item = Item(vnum: nat, count: nat)

  datatype Flag = Flag(owner: Pid, quest: string, state: string)

  datatype Tables = Tables(
    players: map<Pid, Player>, accounts: map<AccountId, Account>, index: map<AccountId, Index>,
    ledger: map<Pid, Ledger>, history: map<Pid, Past>, items: map<Place, Item>, quests: map<Flag, int>)

  /** `fold` is the collation's key: what a comparison without BINARY compares.
      `id` names the account carrying a bot's login, or the id the next insert of
      that login will be given. */
  datatype Registry = Registry(specs: map<Pid, Spec>, fold: string -> string, id: Pid -> AccountId)

  /** What the registry's own keys guarantee. */
  ghost predicate WellFormed(reg: Registry) {
    && 0 !in reg.specs
    && (forall p | p in reg.specs :: reg.specs[p].job < 8)
    && forall p, q | p in reg.specs && q in reg.specs && p != q ::
         && reg.fold(reg.specs[p].login) != reg.fold(reg.specs[q].login)
         && reg.fold(reg.specs[p].social) != reg.fold(reg.specs[q].social)
         && reg.fold(reg.specs[p].name) != reg.fold(reg.specs[q].name)
  }

  /** Logins are unique ignoring case and ids are generated: `id` is the only
      account with the bot's login, and where there is none it is unused. */
  ghost predicate Keyed(reg: Registry, t: Tables) {
    && (forall p, q | p in reg.specs && q in reg.specs && p != q :: reg.id(p) != reg.id(q))
    && (forall p, a | p in reg.specs && a in t.accounts ::
          reg.fold(t.accounts[a].login) == reg.fold(reg.specs[p].login) <==> a == reg.id(p))
    && (forall p | p in reg.specs && reg.id(p) !in t.accounts :: reg.id(p) !in t.index)
    && (forall p, q | p in reg.specs && reg.id(p) !in t.accounts && q in t.players :: t.players[q].account != reg.id(p))
  }

  // ----- the rules by which a PID is left alone ---------------------------

  /** The seed name, or the nickname the ledger of nicknames gave in its place. */
  predicate Named(s: Spec, name: string, past: Option<Past>) {
    name == s.name || (past.Some? && past.value.seedName == s.name && past.value.humanName == name)
  }

  function PastOf(t: Tables, p: Pid): Option<Past> {
    if p in t.history then Some(t.history[p]) else None
  }

  predicate Exact(i: Index, p: Pid, s: Spec) {
    i.pid1 == p && i.pid2 == 0 && i.pid3 == 0 && i.pid4 == 0 && i.empire == s.empire
  }

  predicate Mentions(i: Index, p: Pid) {
    p == i.pid1 || p == i.pid2 || p == i.pid3 || p == i.pid4
  }

  predicate SameLogin(reg: Registry, a: Account, s: Spec) {
    reg.fold(a.login) == reg.fold(s.login)
  }

  predicate ForeignCharacter(t: Tables, p: Pid, s: Spec) {
    p in t.players && (t.players[p].job != s.job || !Named(s, t.players[p].name, PastOf(t, p)))
  }

  predicate NameWornByAnother(reg: Registry, t: Tables, p: Pid, s: Spec) {
    exists q | q in t.players :: reg.fold(t.players[q].name) == reg.fold(s.name) && q != p
  }

  predicate ForeignAccount(t: Tables, p: Pid, s: Spec) {
    p in t.players &&
    var a := t.players[p].account;
    a !in t.accounts || t.accounts[a].login != s.login || t.accounts[a].social != s.social
  }

  predicate LoginOwnsAnother(reg: Registry, t: Tables, p: Pid, s: Spec) {
    exists q | q in t.players ::
      q != p && t.players[q].account in t.accounts && SameLogin(reg, t.accounts[t.players[q].account], s)
  }

  predicate SocialElsewhere(reg: Registry, t: Tables, s: Spec) {
    exists a | a in t.accounts :: reg.fold(t.accounts[a].social) == reg.fold(s.social) && t.accounts[a].login != s.login
  }

  predicate Owned(t: Tables, a: AccountId) {
    exists q | q in t.players :: t.players[q].account == a
  }

  /** Not unmistakably an unused partial result of this seed. */
  predicate Used(t: Tables, a: AccountId, s: Spec)
    requires a in t.accounts
  {
    || t.accounts[a].social != s.social || t.accounts[a].password != "!" || t.accounts[a].status != "BLOCK"
    || Owned(t, a) || a in t.index
  }

  predicate MissingButUsed(reg: Registry, t: Tables, p: Pid, s: Spec) {
    p !in t.players && exists a | a in t.accounts :: SameLogin(reg, t.accounts[a], s) && Used(t, a, s)
  }

  predicate ForeignIndex(t: Tables, p: Pid, s: Spec) {
    p in t.players && t.players[p].account in t.accounts && t.players[p].account in t.index
    && !Exact(t.index[t.players[p].account], p, s)
  }

  predicate NoSuchLogin(reg: Registry, t: Tables, s: Spec) {
    forall a | a in t.accounts :: !SameLogin(reg, t.accounts[a], s)
  }

  predicate LoginIsNot(reg: Registry, t: Tables, s: Spec, i: AccountId) {
    exists a | a in t.accounts :: SameLogin(reg, t.accounts[a], s) && i != a
  }

  predicate InForeignIndex(reg: Registry, t: Tables, p: Pid, s: Spec) {
    exists i | i in t.index ::
      Mentions(t.index[i], p)
      && (p !in t.players || NoSuchLogin(reg, t, s) || LoginIsNot(reg, t, s, i) || !Exact(t.index[i], p, s))
  }

  predicate LedgerConflict(t: Tables, p: Pid) {
    p in t.ledger && (t.ledger[p].version != 1 || (p !in t.players && t.ledger[p].state != Pending))
  }

  predicate Skipped(reg: Registry, t: Tables, p: Pid)
    requires p in reg.specs
  {
    var s := reg.specs[p];
    || ForeignCharacter(t, p, s) || NameWornByAnother(reg, t, p, s) || ForeignAccount(t, p, s)
    || LoginOwnsAnother(reg, t, p, s) || SocialElsewhere(reg, t, s) || MissingButUsed(reg, t, p, s)
    || ForeignIndex(t, p, s) || InForeignIndex(reg, t, p, s) || LedgerConflict(t, p)
  }

  /** What one run fixes at its start: the PIDs it cares for, and those of them
      that have no character yet. */
  datatype Run = Run(spec: set<Pid>, missing: set<Pid>)

  function RunOf(reg: Registry, t: Tables): Run {
    var spec := set p | p in reg.specs && !Skipped(reg, t, p);
    Run(spec, set p | p in spec && p !in t.players)
  }

  // ----- the row writes ---------------------------------------------------

  function NewAccount(s: Spec): Account {
    Account(s.login, s.social, "!", "BLOCK", s.empire)
  }

  function NewPlayer(s: Spec, a: AccountId): Player {
    Player(a, s.name, s.job, s.body, 800, 1, 2500)
  }

  function NewIndex(p: Pid, s: Spec): Index {
    Index(p, 0, 0, 0, s.empire)
  }

  const SLOTS: seq<Slot> :=
    [Slot(Equipment, 4), Slot(Equipment, 0), Slot(Inventory, 0), Slot(Inventory, 1), Slot(Inventory, 2)]

  /** The starter item of slot `j`: weapon, armour, two stacks of potions, chest. */
  function Starter(job: nat, j: nat): Item {
    match j
    case 0 => Item(if job in {0, 2, 4, 6} then 10 else if job in {1, 5} then 1000 else 7000, 1)
    case 1 =>
      Item(if job in {0, 4} then 11200 else if job in {1, 5} then 11400 else if job in {2, 6} then 11600 else 11800, 1)
    case 2 => Item(27001, 200)
    case 3 => Item(27004, 200)
    case _ => Item(if job in {0, 2, 4, 6} then 50187 else if job in {1, 5} then 50212 else 50213, 1)
  }

  function WeaponFlag(p: Pid): Flag {
    Flag(p, "give_basic_weapon", "basic_weapon")
  }

  predicate IsPending(t: Tables, p: Pid) {
    p in t.ledger && t.ledger[p].state == Pending
  }

  /** A nickname held by nobody is dropped. */
  function Forget(t: Tables, p: Pid): Tables {
    if p in t.players then t else t.(history := t.history - {p})
  }

  function Register(t: Tables, p: Pid): Tables {
    if p in t.ledger then t
    else t.(ledger := t.ledger[p := Ledger(1, if p in t.players then Adopted else Pending)])
  }

  function AddAccount(reg: Registry, run: Run, t: Tables, p: Pid, s: Spec): Tables {
    if p in run.missing && IsPending(t, p) && NoSuchLogin(reg, t, s)
    then t.(accounts := t.accounts[reg.id(p) := NewAccount(s)]) else t
  }

  function AddPlayer(reg: Registry, run: Run, t: Tables, p: Pid, s: Spec): Tables {
    if p in run.missing && IsPending(t, p) && !NoSuchLogin(reg, t, s) && p !in t.players
    then t.(players := t.players[p := NewPlayer(s, reg.id(p))]) else t
  }

  function AddIndex(t: Tables, p: Pid, s: Spec): Tables {
    if p in t.players && t.players[p].job == s.job && Named(s, t.players[p].name, PastOf(t, p)) then
      var a := t.players[p].account;
      if a in t.accounts && t.accounts[a].login == s.login && t.accounts[a].social == s.social && a !in t.index
      then t.(index := t.index[a := NewIndex(p, s)]) else t
    else t
  }

  predicate EmpireOff(t: Tables, p: Pid, s: Spec, a: AccountId) {
    && a in t.accounts && a in t.index && t.index[a].pid1 == p
    && t.accounts[a].login == s.login && t.accounts[a].empire != s.empire
  }

  /** Every account the repair's join finds for this PID. */
  function RepairEmpire(t: Tables, p: Pid, s: Spec): Tables {
    t.(accounts := map a | a in t.accounts ::
      if EmpireOff(t, p, s, a) then t.accounts[a].(empire := s.empire) else t.accounts[a])
  }

  function Stock(t: Tables, p: Pid, s: Spec, j: nat): Tables
    requires j < 5
  {
    var place := Place(p, SLOTS[j]);
    if IsPending(t, p) && place !in t.items then t.(items := t.items[place := Starter(s.job, j)]) else t
  }

  function SetFlag(t: Tables, p: Pid): Tables {
    if IsPending(t, p) then
      t.(quests := t.quests[WeaponFlag(p) := if WeaponFlag(p) in t.quests then Max(t.quests[WeaponFlag(p)], 1) else 1])
    else t
  }

  function Finish(t: Tables, p: Pid): Tables {
    if IsPending(t, p) then t.(ledger := t.ledger[p := Ledger(1, Complete)]) else t
  }

  const STATEMENTS: nat := 13

  /** Statement `k`'s write for one PID. */
  function Write(reg: Registry, run: Run, t: Tables, k: nat, p: Pid): Tables
    requires k < STATEMENTS && run.spec <= reg.specs.Keys
  {
    if k == 0 then Forget(t, p)
    else if p !in run.spec then t
    else
      var s := reg.specs[p];
      if k == 1 then Register(t, p)
      else if k == 2 then AddAccount(reg, run, t, p, s)
      else if k == 3 then AddPlayer(reg, run, t, p, s)
      else if k == 4 then AddIndex(t, p, s)
      else if k == 5 then RepairEmpire(t, p, s)
      else if k < 11 then Stock(t, p, s, k - 6)
      else if k == 11 then SetFlag(t, p)
      else Finish(t, p)
  }

  /** The row writes of one run. */
  type Writer = (Tables, nat, Pid) -> Tables

  function WriterOf(reg: Registry, run: Run): Writer {
    (t: Tables, k: nat, p: Pid) => if k < STATEMENTS && run.spec <= reg.specs.Keys then Write(reg, run, t, k, p) else t
  }

  /** In what order each statement visits its rows. */
  type Orders = nat -> seq<Pid>

  /** The first `i` rows of statement `k`. */
  function Rows(write: Writer, t: Tables, k: nat, order: seq<Pid>, i: nat): Tables
    requires i <= |order|
  {
    if i == 0 then t else write(Rows(write, t, k, order, i - 1), k, order[i - 1])
  }

  /** The first `k` statements. */
  function Statements(write: Writer, t: Tables, orders: Orders, k: nat): Tables {
    if k == 0 then t
    else Rows(write, Statements(write, t, orders, k - 1), k - 1, orders(k - 1), |orders(k - 1)|)
  }

  /** The tables a run leaves when it stops after `i` rows of statement `k`. */
  function Stopped(reg: Registry, t: Tables, orders: Orders, k: nat, i: nat): Tables
    requires i <= |orders(k)|
  {
    var write := WriterOf(reg, RunOf(reg, t));
    Rows(write, Statements(write, t, orders, k), k, orders(k), i)
  }

  /** The tables a whole run leaves. */
  function Seeded(reg: Registry, t: Tables, orders: Orders): Tables {
    Statements(WriterOf(reg, RunOf(reg, t)), t, orders, STATEMENTS)
  }

  /** Every row a statement can concern is visited, in any order. */
  ghost predicate Thorough(reg: Registry, t: Tables, orders: Orders) {
    forall k: nat, p | k < STATEMENTS && (p in reg.specs || (k == 0 && p in t.history)) :: p in orders(k)
  }
}
