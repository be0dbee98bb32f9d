/** One bot's part of the tables, what each statement does to it, and why a run
    that starts again from any of those states ends in the same one. */
module SeedBot {
  import opened Common
  import opened SeedTables

  /** The rows that belong to one registry line: its character, the account under
      its login, that account's index, and what is keyed by its PID. */
  datatype Bot = Bot(
    player: Option<Player>, account: Option<Account>, index: Option<Index>, ledger: Option<Ledger>,
    past: Option<Past>, kit: seq<Option<Item>>, flag: Option<int>)

  /** A registry line with the account id that goes with it. */
  datatype Line = Line(pid: Pid, id: AccountId, spec: Spec)

  predicate IsPending(b: Bot) {
    b.ledger.Some? && b.ledger.value.state == Pending
  }

  function Stage(l: Line, missing: bool, k: nat, b: Bot): Bot
    requires |b.kit| == 5
  {
    var s := l.spec;
    if k == 0 then if b.player.Some? then b else b.(past := None)
    else if k == 1 then
      if b.ledger.Some? then b else b.(ledger := Some(Ledger(1, if b.player.Some? then Adopted else Pending)))
    else if k == 2 then if missing && IsPending(b) && b.account.None? then b.(account := Some(NewAccount(s))) else b
    else if k == 3 then
      if missing && IsPending(b) && b.account.Some? && b.player.None? then b.(player := Some(NewPlayer(s, l.id))) else b
    else if k == 4 then if b.player.Some? && b.index.None? then b.(index := Some(NewIndex(l.pid, s))) else b
    else if k == 5 then
      if b.account.Some? && b.index.Some? then b.(account := Some(b.account.value.(empire := s.empire))) else b
    else if k < 11 then
      if IsPending(b) && b.kit[k - 6].None? then b.(kit := b.kit[k - 6 := Some(Starter(s.job, k - 6))]) else b
    else if k == 11 then
      if IsPending(b) then b.(flag := Some(if b.flag.Some? then Max(b.flag.value, 1) else 1)) else b
    else if IsPending(b) then b.(ledger := Some(Ledger(1, Complete))) else b
  }

  function Stages(l: Line, missing: bool, b: Bot, k: nat): (r: Bot)
    requires |b.kit| == 5
    ensures |r.kit| == 5
  {
    if k == 0 then b else Stage(l, missing, k - 1, Stages(l, missing, b, k - 1))
  }

  /** What not being skipped means for the bot's own rows. */
  predicate Sound(l: Line, b: Bot) {
    && |b.kit| == 5
    && (b.player.Some? ==>
          && b.player.value.job == l.spec.job && Named(l.spec, b.player.value.name, b.past)
          && b.player.value.account == l.id && b.account.Some?
          && (b.index.Some? ==> Exact(b.index.value, l.pid, l.spec)))
    && (b.account.Some? ==> b.account.value.login == l.spec.login && b.account.value.social == l.spec.social)
    && (b.player.None? ==> b.index.None?)
    && (b.player.None? && b.account.Some? ==> b.account.value.password == "!" && b.account.value.status == "BLOCK")
    && (b.ledger.Some? ==> b.ledger.value.version == 1 && (b.player.None? ==> b.ledger.value.state == Pending))
  }

  /** Whether the bot is, or is about to become, one this seed still has to stock. */
  predicate Unfinished(b: Bot) {
    if b.ledger.Some? then IsPending(b) else b.player.None?
  }

  /** How a whole run leaves the bot. */
  function Done(l: Line, b: Bot): Bot
    requires |b.kit| == 5
  {
    Bot(
      Some(if b.player.Some? then b.player.value else NewPlayer(l.spec, l.id)),
      Some((if b.account.Some? then b.account.value else NewAccount(l.spec)).(empire := l.spec.empire)),
      Some(if b.index.Some? then b.index.value else NewIndex(l.pid, l.spec)),
      Some(if Unfinished(b) then Ledger(1, Complete)
           else if b.ledger.Some? then b.ledger.value else Ledger(1, Adopted)),
      if b.player.Some? then b.past else None,
      if Unfinished(b) then
        seq(5, j requires 0 <= j < 5 => Some(if b.kit[j].Some? then b.kit[j].value else Starter(l.spec.job, j)))
      else b.kit,
      if Unfinished(b) then Some(if b.flag.Some? then Max(b.flag.value, 1) else 1) else b.flag)
  }

  /** What the statements before `k` have already settled. */
  predicate Reached(l: Line, missing: bool, b: Bot, k: nat) {
    && Sound(l, b)
    && (b.player.None? ==> missing)
    && (k > 0 && b.player.None? ==> b.past.None?)
    && (k > 1 ==> b.ledger.Some?)
    && (k > 2 ==> b.account.Some?)
    && (k > 3 ==> b.player.Some?)
    && (k > 4 ==> b.index.Some?)
    && (k > 5 ==> b.account.value.empire == l.spec.empire)
    && (IsPending(b) ==> forall j | 0 <= j < 5 && k > 6 + j :: b.kit[j].Some?)
    && (IsPending(b) && k > 11 ==> b.flag.Some? && b.flag.value >= 1)
    && (k > 12 ==> !IsPending(b))
  }

  lemma StageReaches(l: Line, missing: bool, b: Bot, k: nat)
    requires k < STATEMENTS && Reached(l, missing, b, k)
    ensures Reached(l, missing, Stage(l, missing, k, b), k + 1)
  {
  }

  lemma StageKeepsTheEnd(l: Line, missing: bool, b: Bot, k: nat)
    requires k < STATEMENTS && Reached(l, missing, b, k)
    ensures Done(l, Stage(l, missing, k, b)) == Done(l, b)
  {
  }

  lemma StageTwice(l: Line, missing: bool, b: Bot, k: nat)
    requires k < STATEMENTS && |b.kit| == 5
    ensures Stage(l, missing, k, Stage(l, missing, k, b)) == Stage(l, missing, k, b)
  {
  }

  lemma {:induction false} StagesReach(l: Line, b: Bot, k: nat)
    requires k <= STATEMENTS && Sound(l, b)
    ensures var r := Stages(l, b.player.None?, b, k);
      Reached(l, b.player.None?, r, k) && Done(l, r) == Done(l, b)
  {
    if k > 0 {
      StagesReach(l, b, k - 1);
      var r := Stages(l, b.player.None?, b, k - 1);
      StageReaches(l, b.player.None?, r, k - 1);
      StageKeepsTheEnd(l, b.player.None?, r, k - 1);
    }
  }

  lemma AllStagesAreDone(l: Line, b: Bot)
    requires Sound(l, b)
    ensures Stages(l, b.player.None?, b, STATEMENTS) == Done(l, b)
  {
    StagesReach(l, b, STATEMENTS);
    var r := Stages(l, b.player.None?, b, STATEMENTS);
    assert Done(l, r) == r;
  }

  /** Starting again from wherever a run stopped ends where the run would have. */
  lemma RestartEndsTheSame(l: Line, b: Bot, k: nat)
    requires k <= STATEMENTS && Sound(l, b)
    ensures var r := Stages(l, b.player.None?, b, k);
      Sound(l, r) && Stages(l, r.player.None?, r, STATEMENTS) == Stages(l, b.player.None?, b, STATEMENTS)
  {
    StagesReach(l, b, k);
    AllStagesAreDone(l, b);
    AllStagesAreDone(l, Stages(l, b.player.None?, b, k));
  }

  /** What one statement leaves alone. */
  predicate Spares(b: Bot, c: Bot) {
    && |b.kit| == 5 && |c.kit| == 5
    && (b.player.Some? ==> c.player == b.player && c.past == b.past)
    && (b.account.Some? ==> c.account.Some? && c.account.value == b.account.value.(empire := c.account.value.empire))
    && (b.index.Some? ==> c.index == b.index)
    && (forall j | 0 <= j < 5 && b.kit[j].Some? :: c.kit[j] == b.kit[j])
    && (!Unfinished(b) ==>
          c.kit == b.kit && c.flag == b.flag && !Unfinished(c) && (b.ledger.Some? ==> c.ledger == b.ledger))
  }

  lemma StageSpares(l: Line, missing: bool, b: Bot, k: nat)
    requires k < STATEMENTS && Reached(l, missing, b, k)
    ensures Spares(b, Stage(l, missing, k, b))
  {
  }

  /** A character that was there keeps everything a player would notice, and one
      the seed no longer stocks keeps its items and its quest flag. */
  lemma {:induction false} StagesSpare(l: Line, b: Bot, k: nat)
    requires k <= STATEMENTS && Sound(l, b)
    ensures Spares(b, Stages(l, b.player.None?, b, k))
  {
    if k > 0 {
      StagesSpare(l, b, k - 1);
      StagesReach(l, b, k - 1);
      StageSpares(l, b.player.None?, Stages(l, b.player.None?, b, k - 1), k - 1);
    }
  }
}
