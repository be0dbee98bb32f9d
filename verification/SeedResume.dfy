/** Whole runs of the seed: what each leaves, and why it may be stopped between
    any two row writes and started again. */
module SeedResume {
  import opened Common
  import opened SeedTables
  import opened SeedBot
  import opened SeedRuns

  // ----- along a run ------------------------------------------------------

  /** A registry line's rows after `m` statements; a skipped PID can only lose a
      nickname nobody wears. */
  function BotAt(reg: Registry, run: Run, b: Bot, p: Pid, m: nat): Bot
    requires p in reg.specs && |b.kit| == 5
  {
    if p in run.spec then Stages(LineOf(reg, p), b.player.None?, b, m)
    else if m > 0 then Stage(LineOf(reg, p), false, 0, b)
    else b
  }

  function Progress(k: nat, done: set<Pid>, p: Pid): nat {
    if p in done then k + 1 else k
  }

  /** Nicknames of missing characters go with the first statement. */
  function PastAt(start: Tables, p: Pid, m: nat): Option<Past> {
    if p in start.players || m == 0 then Find(start.history, p) else None
  }

  /** `run` cares for registry lines whose rows are sound, and knows which of them
      have no character. */
  ghost predicate Fits(reg: Registry, run: Run, start: Tables) {
    && WellFormed(reg) && run.spec <= reg.specs.Keys
    && (forall p | p in run.spec :: Sound(LineOf(reg, p), BotOf(reg, start, p)))
    && forall p | p in run.spec :: p in run.missing <==> BotOf(reg, start, p).player.None?
  }

  ghost predicate AloneAsBefore(reg: Registry, start: Tables, t: Tables) {
    forall p | p in reg.specs :: Alone(reg, t, p) <==> Alone(reg, start, p)
  }

  ghost predicate BotsAt(reg: Registry, run: Run, start: Tables, t: Tables, k: nat, done: set<Pid>) {
    forall p | p in reg.specs :: BotOf(reg, t, p) == BotAt(reg, run, BotOf(reg, start, p), p, Progress(k, done, p))
  }

  ghost predicate PastsAt(start: Tables, t: Tables, k: nat, done: set<Pid>) {
    forall p :: Find(t.history, p) == PastAt(start, p, Progress(k, done, p))
  }

  /** `t` is what the run begun at `start` has made of the tables once statement
      `k` has written its rows for `done`. */
  ghost predicate Underway(reg: Registry, run: Run, start: Tables, t: Tables, k: nat, done: set<Pid>) {
    && Keyed(reg, t) && AloneAsBefore(reg, start, t) && BotsAt(reg, run, start, t, k, done)
    && PastsAt(start, t, k, done) && SameElsewhere(reg, start, t)
  }

  lemma StageGrows(l: Line, missing: bool, b: Bot, k: nat)
    requires k < STATEMENTS && Reached(l, missing, b, k)
    ensures Grows(l, b, Stage(l, missing, k, b))
  {
  }

  lemma SameElsewhereChains(reg: Registry, t: Tables, u: Tables, v: Tables)
    requires SameElsewhere(reg, t, u) && SameElsewhere(reg, u, v)
    ensures SameElsewhere(reg, t, v)
  {
  }

  lemma RunStarts(reg: Registry, run: Run, start: Tables)
    requires Keyed(reg, start)
    ensures Underway(reg, run, start, start, 0, {})
  {
  }

  lemma RunFits(reg: Registry, start: Tables)
    requires WellFormed(reg) && Keyed(reg, start)
    ensures Fits(reg, RunOf(reg, start), start)
  {
    forall p | p in RunOf(reg, start).spec ensures Sound(LineOf(reg, p), BotOf(reg, start, p)) {
      NotSkippedIsSound(reg, start, p);
    }
  }

  // ----- the first statement ----------------------------------------------

  lemma NothingYet(l: Line, missing: bool, b: Bot)
    requires |b.kit| == 5
    ensures Stages(l, missing, b, 0) == b && Stages(l, missing, b, 1) == Stage(l, missing, 0, b)
    ensures Stage(l, missing, 0, b).player == b.player
  {
    assert Stages(l, missing, b, 0) == b;
  }

  lemma NobodyNewYet(reg: Registry, run: Run, start: Tables, t: Tables, done: set<Pid>, p: Pid)
    requires BotsAt(reg, run, start, t, 0, done) && SameElsewhere(reg, start, t)
    ensures p in t.players <==> p in start.players
  {
    if p in reg.specs {
      NothingYet(LineOf(reg, p), BotOf(reg, start, p).player.None?, BotOf(reg, start, p));
      assert BotOf(reg, t, p).player == BotOf(reg, start, p).player;
    } else {
      assert Find(start.players, p) == Find(t.players, p);
    }
  }

  lemma ForgottenOthers(reg: Registry, t: Tables, p: Pid, q: Pid)
    requires q != p
    ensures BotOf(reg, Forget(t, p), q) == BotOf(reg, t, q)
  {
  }

  /** One bot after the first statement, from either side of its row. */
  lemma FirstStage(reg: Registry, run: Run, b: Bot, p: Pid, m: nat)
    requires p in reg.specs && |b.kit| == 5 && m <= 1
    ensures Stage(LineOf(reg, p), b.player.None?, 0, BotAt(reg, run, b, p, m)) == BotAt(reg, run, b, p, 1)
  {
    NothingYet(LineOf(reg, p), b.player.None?, b);
    StageTwice(LineOf(reg, p), b.player.None?, b, 0);
  }

  lemma BotForgets(reg: Registry, run: Run, start: Tables, t: Tables, done: set<Pid>, p: Pid)
    requires BotsAt(reg, run, start, t, 0, done)
    ensures BotsAt(reg, run, start, Forget(t, p), 0, done + {p})
  {
    forall q | q in reg.specs
      ensures BotOf(reg, Forget(t, p), q) == BotAt(reg, run, BotOf(reg, start, q), q, Progress(0, done + {p}, q))
    {
      var b := BotOf(reg, start, q);
      assert BotOf(reg, t, q) == BotAt(reg, run, b, q, Progress(0, done, q));
      if q == p {
        ForgetStage(reg, b.player.None?, t, p);
        FirstStage(reg, run, b, p, Progress(0, done, p));
      } else {
        ForgottenOthers(reg, t, p, q);
      }
    }
  }

  lemma ForgottenKeyed(reg: Registry, t: Tables, p: Pid)
    requires Keyed(reg, t)
    ensures Keyed(reg, Forget(t, p))
  {
  }

  lemma ForgottenElsewhere(reg: Registry, start: Tables, t: Tables, p: Pid)
    requires AloneAsBefore(reg, start, t) && SameElsewhere(reg, start, t)
    ensures AloneAsBefore(reg, start, Forget(t, p)) && SameElsewhere(reg, start, Forget(t, p))
  {
    forall q | q in reg.specs ensures Alone(reg, Forget(t, p), q) <==> Alone(reg, start, q) {
      assert Alone(reg, t, q) <==> Alone(reg, start, q);
    }
  }

  lemma PastForgets(reg: Registry, run: Run, start: Tables, t: Tables, done: set<Pid>, p: Pid)
    requires BotsAt(reg, run, start, t, 0, done) && SameElsewhere(reg, start, t) && PastsAt(start, t, 0, done)
    ensures PastsAt(start, Forget(t, p), 0, done + {p})
  {
    NobodyNewYet(reg, run, start, t, done, p);
    forall q ensures Find(Forget(t, p).history, q) == PastAt(start, q, Progress(0, done + {p}, q)) {
      assert Find(t.history, q) == PastAt(start, q, Progress(0, done, q));
    }
  }

  lemma NicknameDropped(reg: Registry, run: Run, start: Tables, t: Tables, done: set<Pid>, p: Pid)
    requires Underway(reg, run, start, t, 0, done)
    ensures Underway(reg, run, start, Forget(t, p), 0, done + {p})
  {
    BotForgets(reg, run, start, t, done, p);
    PastForgets(reg, run, start, t, done, p);
    ForgottenKeyed(reg, t, p);
    ForgottenElsewhere(reg, start, t, p);
  }

  // ----- the others -------------------------------------------------------

  /** What one bot's row does, whoever's turn it was before. */
  lemma BotAdvances(reg: Registry, run: Run, start: Tables, t: Tables, k: nat, done: set<Pid>, p: Pid)
    requires Fits(reg, run, start) && Keyed(reg, t) && BotsAt(reg, run, start, t, k, done)
    requires 0 < k < STATEMENTS && p in run.spec
    ensures var u := Write(reg, run, t, k, p);
      && Touches(reg, t, u, p)
      && BotOf(reg, u, p) == BotAt(reg, run, BotOf(reg, start, p), p, k + 1)
      && Grows(LineOf(reg, p), BotOf(reg, t, p), BotOf(reg, u, p))
      && BotOf(reg, u, p).past == BotOf(reg, t, p).past
  {
    var l, b := LineOf(reg, p), BotOf(reg, start, p);
    var missing := b.player.None?;
    var now := BotOf(reg, t, p);
    assert now == BotAt(reg, run, b, p, Progress(k, done, p));
    StagesReach(l, b, k);
    StagesReach(l, b, k + 1);
    WriteTouches(reg, run, t, k, p);
    WriteStages(reg, run, t, k, p);
    if p in done {
      StageTwice(l, missing, Stages(l, missing, b, k), k);
    } else {
      StageGrows(l, missing, now, k);
    }
  }

  lemma BotsWritten(reg: Registry, run: Run, start: Tables, t: Tables, u: Tables, k: nat, done: set<Pid>, p: Pid)
    requires WellFormed(reg) && Keyed(reg, t) && p in reg.specs && Touches(reg, t, u, p)
    requires BotsAt(reg, run, start, t, k, done)
    requires BotOf(reg, u, p) == BotAt(reg, run, BotOf(reg, start, p), p, k + 1)
    ensures BotsAt(reg, run, start, u, k, done + {p})
  {
    forall q | q in reg.specs
      ensures BotOf(reg, u, q) == BotAt(reg, run, BotOf(reg, start, q), q, Progress(k, done + {p}, q))
    {
      if q != p {
        TouchedOthers(reg, t, u, p, q);
        assert BotOf(reg, t, q) == BotAt(reg, run, BotOf(reg, start, q), q, Progress(k, done, q));
      }
    }
  }

  lemma AloneWritten(reg: Registry, start: Tables, t: Tables, u: Tables, p: Pid)
    requires WellFormed(reg) && Keyed(reg, t) && p in reg.specs && Touches(reg, t, u, p)
    requires Grows(LineOf(reg, p), BotOf(reg, t, p), BotOf(reg, u, p)) && AloneAsBefore(reg, start, t)
    ensures AloneAsBefore(reg, start, u)
  {
    forall q | q in reg.specs ensures Alone(reg, u, q) <==> Alone(reg, start, q) {
      TouchedAlone(reg, t, u, p, q);
      assert Alone(reg, t, q) <==> Alone(reg, start, q);
    }
  }

  lemma PastsWritten(reg: Registry, start: Tables, t: Tables, u: Tables, k: nat, done: set<Pid>, p: Pid)
    requires k > 0 && Touches(reg, t, u, p) && BotOf(reg, u, p).past == BotOf(reg, t, p).past
    requires PastsAt(start, t, k, done)
    ensures PastsAt(start, u, k, done + {p})
  {
    forall q ensures Find(u.history, q) == PastAt(start, q, Progress(k, done + {p}, q)) {
      assert Find(u.history, q) == Find(t.history, q) == PastAt(start, q, Progress(k, done, q));
    }
  }

  lemma BotWritten(reg: Registry, run: Run, start: Tables, t: Tables, k: nat, done: set<Pid>, p: Pid)
    requires Fits(reg, run, start) && Underway(reg, run, start, t, k, done) && 0 < k < STATEMENTS && p in run.spec
    ensures Underway(reg, run, start, Write(reg, run, t, k, p), k, done + {p})
  {
    BotAdvances(reg, run, start, t, k, done, p);
    var u := Write(reg, run, t, k, p);
    RowJoins(reg, run, start, t, u, k, done, p);
  }

  lemma RowJoins(reg: Registry, run: Run, start: Tables, t: Tables, u: Tables, k: nat, done: set<Pid>, p: Pid)
    requires WellFormed(reg) && Underway(reg, run, start, t, k, done) && 0 < k < STATEMENTS && p in reg.specs
    requires Touches(reg, t, u, p) && Grows(LineOf(reg, p), BotOf(reg, t, p), BotOf(reg, u, p))
    requires BotOf(reg, u, p) == BotAt(reg, run, BotOf(reg, start, p), p, k + 1)
    requires BotOf(reg, u, p).past == BotOf(reg, t, p).past
    ensures Underway(reg, run, start, u, k, done + {p})
  {
    TouchedKeyed(reg, t, u, p);
    TouchedElsewhere(reg, t, u, p);
    SameElsewhereChains(reg, start, t, u);
    BotsWritten(reg, run, start, t, u, k, done, p);
    AloneWritten(reg, start, t, u, p);
    PastsWritten(reg, start, t, u, k, done, p);
  }

  lemma SkippedBots(reg: Registry, run: Run, start: Tables, t: Tables, k: nat, done: set<Pid>, p: Pid)
    requires BotsAt(reg, run, start, t, k, done) && k > 0 && p !in run.spec
    ensures BotsAt(reg, run, start, t, k, done + {p})
  {
    forall q | q in reg.specs
      ensures BotOf(reg, t, q) == BotAt(reg, run, BotOf(reg, start, q), q, Progress(k, done + {p}, q))
    {
      assert BotOf(reg, t, q) == BotAt(reg, run, BotOf(reg, start, q), q, Progress(k, done, q));
    }
  }

  lemma SkippedPasts(start: Tables, t: Tables, k: nat, done: set<Pid>, p: Pid)
    requires PastsAt(start, t, k, done) && k > 0
    ensures PastsAt(start, t, k, done + {p})
  {
    forall q ensures Find(t.history, q) == PastAt(start, q, Progress(k, done + {p}, q)) {
      assert Find(t.history, q) == PastAt(start, q, Progress(k, done, q));
    }
  }

  lemma RowWritten(reg: Registry, run: Run, start: Tables, t: Tables, k: nat, done: set<Pid>, p: Pid)
    requires Fits(reg, run, start) && Underway(reg, run, start, t, k, done) && k < STATEMENTS
    ensures Underway(reg, run, start, Write(reg, run, t, k, p), k, done + {p})
  {
    if k == 0 {
      NicknameDropped(reg, run, start, t, done, p);
    } else if p in run.spec {
      BotWritten(reg, run, start, t, k, done, p);
    } else {
      SkippedBots(reg, run, start, t, k, done, p);
      SkippedPasts(start, t, k, done, p);
    }
  }

  // ----- statements and runs ----------------------------------------------

  function Visited(order: seq<Pid>): set<Pid> {
    set p | p in order
  }

  lemma WriterWrites(reg: Registry, run: Run, t: Tables, k: nat, p: Pid)
    requires k < STATEMENTS && run.spec <= reg.specs.Keys
    ensures WriterOf(reg, run)(t, k, p) == Write(reg, run, t, k, p)
  {
  }

  ghost predicate RowsSoFar(
    reg: Registry, run: Run, start: Tables, t: Tables, k: nat, order: seq<Pid>, i: nat)
  {
    i <= |order| && Underway(reg, run, start, Rows(WriterOf(reg, run), t, k, order, i), k, Visited(order[..i]))
  }

  lemma RowsGrow(write: Writer, t: Tables, k: nat, order: seq<Pid>, i: nat)
    requires i < |order|
    ensures Rows(write, t, k, order, i + 1) == write(Rows(write, t, k, order, i), k, order[i])
  {
  }

  lemma VisitedGrows(order: seq<Pid>, i: nat)
    requires i < |order|
    ensures Visited(order[..i + 1]) == Visited(order[..i]) + {order[i]}
  {
    assert order[..i + 1] == order[..i] + [order[i]];
  }

  lemma OneMoreRow(reg: Registry, run: Run, start: Tables, t: Tables, k: nat, order: seq<Pid>, i: nat)
    requires Fits(reg, run, start) && k < STATEMENTS && i < |order| && RowsSoFar(reg, run, start, t, k, order, i)
    ensures RowsSoFar(reg, run, start, t, k, order, i + 1)
  {
    var write := WriterOf(reg, run);
    var before := Rows(write, t, k, order, i);
    RowsGrow(write, t, k, order, i);
    WriterWrites(reg, run, before, k, order[i]);
    RowWritten(reg, run, start, before, k, Visited(order[..i]), order[i]);
    VisitedGrows(order, i);
  }

  lemma RowsAdvance(
    reg: Registry, run: Run, start: Tables, t: Tables, k: nat, order: seq<Pid>, holds: nat -> bool, i: nat)
    requires Fits(reg, run, start) && Underway(reg, run, start, t, k, {}) && k < STATEMENTS && i <= |order|
    requires forall n: nat :: holds(n) <==> RowsSoFar(reg, run, start, t, k, order, n)
    ensures holds(0) && forall n: nat | n < i :: holds(n) ==> holds(n + 1)
  {
    assert Visited(order[..0]) == {};
    forall n: nat | n < i && holds(n) ensures holds(n + 1) {
      OneMoreRow(reg, run, start, t, k, order, n);
    }
  }

  lemma RowsUnderway(reg: Registry, run: Run, start: Tables, t: Tables, k: nat, order: seq<Pid>, i: nat)
    requires Fits(reg, run, start) && Underway(reg, run, start, t, k, {}) && k < STATEMENTS && i <= |order|
    ensures RowsSoFar(reg, run, start, t, k, order, i)
  {
    var holds := (n: nat) => RowsSoFar(reg, run, start, t, k, order, n);
    RowsAdvance(reg, run, start, t, k, order, holds, i);
    StepByStep(holds, i);
    assert holds(i);
  }

  lemma NextStatement(reg: Registry, run: Run, start: Tables, t: Tables, k: nat, done: set<Pid>)
    requires Underway(reg, run, start, t, k, done) && reg.specs.Keys <= done
    requires k == 0 ==> start.history.Keys <= done
    ensures Underway(reg, run, start, t, k + 1, {})
  {
    forall p | p in reg.specs
      ensures BotOf(reg, t, p) == BotAt(reg, run, BotOf(reg, start, p), p, Progress(k + 1, {}, p))
    {
      assert BotOf(reg, t, p) == BotAt(reg, run, BotOf(reg, start, p), p, Progress(k, done, p));
    }
    forall p ensures Find(t.history, p) == PastAt(start, p, Progress(k + 1, {}, p)) {
      assert Find(t.history, p) == PastAt(start, p, Progress(k, done, p));
    }
  }

  lemma VisitsAll(keys: set<Pid>, order: seq<Pid>)
    requires forall p | p in keys :: p in order
    ensures keys <= Visited(order[..|order|])
  {
    assert order[..|order|] == order;
  }

  lemma StatementUnderway(reg: Registry, run: Run, start: Tables, t: Tables, k: nat, order: seq<Pid>, u: Tables)
    requires Fits(reg, run, start) && k < STATEMENTS && Underway(reg, run, start, t, k, {})
    requires reg.specs.Keys <= Visited(order[..|order|]) && (k == 0 ==> start.history.Keys <= Visited(order[..|order|]))
    requires u == Rows(WriterOf(reg, run), t, k, order, |order|)
    ensures Underway(reg, run, start, u, k + 1, {})
  {
    RowsUnderway(reg, run, start, t, k, order, |order|);
    NextStatement(reg, run, start, u, k, Visited(order[..|order|]));
  }

  lemma ThoroughOrder(reg: Registry, start: Tables, orders: Orders, k: nat)
    requires Thorough(reg, start, orders) && k < STATEMENTS
    ensures reg.specs.Keys <= Visited(orders(k)[..|orders(k)|])
    ensures k == 0 ==> start.history.Keys <= Visited(orders(k)[..|orders(k)|])
  {
    VisitsAll(reg.specs.Keys, orders(k));
    if k == 0 {
      VisitsAll(start.history.Keys, orders(k));
    }
  }

  lemma StatementsGrow(write: Writer, t: Tables, orders: Orders, k: nat)
    ensures Statements(write, t, orders, k + 1)
         == Rows(write, Statements(write, t, orders, k), k, orders(k), |orders(k)|)
  {
  }

  ghost predicate RunUnderway(reg: Registry, run: Run, start: Tables, orders: Orders, k: nat) {
    Underway(reg, run, start, Statements(WriterOf(reg, run), start, orders, k), k, {})
  }

  lemma StatementsStep(reg: Registry, run: Run, start: Tables, orders: Orders, k: nat)
    requires Fits(reg, run, start) && Thorough(reg, start, orders) && k < STATEMENTS
    requires RunUnderway(reg, run, start, orders, k)
    ensures RunUnderway(reg, run, start, orders, k + 1)
  {
    ThoroughOrder(reg, start, orders, k);
    StatementsGrow(WriterOf(reg, run), start, orders, k);
    StatementUnderway(reg, run, start, Statements(WriterOf(reg, run), start, orders, k), k, orders(k),
                      Statements(WriterOf(reg, run), start, orders, k + 1));
  }

  lemma RunAdvances(reg: Registry, run: Run, start: Tables, orders: Orders, holds: nat -> bool, k: nat)
    requires Fits(reg, run, start) && Keyed(reg, start) && Thorough(reg, start, orders) && k <= STATEMENTS
    requires forall n: nat :: holds(n) <==> RunUnderway(reg, run, start, orders, n)
    ensures holds(0) && forall n: nat | n < k :: holds(n) ==> holds(n + 1)
  {
    RunStarts(reg, run, start);
    forall n: nat | n < k && holds(n) ensures holds(n + 1) {
      StatementsStep(reg, run, start, orders, n);
    }
  }

  lemma StatementsUnderway(reg: Registry, run: Run, start: Tables, orders: Orders, k: nat)
    requires Fits(reg, run, start) && Keyed(reg, start) && Thorough(reg, start, orders) && k <= STATEMENTS
    ensures RunUnderway(reg, run, start, orders, k)
  {
    var holds := (n: nat) => RunUnderway(reg, run, start, orders, n);
    RunAdvances(reg, run, start, orders, holds, k);
    StepByStep(holds, k);
    assert holds(k);
  }

  lemma StoppedUnderway(reg: Registry, start: Tables, orders: Orders, k: nat, i: nat)
    requires WellFormed(reg) && Keyed(reg, start) && Thorough(reg, start, orders) && k < STATEMENTS && i <= |orders(k)|
    ensures Underway(reg, RunOf(reg, start), start, Stopped(reg, start, orders, k, i), k, Visited(orders(k)[..i]))
  {
    var run := RunOf(reg, start);
    RunFits(reg, start);
    StatementsUnderway(reg, run, start, orders, k);
    RowsUnderway(reg, run, start, Statements(WriterOf(reg, run), start, orders, k), k, orders(k), i);
  }

  lemma SeededUnderway(reg: Registry, start: Tables, orders: Orders)
    requires WellFormed(reg) && Keyed(reg, start) && Thorough(reg, start, orders)
    ensures Underway(reg, RunOf(reg, start), start, Seeded(reg, start, orders), STATEMENTS, {})
  {
    RunFits(reg, start);
    StatementsUnderway(reg, RunOf(reg, start), start, orders, STATEMENTS);
  }

  // ----- starting again ---------------------------------------------------

  lemma BotAtIsSound(reg: Registry, run: Run, start: Tables, p: Pid, m: nat)
    requires Fits(reg, run, start) && p in run.spec && m <= STATEMENTS
    ensures Sound(LineOf(reg, p), BotAt(reg, run, BotOf(reg, start, p), p, m))
  {
    StagesReach(LineOf(reg, p), BotOf(reg, start, p), m);
  }

  lemma StillCaredFor(reg: Registry, start: Tables, t: Tables, m: nat, p: Pid)
    requires WellFormed(reg) && Keyed(reg, start) && Keyed(reg, t) && p in RunOf(reg, start).spec && m <= STATEMENTS
    requires BotOf(reg, t, p) == BotAt(reg, RunOf(reg, start), BotOf(reg, start, p), p, m)
    requires Alone(reg, t, p) <==> Alone(reg, start, p)
    ensures !Skipped(reg, t, p)
  {
    RunFits(reg, start);
    BotAtIsSound(reg, RunOf(reg, start), start, p, m);
    NotSkippedIsSound(reg, start, p);
    SoundIsNotSkipped(reg, t, p);
  }

  lemma StillLeftAlone(reg: Registry, run: Run, start: Tables, t: Tables, m: nat, p: Pid)
    requires WellFormed(reg) && Keyed(reg, start) && Keyed(reg, t)
    requires p in reg.specs && p !in run.spec && Skipped(reg, start, p)
    requires BotOf(reg, t, p) == BotAt(reg, run, BotOf(reg, start, p), p, m)
    requires Alone(reg, t, p) <==> Alone(reg, start, p)
    ensures Skipped(reg, t, p)
  {
    if !Skipped(reg, t, p) {
      NotSkippedIsSound(reg, t, p);
      ForgettingIsSound(LineOf(reg, p), BotOf(reg, start, p));
      SoundIsNotSkipped(reg, start, p);
    }
  }

  /** A run that starts again cares for the same PIDs: nothing a run writes makes
      the next one skip a bot, or take up one it had left alone. */
  lemma RestartCaresForTheSame(reg: Registry, start: Tables, t: Tables, k: nat, done: set<Pid>, p: Pid)
    requires WellFormed(reg) && Keyed(reg, start) && k < STATEMENTS && p in reg.specs
    requires Underway(reg, RunOf(reg, start), start, t, k, done)
    ensures Skipped(reg, t, p) <==> Skipped(reg, start, p)
  {
    assert BotOf(reg, t, p) == BotAt(reg, RunOf(reg, start), BotOf(reg, start, p), p, Progress(k, done, p));
    if p in RunOf(reg, start).spec {
      StillCaredFor(reg, start, t, Progress(k, done, p), p);
    } else {
      StillLeftAlone(reg, RunOf(reg, start), start, t, Progress(k, done, p), p);
    }
  }

  lemma ForgettingIsSound(l: Line, b: Bot)
    requires |b.kit| == 5
    ensures Sound(l, Stage(l, false, 0, b)) ==> Sound(l, b)
  {
  }

  lemma SameMap<K(!new), V>(m: map<K, V>, n: map<K, V>)
    requires forall k :: Find(m, k) == Find(n, k)
    ensures m == n
  {
    forall k ensures k in m <==> k in n {
      assert Find(m, k) == Find(n, k);
    }
    forall k | k in m ensures m[k] == n[k] {
      assert Find(m, k) == Find(n, k);
    }
  }

  lemma SameItem(reg: Registry, t: Tables, u: Tables, x: Place)
    requires forall p | p in reg.specs :: BotOf(reg, t, p) == BotOf(reg, u, p)
    requires SameElsewhere(reg, t, u)
    ensures Find(t.items, x) == Find(u.items, x)
  {
    if x.owner in reg.specs && StarterSlot(x.slot) {
      var j: nat :| j < |SLOTS| && SLOTS[j] == x.slot;
      assert BotOf(reg, t, x.owner) == BotOf(reg, u, x.owner);
      assert KitOf(t.items, x.owner)[j] == KitOf(u.items, x.owner)[j];
      assert Place(x.owner, SLOTS[j]) == x;
    }
  }

  lemma SameRows(reg: Registry, t: Tables, u: Tables, p: Pid)
    requires p in reg.specs ==> BotOf(reg, t, p) == BotOf(reg, u, p)
    requires SameElsewhere(reg, t, u)
    ensures Find(t.players, p) == Find(u.players, p) && Find(t.ledger, p) == Find(u.ledger, p)
  {
    var b, c := BotOf(reg, t, p), BotOf(reg, u, p);
    assert p in reg.specs ==> b.player == c.player && b.ledger == c.ledger;
  }

  lemma SameAccount(reg: Registry, t: Tables, u: Tables, a: AccountId)
    requires forall p | p in reg.specs :: BotOf(reg, t, p) == BotOf(reg, u, p)
    requires SameElsewhere(reg, t, u)
    ensures Find(t.accounts, a) == Find(u.accounts, a) && Find(t.index, a) == Find(u.index, a)
  {
    if a in Ids(reg) {
      var p :| p in reg.specs && reg.id(p) == a;
      assert BotOf(reg, t, p) == BotOf(reg, u, p);
    }
  }

  /** Tables that agree on every bot's rows, on everybody else's, and on the
      nicknames are the same tables. */
  lemma SameTables(reg: Registry, t: Tables, u: Tables)
    requires forall p | p in reg.specs :: BotOf(reg, t, p) == BotOf(reg, u, p)
    requires SameElsewhere(reg, t, u) && forall p :: Find(t.history, p) == Find(u.history, p)
    ensures t == u
  {
    forall p ensures Find(t.players, p) == Find(u.players, p) && Find(t.ledger, p) == Find(u.ledger, p) {
      SameRows(reg, t, u, p);
    }
    forall a ensures Find(t.accounts, a) == Find(u.accounts, a) && Find(t.index, a) == Find(u.index, a) {
      SameAccount(reg, t, u, a);
    }
    forall x ensures Find(t.items, x) == Find(u.items, x) {
      SameItem(reg, t, u, x);
    }
    forall f: Flag ensures Find(t.quests, f) == Find(u.quests, f) {
      if f.owner in reg.specs && f == WeaponFlag(f.owner) {
        assert BotOf(reg, t, f.owner) == BotOf(reg, u, f.owner);
      }
    }
    SameMap(t.players, u.players);
    SameMap(t.ledger, u.ledger);
    SameMap(t.accounts, u.accounts);
    SameMap(t.index, u.index);
    SameMap(t.items, u.items);
    SameMap(t.quests, u.quests);
    SameMap(t.history, u.history);
  }
}
