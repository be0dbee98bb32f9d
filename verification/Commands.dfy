/** One-off panel commands: the hand-off between the in-game quest and a direct
    database write, for any number of commands in flight at once. */
module Commands {
  import opened Common
  import opened GrantQueue

  const INVENTORY_SLOTS: nat := 180

  /** WARP and SPEED stand under `InGameOnly`: nothing can be written for them. */
  datatype Command = Gold(amount: int) | Level(level: int) | Item(vnum: int, count: int) | InGameOnly

  datatype Stack = Stack(vnum: int, count: int)

  /** The columns and rows of a character the direct write touches. */
  datatype Sheet = Sheet(gold: int, level: int, bag: map<nat, Stack>)

  datatype Refusal = NoSuchCharacter | RowGone | Answered(verdict: Verdict) | TakenByGame | BagFull | NeedsGame

  function FreeSlot(bag: map<nat, Stack>, from: nat): Option<nat>
    requires from <= INVENTORY_SLOTS
    decreases INVENTORY_SLOTS - from
  {
    if from == INVENTORY_SLOTS then None
    else if from !in bag then Some(from)
    else FreeSlot(bag, from + 1)
  }

  /** The slot found is the lowest free one, and none is found only when all
      180 are taken. */
  lemma {:induction false} FreeSlotIsLowest(bag: map<nat, Stack>, from: nat)
    requires from <= INVENTORY_SLOTS
    ensures match FreeSlot(bag, from)
      case None => forall s | from <= s < INVENTORY_SLOTS :: s in bag
      case Some(slot) => from <= slot < INVENTORY_SLOTS && slot !in bag && forall s | from <= s < slot :: s in bag
    decreases INVENTORY_SLOTS - from
  {
    if from < INVENTORY_SLOTS && from in bag {
      FreeSlotIsLowest(bag, from + 1);
    }
  }

  function Written(ch: Sheet, cmd: Command): (r: Option<Sheet>)
  {
    match cmd
    case Gold(amount) => Some(ch.(gold := Max(0, ch.gold + amount)))
    case Level(level) => Some(ch.(level := level))
    case Item(vnum, count) =>
      (match FreeSlot(ch.bag, 0)
       case None => None
       case Some(slot) => Some(ch.(bag := ch.bag[slot := Stack(vnum, count)])))
    case InGameOnly => None
  }

  /** Slot `s` is the lowest of the 180 that is free. */
  predicate LowestFree(bag: map<nat, Stack>, s: nat) {
    s < 180 && s !in bag && forall i | 0 <= i < s :: i in bag
  }

  /** What a direct write leaves, by the fields of the sheet; where it is refused
      nothing changes. */
  ghost predicate DirectlyWritten(was: Sheet, cmd: Command, now: Sheet, ok: bool) {
    match cmd
    case Gold(amount) =>
      && ok && now.level == was.level && now.bag == was.bag
      && now.gold == if was.gold + amount < 0 then 0 else was.gold + amount
    case Level(level) => ok && now.gold == was.gold && now.bag == was.bag && now.level == level
    case Item(vnum, count) =>
      && now.gold == was.gold && now.level == was.level
      && (ok <==> exists s :: LowestFree(was.bag, s))
      && (!ok ==> now.bag == was.bag)
      && (forall s | LowestFree(was.bag, s) ::
            && s in now.bag && now.bag[s].vnum == vnum && now.bag[s].count == count
            && now.bag.Keys == was.bag.Keys + {s} && forall i | i in was.bag :: now.bag[i] == was.bag[i])
    case InGameOnly => !ok && now == was
  }

  lemma WrittenOutcome(ch: Sheet, cmd: Command)
    ensures var r := Written(ch, cmd);
      DirectlyWritten(ch, cmd, if r.Some? then r.value else ch, r.Some?)
  {
    if cmd.Item? {
      FreeSlotIsLowest(ch.bag, 0);
      if FreeSlot(ch.bag, 0).Some? {
        assert LowestFree(ch.bag, FreeSlot(ch.bag, 0).value);
      }
    }
  }

  /** How many pieces of an item lie in the first `n` slots. */
  function Held(bag: map<nat, Stack>, vnum: int, n: nat): int {
    if n == 0 then 0
    else Held(bag, vnum, n - 1) + if n - 1 in bag && bag[n - 1].vnum == vnum then bag[n - 1].count else 0
  }

  lemma {:induction false} HeldAfter(bag: map<nat, Stack>, slot: nat, st: Stack, vnum: int, n: nat)
    requires slot !in bag
    ensures Held(bag[slot := st], vnum, n)
         == Held(bag, vnum, n) + if slot < n && vnum == st.vnum then st.count else 0
  {
    if n > 0 {
      HeldAfter(bag, slot, st, vnum, n - 1);
    }
  }

  /** An item written directly adds its count to what is held of it, and to
      nothing else. */
  lemma ItemsAreConserved(ch: Sheet, vnum: int, count: int, other: int)
    requires Written(ch, Item(vnum, count)).Some?
    ensures Held(Written(ch, Item(vnum, count)).value.bag, other, 180)
         == Held(ch.bag, other, 180) + if other == vnum then count else 0
  {
    FreeSlotIsLowest(ch.bag, 0);
    HeldAfter(ch.bag, FreeSlot(ch.bag, 0).value, Stack(vnum, count), other, 180);
  }

  /** A character as the panel's connection updates it. */
  class Character {
    var gold: int
    var level: int
    var bag: map<nat, Stack>

    constructor (ch: Sheet)
      ensures State() == ch
    {
      gold, level, bag := ch.gold, ch.level, ch.bag;
    }

    ghost function State(): Sheet
      reads this
    {
      Sheet(gold, level, bag)
    }

    method ApplyOffline(cmd: Command) returns (refused: Option<Refusal>)
      modifies this
      ensures refused.None? <==> Written(old(State()), cmd).Some?
      ensures State() == if refused.None? then Written(old(State()), cmd).value else old(State())
      ensures refused.Some? ==> refused.value == if cmd.Item? then BagFull else NeedsGame
      ensures DirectlyWritten(old(State()), cmd, State(), refused.None?)
    {
      WrittenOutcome(State(), cmd);
      match cmd
      case Gold(amount) =>
        gold := Max(0, gold + amount);
        return None;
      case Level(l) =>
        level := l;
        return None;
      case Item(vnum, count) =>
        var slot := 0;
        while slot < INVENTORY_SLOTS && slot in bag
          invariant slot <= INVENTORY_SLOTS && FreeSlot(bag, 0) == FreeSlot(bag, slot)
        {
          slot := slot + 1;
        }
        if slot == INVENTORY_SLOTS {
          return Some(BagFull);
        }
        bag := bag[slot := Stack(vnum, count)];
        return None;
      case InGameOnly =>
        return Some(NeedsGame);
    }
  }

  // ----- the protocol -----------------------------------------------------

  /** `Missing`: the row was deleted from under the panel. */
  datatype Status = InQueue(row: RowStatus) | Missing

  datatype Success = DoneInGame | DoneJustInTime | WrittenToDatabase

  /** Where one call of `run` stands. `offline` is what ended the polling: the
      sweep's verdict, or the deadline. */
  datatype Progress =
    | Fresh
    | Polling
    | Claiming(offline: bool)
    | LateLook
    | Writing
    | Returned(how: Success)
    | Raised(why: Refusal)
    | Died

  /** One command in flight. `status` is its queue row, `carried` whether the
      quest has carried that row out. */
  datatype Call = Call(player: nat, cmd: Command, progress: Progress, status: Status, carried: bool)

  /** `applied` counts, per call, the changes made to its character by either
      side. */
  datatype Desk = Desk(calls: seq<Call>, sheets: seq<Sheet>, applied: multiset<nat>)

  datatype Move =
    | Open(player: nat, cmd: Command)
    | Submit(i: nat)
    | Poll(i: nat)
    | Deadline(i: nat)
    | Claim(i: nat)
    | Look(i: nat)
    | Write(i: nat)
    | Crash(i: nat)
    | QuestTakes(i: nat)
    | QuestActs(i: nat, sheet: Sheet)
    | QuestAnswers(i: nat, verdict: Verdict)
    | Swept(i: nat)
    | Deleted(i: nat)

  predicate At(d: Desk, i: nat, p: Progress) {
    i < |d.calls| && d.calls[i].progress == p
  }

  predicate RowAt(d: Desk, i: nat, s: RowStatus) {
    i < |d.calls| && d.calls[i].progress != Fresh && d.calls[i].status == InQueue(s)
  }

  /** The quest acts once per claimed row, and answers "done" only after it
      acted; the sweep and a deletion need a pending row. */
  predicate CanMove(d: Desk, m: Move) {
    match m
    case Open(_, _) => true
    case Submit(i) => At(d, i, Fresh)
    case Poll(i) => At(d, i, Polling)
    case Deadline(i) => At(d, i, Polling)
    case Claim(i) => i < |d.calls| && d.calls[i].progress.Claiming?
    case Look(i) => At(d, i, LateLook)
    case Write(i) => At(d, i, Writing) && d.calls[i].player < |d.sheets|
    case Crash(i) => i < |d.calls| && !d.calls[i].progress.Returned? && !d.calls[i].progress.Raised?
    case QuestTakes(i) => RowAt(d, i, Pending)
    case QuestActs(i, _) => RowAt(d, i, Stamp) && !d.calls[i].carried && d.calls[i].player < |d.sheets|
    case QuestAnswers(i, v) => RowAt(d, i, Stamp) && (v == Done ==> d.calls[i].carried)
    case Swept(i) => RowAt(d, i, Pending)
    case Deleted(i) => RowAt(d, i, Pending)
  }

  function Put(d: Desk, i: nat, c: Call): Desk
    requires i < |d.calls|
  {
    d.(calls := d.calls[i := c])
  }

  function Moved(d: Desk, m: Move): Desk
    requires CanMove(d, m)
  {
    match m
    case Open(player, cmd) => d.(calls := d.calls + [Call(player, cmd, Fresh, Missing, false)])
    case Submit(i) =>
      var c := d.calls[i];
      Put(d, i, if c.player < |d.sheets| then c.(progress := Polling, status := InQueue(Pending))
                else c.(progress := Raised(NoSuchCharacter)))
    case Poll(i) => Put(d, i, d.calls[i].(progress := Seen(d.calls[i].status)))
    case Deadline(i) => Put(d, i, d.calls[i].(progress := Claiming(false)))
    case Claim(i) =>
      var c := d.calls[i];
      Put(d, i, if c.status == InQueue(Pending) then c.(status := InQueue(Cancelled), progress := Writing)
                else if c.progress.offline then c.(progress := Writing)
                else c.(progress := LateLook))
    case Look(i) =>
      var c := d.calls[i];
      Put(d, i, c.(progress :=
        if c.status == InQueue(Answer(Done)) then Returned(DoneJustInTime) else Raised(TakenByGame)))
    case Write(i) =>
      var c := d.calls[i];
      (match Written(d.sheets[c.player], c.cmd)
       case None => Put(d, i, c.(progress := Raised(if c.cmd.Item? then BagFull else NeedsGame)))
       case Some(sheet) =>
         Put(d, i, c.(progress := Returned(WrittenToDatabase)))
           .(sheets := d.sheets[c.player := sheet], applied := d.applied + multiset{i}))
    case Crash(i) => Put(d, i, d.calls[i].(progress := if d.calls[i].progress == Fresh then Fresh else Died))
    case QuestTakes(i) => Put(d, i, d.calls[i].(status := InQueue(Stamp)))
    case QuestActs(i, sheet) =>
      Put(d, i, d.calls[i].(carried := true))
        .(sheets := d.sheets[d.calls[i].player := sheet], applied := d.applied + multiset{i})
    case QuestAnswers(i, v) => Put(d, i, d.calls[i].(status := InQueue(Answer(v))))
    case Swept(i) => Put(d, i, d.calls[i].(status := InQueue(PlayerOffline)))
    case Deleted(i) => Put(d, i, d.calls[i].(status := Missing))
  }

  /** One look at the row while polling: only a final status ends the wait, and two
      words of the grant worker's own are none. */
  function Seen(status: Status): Progress {
    match status
    case Missing => Raised(RowGone)
    case InQueue(Answer(v)) =>
      if v == Done then Returned(DoneInGame) else if v == Gone || v == Review then Polling else Raised(Answered(v))
    case InQueue(PlayerOffline) => Claiming(true)
    case InQueue(Cancelled) => Raised(Answered(Foreign))
    case InQueue(_) => Polling
  }

  /** What a poll makes of every status it can find. */
  lemma PollOutcome(d: Desk, i: nat)
    requires CanMove(d, Poll(i))
    ensures var s, p := d.calls[i].status, Moved(d, Poll(i)).calls[i].progress;
      && (s == Missing ==> p == Raised(RowGone))
      && (s == InQueue(Pending) || s == InQueue(Stamp) ==> p == Polling)
      && (s == InQueue(PlayerOffline) ==> p == Claiming(true))
      && (s == InQueue(Cancelled) ==> p == Raised(Answered(Foreign)))
      && (s == InQueue(Answer(Gone)) || s == InQueue(Answer(Review)) ==> p == Polling)
      && (s == InQueue(Answer(Done)) ==> p == Returned(DoneInGame))
      && forall v | s == InQueue(Answer(v)) && v != Done && v != Gone && v != Review :: p == Raised(Answered(v))
  {
  }

  /** Whatever the panel is doing, the quest, the sweep and a deletion may take a
      pending row of its, and the quest may act on and answer one it took. */
  lemma QuestIsNeverBlocked(d: Desk, i: nat, sheet: Sheet, v: Verdict)
    requires i < |d.calls| && d.calls[i].progress != Fresh && d.calls[i].player < |d.sheets|
    ensures d.calls[i].status == InQueue(Pending) ==>
      CanMove(d, QuestTakes(i)) && CanMove(d, Swept(i)) && CanMove(d, Deleted(i))
    ensures d.calls[i].status == InQueue(Stamp) && !d.calls[i].carried ==> CanMove(d, QuestActs(i, sheet))
    ensures d.calls[i].status == InQueue(Stamp) && (v != Done || d.calls[i].carried) ==> CanMove(d, QuestAnswers(i, v))
  {
  }

  /** Nor does the panel wait for anybody: until it has returned or raised, every
      call has a move of its own. */
  lemma PanelIsNeverStuck(d: Desk, i: nat)
    requires i < |d.calls| && d.calls[i].player < |d.sheets|
    ensures var p := d.calls[i].progress;
      && (p == Fresh ==> CanMove(d, Submit(i))) && (p == Polling ==> CanMove(d, Poll(i)) && CanMove(d, Deadline(i)))
      && (p.Claiming? ==> CanMove(d, Claim(i))) && (p == LateLook ==> CanMove(d, Look(i)))
      && (p == Writing ==> CanMove(d, Write(i)))
  {
  }

  /** The moves around the panel's decisions: putting the row there, giving up the
      wait, dying, and what quest, sweep and deletion do to the row. */
  lemma SmallMovesOutcome(d: Desk, i: nat, m: Move)
    requires i < |d.calls| && CanMove(d, m)
    requires m in {Submit(i), Deadline(i), Crash(i), QuestTakes(i), Swept(i), Deleted(i)}
    ensures var c, e := d.calls[i], Moved(d, m);
      && e.sheets == d.sheets && e.applied == d.applied
      && e.calls == d.calls[i := match m
           case Submit(_) => if c.player < |d.sheets| then c.(progress := Polling, status := InQueue(Pending))
                             else c.(progress := Raised(NoSuchCharacter))
           case Deadline(_) => c.(progress := Claiming(false))
           case Crash(_) => if c.progress == Fresh then c else c.(progress := Died)
           case QuestTakes(_) => c.(status := InQueue(Stamp))
           case Swept(_) => c.(status := InQueue(PlayerOffline))
           case _ => c.(status := Missing)]
  {
  }

  /** The quest changes the call's character as it likes, once, and its answer is
      what the row says from then on. */
  lemma QuestOutcome(d: Desk, i: nat, sheet: Sheet, v: Verdict)
    requires i < |d.calls|
    ensures CanMove(d, QuestActs(i, sheet)) ==>
      var c, e := d.calls[i], Moved(d, QuestActs(i, sheet));
      && e.calls == d.calls[i := c.(carried := true)] && e.sheets == d.sheets[c.player := sheet]
      && e.applied == d.applied + multiset{i}
    ensures CanMove(d, QuestAnswers(i, v)) ==>
      Moved(d, QuestAnswers(i, v)) == d.(calls := d.calls[i := d.calls[i].(status := InQueue(Answer(v)))])
  {
  }

  /** Only a pending row is claimed, and a claimed one is cancelled; without it the
      panel writes if the game said "offline", and otherwise looks once more: done
      counts as done, anything else as taken. */
  lemma ClaimOutcome(d: Desk, i: nat)
    requires i < |d.calls|
    ensures CanMove(d, Claim(i)) ==>
      var c, e := d.calls[i], Moved(d, Claim(i)).calls[i];
      if c.status == InQueue(Pending) then e == c.(status := InQueue(Cancelled), progress := Writing)
      else e == c.(progress := if c.progress == Claiming(true) then Writing else LateLook)
    ensures CanMove(d, Look(i)) ==>
      var c, e := d.calls[i], Moved(d, Look(i)).calls[i];
      e == c.(progress :=
        if c.status == InQueue(Answer(Done)) then Returned(DoneJustInTime) else Raised(TakenByGame))
  {
  }

  /** The write changes the call's own character, by what was asked, and says so. */
  lemma WriteOutcome(d: Desk, i: nat)
    requires CanMove(d, Write(i))
    ensures var c, e := d.calls[i], Moved(d, Write(i));
      && |e.sheets| == |d.sheets| && (forall p | 0 <= p < |d.sheets| && p != c.player :: e.sheets[p] == d.sheets[p])
      && DirectlyWritten(d.sheets[c.player], c.cmd, e.sheets[c.player],
                         e.calls[i].progress == Returned(WrittenToDatabase))
      && (e.calls[i].progress != Returned(WrittenToDatabase) ==>
            e.calls[i].progress == Raised(if c.cmd.Item? then BagFull else NeedsGame))
  {
    WrittenOutcome(d.sheets[d.calls[i].player], d.calls[i].cmd);
  }

  // ----- what holds of every call at every moment --------------------------

  /** Nobody can claim the row any more, and nobody did. */
  predicate OutOfReach(c: Call) {
    !c.carried && c.status in {InQueue(PlayerOffline), InQueue(Cancelled)}
  }

  predicate CallFits(c: Call, applied: nat) {
    && (c.carried ==> c.status == InQueue(Stamp) || (c.status.InQueue? && c.status.row.Answer?))
    && (c.status == InQueue(Answer(Done)) ==> c.carried)
    && applied == (if c.carried then 1 else 0) + (if c.progress == Returned(WrittenToDatabase) then 1 else 0)
    && match c.progress
       case Fresh => !c.carried && c.status == Missing
       case Polling => c.status != InQueue(Cancelled)
       case Claiming(offline) => offline ==> OutOfReach(c)
       case Writing => OutOfReach(c)
       case Returned(WrittenToDatabase) => OutOfReach(c)
       case Returned(_) => c.status == InQueue(Answer(Done))
       case Raised(why) =>
         && (why == RowGone || why == NoSuchCharacter ==> c.status == Missing && !c.carried)
         && (why == BagFull || why == NeedsGame ==> OutOfReach(c))
         && (why.Answered? ==> c.status == InQueue(Answer(why.verdict)) && why.verdict != Done)
       case _ => true
  }

  ghost predicate DeskFits(d: Desk) {
    && (forall i | 0 <= i < |d.calls| :: CallFits(d.calls[i], d.applied[i]))
    && (forall i: nat | i >= |d.calls| :: d.applied[i] == 0)
  }

  lemma PanelMoveFits(d: Desk, m: Move, i: nat)
    requires DeskFits(d) && CanMove(d, m) && i < |d.calls|
    requires m.Submit? || m.Poll? || m.Deadline? || m.Claim? || m.Look? || m.Write? || m.Crash?
    ensures CallFits(Moved(d, m).calls[i], Moved(d, m).applied[i])
  {
    assert CallFits(d.calls[i], d.applied[i]);
  }

  lemma OtherMoveFits(d: Desk, m: Move, i: nat)
    requires DeskFits(d) && CanMove(d, m) && i < |d.calls|
    requires m.Open? || m.QuestTakes? || m.QuestActs? || m.QuestAnswers? || m.Swept? || m.Deleted?
    ensures CallFits(Moved(d, m).calls[i], Moved(d, m).applied[i])
  {
    assert CallFits(d.calls[i], d.applied[i]);
  }

  lemma MoveFits(d: Desk, m: Move)
    requires DeskFits(d) && CanMove(d, m)
    ensures DeskFits(Moved(d, m))
  {
    var e := Moved(d, m);
    forall i | 0 <= i < |d.calls| ensures CallFits(e.calls[i], e.applied[i]) {
      if m.Submit? || m.Poll? || m.Deadline? || m.Claim? || m.Look? || m.Write? || m.Crash? {
        PanelMoveFits(d, m, i);
      } else {
        OtherMoveFits(d, m, i);
      }
    }
  }

  predicate Playable(d: Desk, moves: seq<Move>)
    decreases |moves|, 0
  {
    moves == [] || (
      var k := |moves| - 1;
      Playable(d, moves[..k]) && CanMove(Play(d, moves[..k]), moves[k]))
  }

  function Play(d: Desk, moves: seq<Move>): Desk
    requires Playable(d, moves)
    decreases |moves|, 1
  {
    if moves == [] then d
    else Moved(Play(d, moves[..|moves| - 1]), moves[|moves| - 1])
  }

  lemma {:induction false} PlayFits(d: Desk, moves: seq<Move>)
    requires DeskFits(d) && Playable(d, moves)
    ensures DeskFits(Play(d, moves))
  {
    if moves != [] {
      PlayFits(d, moves[..|moves| - 1]);
      MoveFits(Play(d, moves[..|moves| - 1]), moves[|moves| - 1]);
    }
  }

  /** For any number of commands in any interleaving with the quest, the sweep
      and crashes of the panel: a command changes its character at most once,
      by the quest or by the panel but never by both; a returned success means
      it changed it exactly once; and the panel writes only when its row can
      no longer be claimed. */
  lemma AppliedAtMostOnce(sheets: seq<Sheet>, moves: seq<Move>, i: nat)
    requires Playable(Desk([], sheets, multiset{}), moves)
    ensures var e := Play(Desk([], sheets, multiset{}), moves);
      && e.applied[i] <= 1
      && (i < |e.calls| && e.calls[i].progress.Returned? ==> e.applied[i] == 1)
      && (At(e, i, Writing) ==> e.applied[i] == 0 && OutOfReach(e.calls[i]))
      && (i < |e.calls| && e.calls[i].progress.Returned? && e.calls[i].carried ==>
            e.calls[i].progress.how != WrittenToDatabase)
  {
    PlayFits(Desk([], sheets, multiset{}), moves);
    CallIsHonest(Play(Desk([], sheets, multiset{}), moves), i);
  }

  lemma CallIsHonest(e: Desk, i: nat)
    requires DeskFits(e)
    ensures e.applied[i] <= 1
    ensures i < |e.calls| && e.calls[i].progress.Returned? ==> e.applied[i] == 1
    ensures At(e, i, Writing) ==> e.applied[i] == 0 && OutOfReach(e.calls[i])
    ensures i < |e.calls| && e.calls[i].progress.Returned? && e.calls[i].carried ==>
              e.calls[i].progress.how != WrittenToDatabase
  {
    if i < |e.calls| { assert CallFits(e.calls[i], e.applied[i]); }
  }

  predicate RefusedForGood(c: Call) {
    && c.progress.Raised?
    && (c.progress.why.RowGone? || c.progress.why.BagFull? || c.progress.why.NeedsGame?
        || c.progress.why.NoSuchCharacter?)
  }

  lemma RefusedStaysRefused(d: Desk, m: Move, i: nat)
    requires DeskFits(d) && CanMove(d, m) && i < |d.calls| && RefusedForGood(d.calls[i])
    ensures var e := Moved(d, m); i < |e.calls| && e.calls[i] == d.calls[i] && e.applied[i] == d.applied[i] == 0
  {
    assert CallFits(d.calls[i], d.applied[i]);
  }

  /** When the panel says the row vanished, the bag was full or the command
      needs the game, nothing was applied and nothing will be: the refusal
      stands and the count stays at zero however the run continues. */
  lemma {:induction false} RefusalIsFinal(d: Desk, moves: seq<Move>, i: nat)
    requires DeskFits(d) && Playable(d, moves) && i < |d.calls| && RefusedForGood(d.calls[i])
    ensures var e := Play(d, moves);
      && i < |e.calls| && e.calls[i] == d.calls[i] && e.applied[i] == 0
  {
    if moves == [] {
      assert CallFits(d.calls[i], d.applied[i]);
    } else {
      var k := |moves| - 1;
      RefusalIsFinal(d, moves[..k], i);
      PlayFits(d, moves[..k]);
      RefusedStaysRefused(Play(d, moves[..k]), moves[k], i);
    }
  }
}
