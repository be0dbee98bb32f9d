# Playerbot server: a verified model

This project models the parts of the repository whose correctness rests on an argument rather than on one line of
code, and proves that argument in Dafny. Seven components are modelled, each in modules of its own.

**The game command queue.** Two panels and the in-game quest share one table of rows. Each panel's worker keeps
durable grants, hands a few at a time to the queue, and settles what comes back. `GrantQueue` holds the worker as an
object over its tables and a specification function for every loop; `GrantSelect` says what a tick picks; `GrantRuns`
is the step system of everybody who touches the tables (two workers, operators, one-off panel commands, the quest, its
sweep, rollbacks) with the invariant every step keeps; `GrantFairness` bounds waiting and the two lanes;
`GrantOutcomes` says in numbers and field by field what each loop leaves, and that an answer is what gets reported.
`Commands` is the hand-off between a one-off command, the quest and a direct database write.

**The resumable seed.** Tables are maps keyed by PID or account id, every statement is a sequence of single row
writes, and a run may stop between any two of them. `SeedTables` has the nine skip rules, the checks' joins and the
row writes; `SeedBot` the rows of one bot and the thirteen stages they go through; `SeedRuns` shows that each write
touches one bot's rows only; `SeedResume` and `SeedTheorems` carry that over whole runs and over runs that are
interrupted; `SeedScript` is the script with its aborting checks, and why none of them fires; `SeedOutcomes` writes out
what the rules, the row writes and the checks come to; `SeedCohort` is the generated registry, and `SeedPrefixes` the
generator's own list of name prefixes.

**The EterPack archive.** `Bits` is exclusive-or and bitwise and on unbounded integers, `Xtea` the 32-round cipher and
its byte stream; `BitNumbers`, `Machine`, `MachineNumbers` and `XteaMachine` show that it computes what a machine with
32-bit registers computes, down to the known answer. `EterPack` has objects, index records and the two slot layouts,
`EterPackTheorems` the round trip and which lists of files can be written at all, `ArchiveOutcomes` the bytes of the
files, field by field.

**The WebSocket bridge.** `WsFrames` is the framing of RFC 6455 sections 5.2 and 5.3 with a reference masked encoder,
`WsPipe` the two pump threads of one connection under any scheduling, `WsSlots` the shared counters under any
interleaving of handlers; `WsOutcomes` has the frames' bytes and each thread's answers in numbers.

**Nicknames.** `NamePool` cleans the list and builds the pool, `NamePoolTheorems` proves what the pool promises;
`NameDeal` is the dealing and restoring SQL over whole histories of runs and hand renames; `NameOutcomes` says which
lines, names, kingdoms and bots each step takes.

**Map reachability.** `MapFile` loads one file into a flat grid and into a dictionary of sectors, `Reachability`
defines what can be reached, `MapFlood` has both flood fills, `MapClusters` the grouping into clumps; `MapOutcomes`
reads a written file back and says which attribute bits close a cell.

**The weights file.** `Weights` is its reader, its writer and the lines it keeps for a newer core; `WeightOutcomes`
gives the range and default of each kind of setting.

`Common` and `Decimals` hold what several modules share.

## How the model is stated

Code that changes things in place is a class or a method with loops, proved equal to a specification function; the
properties are lemmas about those functions, and the lemmas of the `Outcomes` modules say what each of them returns in
plain numbers and fields. Exceptions are `None`, a false result, or a verdict. Conditions on the environment are
preconditions of the lemmas, and are these:

* the quest and its sweep leave `pending` atomically, a delivery follows a claim, and the quest says "done" only of a
  row it delivered; auto-increment ids are positions in a table;
* a tick is one step (lock and transaction), but its count of pending rows may miss rows the other worker's open
  transaction has added, never its own (`GrantRuns.SeesOwn`);
* LZO decompression undoes compression; CRC32 is any function; the shuffle is any permutation;
* one function stands for the database's case-insensitive comparison, and comparisons marked BINARY are equality;
* for the seed: logins are unique ignoring case, and the id an insert will be given is unused (`SeedTables.Keyed`);
  row order inside a statement is arbitrary but complete (`SeedTables.Thorough`);
* Python's `upper`, `lower` and `int` behave as usual on the words the weights file prints, and what its `\d` matches,
  in any script, is neither blank nor `#` (`Weights.PythonLike`).

Where the code and its own words differ the model follows the code. The two workers share the queue under different
locks, so MAX_PENDING bounds each worker's own rows in every run (`GrantFairness.LanesHold`), but the queue as a whole
only while their ticks do not overlap (`GrantFairness.SharedLimitHolds`); a tick with enough grants to send exceeds it
exactly when its count missed rows (`GrantFairness.TickOverfills`), and twice the limit is reached
(`GrantFairness.OverlappingTicksReachTwice`). A raw file in the padded archive layout comes back with its filler
(`EterPackTheorems.RawFilePadding` says exactly when not). The two flood fills try rings of different size, so for a
closed start they can differ (`MapFlood.FloodsAgree` says exactly when, `MapFlood.FloodsDiffer` shows a map).

## Model

| member | source | states |
|---|---|---|
| GrantQueue.GameQueue.CountPending | linux-port/docker/tuike/tuike/grants.py:317-318 | counts exactly the rows still pending |
| GrantQueue.GrantWorker.SettleQueued | linux-port/docker/tuike/tuike/grants.py:281-312 | every queued grant is settled from one snapshot: abandoned rows cancelled, offline names retried, claims reviewed when old, answers final |
| GrantQueue.GrantWorker.DispatchWaiting | linux-port/docker/tuike/tuike/grants.py:315-338 | picks for the room left in the queue and dispatches in order |
| GrantQueue.GrantWorker.Tick | linux-port/docker/tuike/tuike/grants.py:341-356 | settles then dispatches, or leaves every table as it was when the lock is taken or a statement fails |
| GrantQueue.GrantWorker.Record | linux-port/docker/tuike/tuike/grants.py:371-381 | appends one waiting grant per recipient, or nothing when a recipient repeats |
| GrantQueue.GrantWorker.CancelBatch | linux-port/docker/tuike/tuike/grants.py:384-390 | withdraws exactly the waiting grants of a batch |
| GrantSelect.SelectIsOrderedLane | linux-port/docker/tuike/tuike/grants.py:259-264 | a lane's selection is exactly its due grants, each once, ordered by next_try and id |
| GrantSelect.LimitKeepsFirst | linux-port/docker/tuike/tuike/grants.py:250-252 | what LIMIT drops comes after everything it keeps, and only when the limit is used up |
| GrantSelect.PickedAreDue | linux-port/docker/seban-panel/item_grants.py:200-229 | picks are due, distinct, within capacity, with at most the allowed offline probes |
| GrantSelect.ProbesOnlyAfterFastLane | linux-port/docker/tuike/tuike/grants.py:259-277 | no offline bot is picked while a due grant of the fast lane is left unpicked |
| GrantSelect.ProbesAreOffline | linux-port/docker/tuike/tuike/grants.py:266-277 | a pick counts as a probe exactly when it is neither online nor a person's character |
| GrantRuns.SettlesEachAlone | linux-port/docker/tuike/tuike/grants.py:289-312 | settling a grant looks at and changes its own row only |
| GrantRuns.SettlingOrderIsImmaterial | linux-port/docker/tuike/tuike/grants.py:283-289 | the order the rows come back in does not matter |
| GrantOutcomes.SettleOutcome | linux-port/docker/tuike/tuike/grants.py:281-312 | what becomes of every queued grant, by the status and age of its row, in numbers: an answer is its verdict and a foreign word Review, a cancelled row Withdrawn, an offline name waits another 120 s, a claim is reviewed from 120 s, a pending row is cancelled beyond 60 s and its grant waits again, a missing row is Review |
| GrantOutcomes.OtherGrantsStay | linux-port/docker/tuike/tuike/grants.py:289-312 | settling changes no grant it does not list |
| GrantOutcomes.OtherRowsStay | linux-port/docker/tuike/tuike/grants.py:289-312 | and no row none of the listed grants points at |
| GrantOutcomes.PickedInNumbers | linux-port/docker/tuike/tuike/grants.py:243-278 | ten rows less those counted, of them at most two probes a tick and four probes out at once |
| GrantOutcomes.PickedInOrder | linux-port/docker/tuike/tuike/grants.py:254-277 | both parts of the picks are in order; the first is exactly bots seen online and characters that are no bots |
| GrantOutcomes.LeftOutForOthers | linux-port/docker/tuike/tuike/grants.py:249-277 | a due grant is left out only for want of room, and only for grants before it |
| GrantOutcomes.DispatchOutcome | linux-port/docker/tuike/tuike/grants.py:320-338 | each picked grant gets its own new row with the name, the item and the count, or is closed: Gone without a character, HasItem or NoSkill when the choice of recipients no longer fits |
| GrantOutcomes.CountIsSize | linux-port/docker/tuike/tuike/grants.py:317-318 | the count is the number of rows whose status is pending |
| GrantOutcomes.RecordOutcome | linux-port/docker/tuike/tuike/grants.py:371-381 | a batch is recorded exactly when no recipient repeats, each grant with the fields of the order, waiting and due at once |
| GrantOutcomes.CancelOutcome | linux-port/docker/tuike/tuike/grants.py:384-390 | withdrawing reaches the waiting grants of the batch and no other field or grant |
| GrantOutcomes.NobodyIsLockedOut | linux-port/docker/tuike/tuike/grants.py:341-351 | whatever has happened each worker may tick, and the quest and the sweep may take any pending row |
| GrantOutcomes.ActorsOutcome | linux-port/docker/tuike/tuike/grants.py:281-312 | what quest, sweep and panels do to a row, and to nothing else |
| GrantRuns.DispatchOneStep | linux-port/docker/tuike/tuike/grants.py:320-338 | dispatching one waiting grant takes it out of waiting, adds rows of its own worker only, touches no other grant and keeps the tables consistent |
| GrantRuns.TickStep | linux-port/docker/seban-panel/item_grants.py:301-342 | a tick of either worker keeps both workers' tables consistent |
| GrantRuns.RecordStep | linux-port/docker/tuike/tuike/grants.py:371-381 | recording a batch keeps the tables consistent: no row belongs to a new grant |
| GrantRuns.CancelStep | linux-port/docker/tuike/tuike/grants.py:384-390 | cancelling a batch keeps the tables consistent |
| GrantRuns.StepKeepsInv | linux-port/docker/tuike/tuike/grants.py:281-356 | every step of every actor keeps the invariant: a waiting grant's earlier rows are all dead |
| GrantRuns.EveryGrantHandedOverOnce | linux-port/docker/tuike/tuike/grants.py:281-356 | in every run the quest carries out at most one row of a grant, exactly one of a grant closed as done, with the grant's own arguments, and none of a waiting or withdrawn grant; quest verdicts come from the grant's rows |
| GrantOutcomes.OwnTickReports | linux-port/docker/tuike/tuike/grants.py:309-312 | a committed tick closes each of its grants whose row is answered with that answer |
| GrantOutcomes.AnswerIsReported | linux-port/docker/tuike/tuike/grants.py:281-356 | however many other steps come between, a grant whose row the quest answered is closed with that very word by its own worker's next committed tick: done is reported as done |
| GrantFairness.TickPicks | linux-port/docker/tuike/tuike/grants.py:341-351 | nothing a tick picked is still waiting after it |
| GrantFairness.NothingOvertakes | linux-port/docker/tuike/tuike/grants.py:304-308 | no step of anybody puts a grant ahead of a due one that waits |
| GrantFairness.PassedOverOnce | linux-port/docker/tuike/tuike/grants.py:259-265 | a tick that could have taken a due grant and did not took one from ahead of it |
| GrantFairness.BoundedWaiting | linux-port/docker/tuike/tuike/grants.py:243-278 | a due grant is taken within one more chance than there were grants ahead of it |
| GrantFairness.TickRespectsLanes | linux-port/docker/tuike/tuike/grants.py:315-319 | a tick fills its worker's own rows to MAX_PENDING at most and its probes to OFFLINE_MAX_PENDING at most, and the whole queue to MAX_PENDING when its count missed nothing |
| GrantFairness.LanesHold | linux-port/docker/tuike/tuike/grants.py:243-278 | in every run, whatever anybody else does, a worker's own pending rows and its own probes stay within their limits or what it had out at the start |
| GrantFairness.TwoWorkersTogether | linux-port/docker/tuike/tuike/grants.py:315-319 | both workers together never have more than twice the limit out, or what each had at the start, beside the panels' own rows |
| GrantFairness.SharedLimitHolds | linux-port/docker/tuike/tuike/grants.py:315-319 | while ticks do not overlap and no panel command is queued all pending rows together stay within MAX_PENDING |
| GrantFairness.TickOverfills | linux-port/docker/tuike/tuike/grants.py:315-319 | with enough due grants a tick leaves more than MAX_PENDING rows exactly when its count missed some |
| GrantFairness.OverlappingTicksReachTwice | linux-port/docker/tuike/tuike/grants.py:341-356 | a run from empty tables in which two overlapping ticks leave twice MAX_PENDING rows pending |
| GrantFairness.VerdictIsFinal | linux-port/docker/tuike/tuike/grants.py:309-312 | a closed or withdrawn grant never changes again |
| Commands.FreeSlotIsLowest | linux-port/docker/tuike/tuike/commands.py:147-152 | the slot written is the lowest free one, and refusal means all are used |
| Commands.Character.ApplyOffline | linux-port/docker/tuike/tuike/commands.py:137-169 | writes gold (never below zero), level or one stack, or refuses and writes nothing |
| Commands.WrittenOutcome | linux-port/docker/tuike/tuike/commands.py:137-156 | field by field what a direct write leaves: gold plus the amount and never below zero, the level asked for, or exactly that item and count in the lowest free of 180 slots; everything else stays |
| Commands.ItemsAreConserved | linux-port/docker/tuike/tuike/commands.py:146-155 | what is held of the item written grows by its count, of every other item by nothing |
| Commands.PollOutcome | linux-port/docker/tuike/tuike/commands.py:114-122 | what a poll makes of every status it can find |
| Commands.QuestIsNeverBlocked | linux-port/docker/tuike/tuike/commands.py:106-122 | whatever the panel is doing the quest, the sweep and a deletion may take its pending row |
| Commands.PanelIsNeverStuck | linux-port/docker/tuike/tuike/commands.py:301-331 | until it has returned or raised every call has a move of its own |
| Commands.SmallMovesOutcome | linux-port/docker/tuike/tuike/commands.py:99-122 | what putting the row there, giving up the wait, dying, taking, sweeping and deleting do to the call |
| Commands.QuestOutcome | linux-port/docker/tuike/tuike/commands.py:116-121 | the quest changes the call's character once, and its answer is what the row says |
| Commands.ClaimOutcome | linux-port/docker/tuike/tuike/commands.py:125-134 | only a pending row is claimed, and then it is cancelled; without it the panel writes only if the game said offline |
| Commands.WriteOutcome | linux-port/docker/tuike/tuike/commands.py:316-331 | the write changes the call's own character as asked and nobody else |
| Commands.MoveFits | linux-port/docker/tuike/tuike/commands.py:99-134 | every move of panel, quest and sweep keeps the account of who applied what |
| Commands.AppliedAtMostOnce | linux-port/docker/tuike/tuike/commands.py:301-331 | in every interleaving a change is applied at most once, a success means exactly once, and the panel writes only when the row can no longer be claimed |
| Commands.RefusalIsFinal | linux-port/docker/tuike/tuike/commands.py:313-325 | a refusal that says nothing was applied stays true for good |
| SeedBot.StageReaches | linux-port/overlays/playerbot/tools/generate_seed.py:524-712 | what each statement has settled about a bot before the next one runs |
| SeedBot.StageKeepsTheEnd | linux-port/overlays/playerbot/tools/generate_seed.py:524-712 | no statement changes how a whole run would leave the bot |
| SeedBot.AllStagesAreDone | linux-port/overlays/playerbot/tools/generate_seed.py:524-712 | the closed form of what a whole run makes of a bot |
| SeedBot.RestartEndsTheSame | linux-port/overlays/playerbot/tools/generate_seed.py:499-531 | starting again from any stage ends where the run would have |
| SeedRuns.NotSkippedIsSound | linux-port/overlays/playerbot/tools/generate_seed.py:254-368 | a PID no skip rule takes has sound rows and nobody else has its name, account, social id or PID |
| SeedRuns.SoundIsNotSkipped | linux-port/overlays/playerbot/tools/generate_seed.py:254-368 | and conversely |
| SeedRuns.WriteTouches | linux-port/overlays/playerbot/tools/generate_seed.py:526-712 | a row write changes nobody else's rows |
| SeedRuns.WriteStages | linux-port/overlays/playerbot/tools/generate_seed.py:526-712 | a row write does to the tables what the stage does to the bot |
| SeedRuns.TouchedKeyed | linux-port/overlays/playerbot/tools/generate_seed.py:538-546 | unique logins and unused ids survive every write |
| SeedRuns.TouchedAlone | linux-port/overlays/playerbot/tools/generate_seed.py:273-310 | no write makes a bot collide with another, or ends a collision |
| SeedResume.RestartCaresForTheSame | linux-port/overlays/playerbot/tools/generate_seed.py:254-368 | from any point of a run the next one skips exactly the same PIDs |
| SeedResume.SameTables | linux-port/overlays/playerbot/tools/generate_seed.py:524-712 | the bots' rows, everybody else's and the nicknames are all there is |
| SeedTheorems.WholeRunMakes | linux-port/overlays/playerbot/tools/generate_seed.py:370-712 | what a run to the end makes of every registry line: the closed form if it cares for it, otherwise nothing but a forgotten nickname |
| SeedOutcomes.CaredForWhen | linux-port/overlays/playerbot/tools/generate_seed.py:254-368 | the nine rules let a PID pass exactly when its place is vacant or held by the bot itself and nobody stands in the way, each condition written out |
| SeedOutcomes.StarterOutcome | linux-port/overlays/playerbot/tools/generate_seed.py:622-678 | the five starter places and the item and count in each, in numbers for each class of jobs; an occupied place keeps what it holds |
| SeedOutcomes.RowsOutcome | linux-port/overlays/playerbot/tools/generate_seed.py:538-610 | the character, account, index and nickname rows of every bot cared for, field by field |
| SeedOutcomes.LedgerOutcome | linux-port/overlays/playerbot/tools/generate_seed.py:683-712 | its ledger row, and its quest flag if it is stocked |
| SeedOutcomes.NewBotIsMade | linux-port/overlays/playerbot/tools/generate_seed.py:538-712 | a PID with no rows comes out with its blocked account, level-one character, index, five starter items, quest flag and a complete ledger row |
| SeedTheorems.KeyedCanBeMet | linux-port/docker/mariadb/initdb.d/dumps/account.sql:148 | unique logins and generated ids are all the seed's theorems assume of the database |
| SeedTheorems.ResumeEndsTheSame | linux-port/overlays/playerbot/tools/generate_seed.py:499-501 | a run begun anywhere inside another ends in the same tables |
| SeedTheorems.CrashesDoNotMatter | linux-port/overlays/playerbot/tools/generate_seed.py:524-712 | any number of runs stopped between any two row writes, in any row order, then one whole run: the tables of one uninterrupted run |
| SeedTheorems.FinishedBotsAreNotTouched | linux-port/overlays/playerbot/tools/generate_seed.py:499-501 | at every point existing characters are as they were, and bots not to be stocked keep every item, quest flag and ledger row |
| SeedTheorems.FinishedBotsAreNeverTouched | linux-port/overlays/playerbot/tools/generate_seed.py:499-501 | the same after any number of interrupted runs, wherever each was stopped |
| SeedScript.Database.Seed | linux-port/overlays/playerbot/tools/generate_seed.py:370-742 | runs to the end exactly when no check fires, and then leaves the tables of a whole run |
| SeedScript.AccountCheckNeedsTwoRules | linux-port/overlays/playerbot/tools/generate_seed.py:449-465 | the missing-PID account check is covered by two skip rules together |
| SeedScript.SkipRulesCoverChecks | linux-port/overlays/playerbot/tools/generate_seed.py:388-522 | after the skip pass every conflict check counts zero |
| SeedScript.AccountsMade | linux-port/overlays/playerbot/tools/generate_seed.py:548-559 | every missing bot has its blocked account after the insert |
| SeedScript.SlotsFilled | linux-port/overlays/playerbot/tools/generate_seed.py:688-708 | every pending bot has all five starter slots |
| SeedScript.AllSettled | linux-port/overlays/playerbot/tools/generate_seed.py:714-741 | the final count equals the number of PIDs cared for |
| SeedScript.NoCheckFires | linux-port/overlays/playerbot/tools/generate_seed.py:388-741 | whatever the database holds, no SIGNAL fires after the skip pass |
| SeedOutcomes.ChecksCatch | linux-port/overlays/playerbot/tools/generate_seed.py:388-522 | the conflict checks count every PID a skip rule would take |
| SeedOutcomes.AccountsPassWhen | linux-port/overlays/playerbot/tools/generate_seed.py:548-559 | the account check passes exactly when every missing bot's login is its own blocked account |
| SeedOutcomes.SlotsPassWhen | linux-port/overlays/playerbot/tools/generate_seed.py:688-708 | the slot check passes exactly when all five places of every pending bot hold something |
| SeedOutcomes.RowsPassWhen | linux-port/overlays/playerbot/tools/generate_seed.py:714-741 | the last check passes exactly when every PID holds its bot, its index row and a finished ledger row |
| SeedCohort.Cohort | linux-port/overlays/playerbot/tools/generate_seed.py:58-94 | appends the registry lines in PID order |
| SeedCohort.CohortOutcome | linux-port/overlays/playerbot/tools/generate_seed.py:66-94 | 2500 lines, the PIDs running from 4 |
| SeedCohort.NameOutcome | linux-port/overlays/playerbot/tools/generate_seed.py:69-79 | prefixes take turns, the second time round with a 2 behind them |
| SeedCohort.LoginOutcome | linux-port/overlays/playerbot/tools/generate_seed.py:77 | logins carry the ordinal in at least three digits |
| SeedCohort.SocialOutcome | linux-port/overlays/playerbot/tools/generate_seed.py:78 | social ids are a nine and the ordinal in twelve digits |
| SeedCohort.ClassOutcome | linux-port/overlays/playerbot/tools/generate_seed.py:45-92 | the turn of the eight jobs and each class's points |
| SeedCohort.SpotOutcome | linux-port/overlays/playerbot/tools/generate_seed.py:62-84 | each kingdom's map and its grid, 25 to a row, 80 and 120 apart |
| SeedCohort.CohortIsValid | linux-port/overlays/playerbot/tools/generate_seed.py:97-125 | the cohort of any 64 different short words passes every check of its own validation |
| SeedCohort.CohortIsWellFormed | linux-port/overlays/playerbot/tools/generate_seed.py:173-177 | the registry's unique keys accept the cohort, with and without the other two kingdoms |
| SeedPrefixes.NamePrefixesFit | linux-port/overlays/playerbot/tools/generate_seed.py:35-44 | the generator's own 64 prefixes are short, of small letters and all different |
| SeedPrefixes.OwnCohortIsValid | linux-port/overlays/playerbot/tools/generate_seed.py:58-125 | so the cohort as shipped passes its validation |
| SeedPrefixes.OwnCohortIsWellFormed | linux-port/overlays/playerbot/tools/generate_seed.py:173-177 | and the registry's unique keys accept it |
| Bits.XorBit | tools/eterpack.py:66-77 | each bit of an exclusive-or is the exclusive-or of the operands' bits |
| Bits.AndBit | tools/analyse_map_bridges.py:80-81 | each bit of a bitwise and is set where both operands have it |
| Bits.AndMeets | tools/analyse_map_bridges.py:80-81 | a bitwise and is nonzero exactly when the operands share a bit |
| Bits.XorTwice | tools/eterpack.py:66-77 | exclusive-or on unbounded integers undoes itself |
| Bits.XorMod | tools/eterpack.py:66-77 | cutting both operands to 32 bits first cuts the result |
| Xtea.EncryptBlock | tools/eterpack.py:72-78 | the 32 rounds with their running sum |
| Xtea.DecryptBlock | tools/eterpack.py:63-69 | the same rounds undone, the sum running down |
| Xtea.DecryptAfterEncrypt | tools/eterpack.py:63-78 | decryption inverts encryption for all halves and keys |
| Xtea.EncryptAfterDecrypt | tools/eterpack.py:63-78 | and the reverse |
| Xtea.RoundIs32Bit | tools/eterpack.py:75-77 | masking late over unbounded integers equals 32-bit arithmetic |
| Xtea.UnroundIs32Bit | tools/eterpack.py:66-68 | and so it does in the decrypting round |
| Xtea.RoundNumbers | tools/eterpack.py:66-77 | a round in its own numbers: shifts by four and five, the key words picked by the sum |
| Xtea.RoundsRunForward | tools/eterpack.py:72-78 | encrypting runs the rounds with the sum growing by the constant, half by half |
| XteaMachine.EncryptsAsRegisters | tools/eterpack.py:72-78 | for every block, key and number of rounds the unbounded integers compute what a 32-bit machine's registers compute |
| XteaMachine.KnownAnswer | tools/eterpack.py:72-78 | the zero block under the zero key encrypts to DEE9D4D8 F7131ED9 |
| XteaMachine.KnownAnswerBack | tools/eterpack.py:63-69 | and that block decrypts to zeros |
| MachineNumbers.ValAdd | tools/eterpack.py:75-77 | the number in the sum of two registers is the sum of their numbers modulo 2^32 |
| MachineNumbers.ValDiffer | tools/eterpack.py:75-77 | the number in their exclusive-or is the exclusive-or of their numbers |
| Xtea.Apply | tools/eterpack.py:81-91 | block by block into the output, the tail copied |
| Xtea.StreamInverts | tools/eterpack.py:81-91 | the inverse extends to byte strings of every length |
| Xtea.StreamOutcome | tools/eterpack.py:81-91 | every whole block of the encrypting stream is the 32-round encryption of the block there, of the decrypting one its decryption |
| Xtea.TailOutcome | tools/eterpack.py:90-91 | the last bytes that fill no block are the data's own |
| EterPack.LzoRoundTrip | tools/eterpack.py:94-126 | unpacking a packed object returns the data, keyed or plain, in both layouts, whatever follows it |
| EterPack.LzoIsFaithful | tools/eterpack.py:94-126 | so LZO objects are such a codec |
| EterPack.EntryRoundTrip | tools/eterpack.py:138-140 | a 192-byte record reads back as what was packed, its name up to the first zero byte |
| EterPack.NameSurvives | tools/eterpack.py:138-139 | a name comes back unchanged exactly when it fits 161 bytes and holds no zero byte |
| EterPack.WritePack | tools/eterpack.py:169-217 | the two output files, file by file |
| EterPack.ReadIndex | tools/eterpack.py:129-141 | the index, record by record |
| EterPack.Reader.ReadFile | tools/eterpack.py:149-166 | a file by its type, remembering the key the first type-1 file opened with |
| EterPackTheorems.SlotsTile | tools/eterpack.py:190-214 | slots are aligned, contiguous, disjoint, and exactly tile the data file |
| EterPackTheorems.IndexComesBack | tools/eterpack.py:129-141 | the written index reads back with its version and all records |
| EterPackTheorems.ArchiveRoundTrip | tools/eterpack.py:94-217 | names, types and bytes come back in order for every list that can be written (`WrittenWhenItFits` says which) |
| EterPackTheorems.LzoArchiveRoundTrip | tools/eterpack.py:94-217 | the same for every compressor that undoes itself |
| EterPackTheorems.RawFilePadding | tools/eterpack.py:202-208 | when exactly a raw file comes back without filler |
| EterPackTheorems.OneByteComesBackLonger | tools/eterpack.py:202-208 | a one-byte raw file of the padded layout comes back as 256 bytes |
| EterPackTheorems.WrittenWhenItFits | tools/eterpack.py:113-217 | an archive can be written exactly when every type is 0, 1 or 2 and the version, the count, every start, slot and object size fit 32 bits |
| ArchiveOutcomes.ObjectOutcome | tools/eterpack.py:113-126 | an object byte by byte: fourcc, three sizes, the stream behind its own fourcc, the filler of each layout |
| ArchiveOutcomes.RecordOutcome | tools/eterpack.py:207-214 | where each field of the 192 bytes stands, and zero bytes between |
| ArchiveOutcomes.NameFieldOutcome | tools/eterpack.py:189-214 | the name field is the first 161 bytes of the name, then zero bytes |
| ArchiveOutcomes.IndexOutcome | tools/eterpack.py:215 | the index is fourcc, version, count and the records in order |
| ArchiveOutcomes.EntryOutcome | tools/eterpack.py:189-214 | each file's record: the checksum of its name in small letters, the sizes of its layout, and its bytes where the record says |
| ArchiveOutcomes.BlobOutcome | tools/eterpack.py:174-203 | what goes into a slot, by type |
| ArchiveOutcomes.ReadOutcome | tools/eterpack.py:149-166 | what reading a slot tries, by type: no key, the index key, the data key, and the first that fits is kept |
| WsFrames.BigXorIsBytewise | linux-port/docker/wsbridge/bin/ws2tcp.py:243-244 | exclusive-or of big-endian integers is bytewise |
| WsFrames.UnmaskIsBytewise | linux-port/docker/wsbridge/bin/ws2tcp.py:240-244 | unmasking is exclusive-or with the key byte at the position modulo four |
| WsFrames.UnmaskTwice | linux-port/docker/wsbridge/bin/ws2tcp.py:240-244 | unmasking is its own inverse |
| WsFrames.Stream.ReadExactly | linux-port/docker/wsbridge/bin/ws2tcp.py:247-254 | the next n bytes or nothing |
| WsFrames.Stream.ReadFrame | linux-port/docker/wsbridge/bin/ws2tcp.py:257-293 | reads what the specification reads and consumes exactly that |
| WsFrames.ReadsWhatWasMasked | linux-port/docker/wsbridge/bin/ws2tcp.py:257-293 | reading inverts the masked encoding for every accepted frame, key and length form |
| WsFrames.ReadFrameWasMasked | linux-port/docker/wsbridge/bin/ws2tcp.py:257-293 | whatever is accepted was such an encoding |
| WsFrames.StreamRoundTrip | linux-port/docker/wsbridge/bin/ws2tcp.py:257-293 | on any concatenation of accepted frames exactly that list is read and exactly those bytes consumed |
| WsFrames.BrowserReadsServerFrame | linux-port/docker/wsbridge/bin/ws2tcp.py:229-237 | a browser reads every server frame back |
| WsOutcomes.FrameOutcome | linux-port/docker/wsbridge/bin/ws2tcp.py:257-293 | what a frame's bytes say in numbers: which fault is found first, how long it is, and each payload byte |
| WsOutcomes.HeadOutcome | linux-port/docker/wsbridge/bin/ws2tcp.py:259-279 | a stream that stops before the length is known has ended, unless a reserved bit was set |
| WsOutcomes.ServerFrameOutcome | linux-port/docker/wsbridge/bin/ws2tcp.py:229-237 | the bytes of a server frame, with the shortest length form, most significant byte first |
| WsPipe.BrowserGetsGameData | linux-port/docker/wsbridge/bin/ws2tcp.py:321-337 | the browser's stream is whole frames whose data is a prefix of what the game sent |
| WsPipe.GameGetsBrowserData | linux-port/docker/wsbridge/bin/ws2tcp.py:339-371 | the game gets a prefix of the carried payloads, all of them unless the pump was cut off |
| WsPipe.BrowserGetsEverything | linux-port/docker/wsbridge/bin/ws2tcp.py:321-337 | if no receive from the game and no chunk sent to the browser fails, the browser lacks nothing once the game's stream ended |
| WsPipe.GameGetsEverything | linux-port/docker/wsbridge/bin/ws2tcp.py:339-371 | if no receive from the browser and no send on its behalf fails and the other thread does not close first, the game gets all that is carried |
| WsPipe.CarriedByFrames | linux-port/docker/wsbridge/bin/ws2tcp.py:342-361 | what is carried is the payloads of opcodes 0 and 2 before the first frame that ends the pump |
| WsPipe.WritingDoesNotMatter | linux-port/docker/wsbridge/bin/ws2tcp.py:257-293 | what is carried does not depend on keys or length forms |
| WsPipe.CutsDoNotMatter | linux-port/docker/wsbridge/bin/ws2tcp.py:347-349 | nor on how the data is cut into frames |
| WsOutcomes.HandledOutcome | linux-port/docker/wsbridge/bin/ws2tcp.py:344-361 | data goes to the game, a ping is answered by a pong with its payload, a close ends the thread, text is complained about |
| WsOutcomes.FailedOutcome | linux-port/docker/wsbridge/bin/ws2tcp.py:344-371 | what a failed send leaves: the part that got through, a dead socket, a thread cut off |
| WsOutcomes.CloseOutcome | linux-port/docker/wsbridge/bin/ws2tcp.py:333-366 | the two close frames, codes 1000 and 1002 with the reason |
| WsOutcomes.ChunkOutcome | linux-port/docker/wsbridge/bin/ws2tcp.py:323-329 | one binary frame for each chunk of the game's |
| WsOutcomes.GameMaySend | linux-port/docker/wsbridge/bin/ws2tcp.py:325-328 | the game may send 1 to 16384 bytes at a time, and a send may stop anywhere |
| WsOutcomes.FreshOutcome | linux-port/docker/wsbridge/bin/ws2tcp.py:299-305 | a connection starts open, with nothing sent, both threads at their first step |
| WsOutcomes.FlagOutcome | linux-port/docker/wsbridge/bin/ws2tcp.py:311-371 | reading, the shared flag, and shutting down |
| WsOutcomes.NeitherIsStuck | linux-port/docker/wsbridge/bin/ws2tcp.py:321-371 | neither thread waits for the other: each has a step until it is over |
| WsSlots.Counters.TakeIpSlot | linux-port/docker/wsbridge/bin/ws2tcp.py:207-212 | takes a place exactly below the limit |
| WsSlots.Counters.FreeIpSlot | linux-port/docker/wsbridge/bin/ws2tcp.py:215-221 | gives one place back and never stores a zero |
| WsSlots.Counters.Acquire | linux-port/docker/wsbridge/bin/ws2tcp.py:202 | takes one of the bridge's slots exactly when one is free |
| WsSlots.Counters.Release | linux-port/docker/wsbridge/bin/ws2tcp.py:202 | gives a slot back, and refuses one that was never taken |
| WsSlots.Counters.Admit | linux-port/docker/wsbridge/bin/ws2tcp.py:494-500 | a connection gets in exactly when a slot is free and its address is below the limit; a refused one leaves both counters as they were |
| WsSlots.Counters.Finish | linux-port/docker/wsbridge/bin/ws2tcp.py:548-556 | the end of a connection gives both places back |
| WsSlots.AdmissionIsUndone | linux-port/docker/wsbridge/bin/ws2tcp.py:207-221 | giving an address's place back undoes taking it |
| WsSlots.SlotsAlwaysBalance | linux-port/docker/wsbridge/bin/ws2tcp.py:493-556 | in every interleaving free slots and holders add up, each address counts its handlers within its limit, and at the end everything is back |
| WsOutcomes.AdvanceOutcome | linux-port/docker/wsbridge/bin/ws2tcp.py:493-556 | what a handler does next at every stage, and what becomes of the two counters |
| NamePool.CleanIsWearable | linux-port/overlays/playerbot/tools/generate_bot_names.py:78-95 | a cleaned name can be worn, has a letter and is its own cleaning; a refused line held no such name |
| NamePool.ReadList | linux-port/overlays/playerbot/tools/generate_bot_names.py:98-114 | the names of the lines, each once ignoring case, and the lines dropped |
| NamePool.ListIsComplete | linux-port/overlays/playerbot/tools/generate_bot_names.py:98-114 | the list is different names only, all wearable, and misses none |
| NamePool.ListComesFromLines | linux-port/overlays/playerbot/tools/generate_bot_names.py:98-114 | and holds nothing that is not the cleaning of some line |
| NameOutcomes.CleanWhen | linux-port/overlays/playerbot/tools/generate_bot_names.py:78-95 | a line is usable exactly when what is left of it is 3 to 24 characters, holds a letter and none of the words that keep a name out |
| NameOutcomes.BlockedWhen | linux-port/overlays/playerbot/tools/generate_bot_names.py:74-95 | those words, written out |
| NameOutcomes.StripTrims | linux-port/overlays/playerbot/tools/generate_bot_names.py:103 | stripping takes the blanks off both ends and nothing else |
| NameOutcomes.DroppedOutcome | linux-port/overlays/playerbot/tools/generate_bot_names.py:102-109 | the lines reported as dropped, in file order |
| NameOutcomes.ListedOutcome | linux-port/overlays/playerbot/tools/generate_bot_names.py:106-113 | a name joins the list at its end unless it is there already |
| NamePool.BuildPool | linux-port/overlays/playerbot/tools/generate_bot_names.py:117-151 | shares, suffix rounds and the cap, as loops over one set of names in use |
| NamePoolTheorems.CandidateIsWearable | linux-port/overlays/playerbot/tools/generate_bot_names.py:144-145 | cutting and suffixing lets in no blocked stem or prefix and keeps the length |
| NamePoolTheorems.PoolIsFair | linux-port/overlays/playerbot/tools/generate_bot_names.py:117-151 | for every list and shuffle: all names differ ignoring case and are wearable, each kingdom has its share first and at most its cap, every written name is dealt |
| NamePoolTheorems.PoolNamesDiffer | linux-port/overlays/playerbot/tools/generate_bot_names.py:117-121 | one name appears once in the whole pool, whichever kingdom it landed in |
| NameOutcomes.TailsTakeTurns | linux-port/overlays/playerbot/tools/generate_bot_names.py:135-144 | which tails the eight rounds put behind the names, in turns |
| NameOutcomes.CandidateOutcome | linux-port/overlays/playerbot/tools/generate_bot_names.py:144-145 | a name is cut so that it and its tail fit 24 characters |
| NameOutcomes.KingdomOutcome | linux-port/overlays/playerbot/tools/generate_bot_names.py:132-150 | a kingdom is dealt on until it has 1800 names or every name of the eight rounds is in use |
| NameOutcomes.PoolOutcome | linux-port/overlays/playerbot/tools/generate_bot_names.py:124-151 | kingdoms 2, 1 and 3 in turn, each with its third of the list and the first with what is left over |
| NameDeal.RankIsReached | linux-port/overlays/playerbot/tools/generate_bot_names.py:271-273 | row numbers leave no gap |
| NameDeal.NameTables.Run | linux-port/overlays/playerbot/tools/generate_bot_names.py:207-316 | the script's statements in order, for each of its three modes |
| NameDeal.DealtNamesAreUnique | linux-port/overlays/playerbot/tools/generate_bot_names.py:239-305 | after a deal every dealt name is worn by exactly the bot it went to |
| NameDeal.SecondDealIsIdle | linux-port/overlays/playerbot/tools/generate_bot_names.py:278-281 | a second run of the same version deals nothing and changes nothing |
| NameDeal.DealtInOrder | linux-port/overlays/playerbot/tools/generate_bot_names.py:239-244 | names go out in list order by PID, from the kingdom's own part |
| NameOutcomes.DealtRowOutcome | linux-port/overlays/playerbot/tools/generate_bot_names.py:270-305 | the pool row dealt to a bot is of the kingdom its index row names if that is 1, 2 or 3, otherwise of kingdom 2, and nobody who stays wears it |
| NameOutcomes.WaitsWhen | linux-port/overlays/playerbot/tools/generate_bot_names.py:278-287 | who waits for a name, rule by rule |
| NameOutcomes.NoNameIsPassedOver | linux-port/overlays/playerbot/tools/generate_bot_names.py:291-305 | a free name of the kingdom that stands before a dealt one goes to a lower PID |
| NameOutcomes.NobodyIsPassedOver | linux-port/overlays/playerbot/tools/generate_bot_names.py:271-273 | whoever waits in the kingdom with a lower PID is dealt a name too |
| NameOutcomes.DealOutcome | linux-port/overlays/playerbot/tools/generate_bot_names.py:308-316 | what a run leaves of every character and its history row |
| NameDeal.OthersAreLeftAlone | linux-port/overlays/playerbot/tools/generate_bot_names.py:169-173 | a deal renames only the waiting bots it planned for; persons, settled bots and hand-renamed bots never wait |
| NameDeal.SeedNameIsFirstName | linux-port/overlays/playerbot/tools/generate_bot_names.py:308-312 | over any history, recreated bots included, the remembered name is the one worn before the first deal since it was last forgotten |
| NameDeal.RestoreUndoesEveryDeal | linux-port/overlays/playerbot/tools/generate_bot_names.py:207-214 | after any history of runs, renames, new, deleted and recreated characters, restore gives every still-dealt bot that name back and touches nobody else |
| NameOutcomes.RestoreOutcome | linux-port/overlays/playerbot/tools/generate_bot_names.py:207-214 | one restore: whoever still wears the dealt name has the old one again, and nothing is remembered |
| NameDeal.BuiltPoolFitsTheKey | linux-port/overlays/playerbot/tools/generate_bot_names.py:228-234 | the pool's unique key accepts the pool that was built |
| Reachability.ClosedIsReach | tools/analyse_map_bridges.py:98-110 | a closed set around the start that holds only reachable cells is the reachable set |
| MapFile.LoadGrid | tools/analyse_map_bridges.py:56-76 | the flat grid shows every cell of the file, or the file is malformed |
| MapFile.LoadSectors | tools/analyse_map_reach.py:24-38 | the dictionary holds every sector of the file, or the file is malformed |
| MapOutcomes.MapComesBack | tools/analyse_map_reach.py:24-38 | every map whose numbers fit the format is read back from its bytes as it was, sector by sector, negative sizes included |
| MapOutcomes.CellOutcome | tools/analyse_map_bridges.py:63-75 | where each cell stands: sectors row by row through the map, cells row by row through a sector |
| MapFile.BlockedIsClosed | tools/analyse_map_reach.py:41-48 | a cell is blocked exactly when it is outside the map or its word meets the mask |
| MapFile.OpenMeansClear | tools/analyse_map_bridges.py:79-81 | a cell is open exactly when it is on the map and shares no attribute bit with the mask |
| MapOutcomes.RuleBits | tools/analyse_map_bridges.py:44-53 | the attribute bits of the three rules: 0, 1 and 7 |
| MapOutcomes.WalkableWhen | tools/analyse_map_reach.py:41-48 | a bot walks a cell exactly when it is on the map and neither blocked, nor water, nor an object |
| MapFlood.SnapGrid | tools/analyse_map_bridges.py:83-97 | the snapped start is the first open cell in probing order, or there is none |
| MapOutcomes.SnapOutcome | tools/analyse_map_bridges.py:83-97 | which ring, column and edge the snapped start is on, and what is closed before it |
| MapOutcomes.NeighboursOutcome | tools/analyse_map_bridges.py:98-130 | the four and the eight neighbours by their coordinates |
| MapFlood.FloodGrid | tools/analyse_map_bridges.py:79-110 | returns exactly the open cells four-connected to its start, and terminates |
| MapFlood.FloodSector | tools/analyse_map_reach.py:51-78 | the same over the dictionary of sectors |
| MapFlood.FloodsAgree | tools/analyse_map_reach.py:51-78 | for every file the two return the same cells from every open start, and from a closed one exactly when the shorter search decides |
| MapFlood.FloodsDiffer | tools/analyse_map_reach.py:55-67 | a one-sector map on which the two floods differ: the only open cell is on the fortieth ring |
| MapFlood.RulesNest | tools/analyse_map_bridges.py:48-53 | from a start open under the strictest rule the three results are nested |
| MapClusters.ClustersOf | tools/analyse_map_bridges.py:113-132 | returns every maximal eight-connected clump once, largest first |
| MapClusters.ClumpsPartition | tools/analyse_map_bridges.py:113-132 | the clumps cover the cells, share none and do not touch |
| Weights.WeightsFile.Read | linux-port/docker/tuike/tuike/spool.py:324-351 | the settings line by line, each clamped by its kind |
| Weights.WeightsFile.Write | linux-port/docker/tuike/tuike/spool.py:402-435 | header, known settings clamped, then the preserved lines |
| Weights.WrittenReadsBack | linux-port/docker/tuike/tuike/spool.py:402-431 | reading a file just written gives every setting its clamped value |
| WeightOutcomes.SavedOutcome | linux-port/docker/tuike/tuike/spool.py:417-431 | what a saved value reads back as, in numbers: weights between 25 and 250 and 100 without one, switches 0 or 1, percentages to 100, permilles to 1000, the refine floor to 9, the last three kinds nothing without one |
| WeightOutcomes.LineOutcome | linux-port/docker/tuike/tuike/spool.py:332-351 | what one line says about a key, in the same numbers, and that it says nothing about others |
| WeightOutcomes.FieldsOutcome | linux-port/docker/tuike/tuike/spool.py:333 | blanks separate the fields and a hash ends the line |
| WeightOutcomes.TextOutcome | linux-port/docker/tuike/tuike/spool.py:410-431 | header lines, an empty line, the printed settings, the kept lines |
| WeightOutcomes.PrintedOutcome | linux-port/docker/tuike/tuike/spool.py:417-430 | each setting's line stands behind those before it: the key, a tab, and the number in decimal |
| Weights.UnknownKeysSurvive | linux-port/docker/tuike/tuike/spool.py:354-369 | every line kept for an unknown key, its digits in any script, comes through a write unchanged and in order |
| WeightOutcomes.KeptOutcome | linux-port/docker/tuike/tuike/spool.py:363-368 | which lines are kept, character by character, and as what |
| Weights.UnknownKeysSurviveAll | linux-port/docker/tuike/tuike/spool.py:354-369 | and through any number of writes |
| Weights.PanelIsSound | linux-port/docker/tuike/tuike/gamedata/bots.py:48-75 | the panel's own settings meet what the round trips need |
| WeightOutcomes.PanelOutcome | linux-port/docker/tuike/tuike/gamedata/bots.py:48-75 | the panel's settings in order, their kinds, and what each reads as without a file |

## Left out

- GrantFairness.SharedLimitHolds: holds only while the workers' ticks do not overlap, because the code does not keep the shared limit otherwise.
- GrantRuns.EveryGrantHandedOverOnce: a delivery is one step after a claim; what the quest does inside it, and items it hands over only in part, are not modelled.
- MapFlood.SnapGrid: does not state that the snapped start is the nearest open cell, because only the top and bottom edge of each ring are tried.
- NamePoolTheorems.PoolIsFair: does not state that every pool name contains a letter; a 24-character name whose only letter is last loses it under a one-digit suffix.
- NameDeal.DealtNamesAreUnique: assumes that everyone has an account, that no bot back on its seed name wears a pool name, and that each kingdom has enough free names.
- SeedTheorems.CrashesDoNotMatter: generated ids are a function of the bot, and timestamps and columns that start at zero are not modelled.
- The outcome `warp_operator_to` reports: its poll takes the quest's claim stamp for an answer.
- Recipient criteria, previews and the operator's forms; a grant's recipient lookup is any function.
- Sockets, timeouts and the HTTP upgrade of the bridge; what a thread's send or receive does is one of the outcomes of its step.
- The text of SQL, drivers, character sets, transactions other than the worker's, and the exact contents of log lines and messages.
- Rankings, statistics, map drawing, spawn counts, release checks, the login limiter, the panels' pages, and the source patch scripts.
- Splitting and joining the weights file into lines, its encoding, and its replacement on disk.
