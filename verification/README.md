# A verified model of Race Condition Kingdom

Race Condition Kingdom is a multiplayer text world served over Telnet. Terminals stay
connected to an *edge*; the edge asks a stateless *core*, one request at a time, to run
what the player typed; the core keeps sessions and world in one database. This project
models four parts of it in Dafny and proves what they promise.

1. **The edge/core protocol** (`Terminalwire`, `CoreSession`, `CoreDispatch`, `Core`,
   `PlayerHub`, `Edge`, `Protocol`, `Honest`, `Guarantees`, `Hangups`, `Keyboard`, `Acts`,
   `WorldReplay`, `Messages`, `Replies`, `SignIn`, `Leases`, `Failures`, `Ownership`,
   `OwnerIndex`, `Revocation`, `Exceptions`). A dispatch is one atomic step of the global
   command lane. `Core` runs it on mutable sessions, outboxes and the player hub, and is
   proved equal to the function `CoreDispatch.Dispatch`; what that function means to those
   who type and read is stated without its own parts, from the keyboard to the game and from
   the game to every outbox and socket. `Edge.EdgeLoop` is the loop of the edge. `Protocol` puts one
   terminal and its network beside an arbitrary rest of the world: its requests may be lost,
   delayed, repeated and reordered, answers may be lost, any dispatch may abort before its
   commit, and other sessions send anything at any time. The game is a parameter, so every
   theorem holds for every game.
2. **The world the commands act on** (`Realm`, `World`, `RealmSafety`, `RealmStock`,
   `RealmCoin`, `RealmBooks`, `RealmFights`, `RealmDeeds`, `RealmEffects`, `RealmExceptions`,
   `Tally`). Tables are maps in a class; each operation either commits or leaves everything
   as it was. Invariants are proved over runs of all operations together, by any players in
   any order.
3. **Graphs and histories** (`WorldPlan`, `WorldRules`, `WorldBuilder`, `ContentInstall`,
   `ContentGrowth`, `ContentInstaller`, `ContentExceptions`, `ScriptStore`, `ScriptHistory`,
   `ScriptRuns`, `ScriptEffects`): building a world from a script, installing it in a live
   database, and the drafts, publications and audit history of builder scripts.
4. **Terminal codecs** (`TelnetCodec`, `Petscii`, `TypedText`): Telnet lines with negotiation
   interleaved (RFC 854, RFC 855), the greedy 39-column PETSCII wrapper, and the keys that
   type a text.

Code that changes state in place is modelled by classes and loops (`Core`, `EdgeLoop`, `Hub`,
`World`, `Savepoint`, `Builder`, `Installer`, `Store`, `Runner`, `Connection`, the PETSCII
methods). Each method is proved against a specification function of the old state, and what
the source promises is proved about those functions.

## Assumptions

- Transaction times do not decrease in the order of the command lane, and no `open` request
  is delivered after the tombstone of its session has been deleted (`Protocol.Timely`).
- Users are never deleted, and while a user's credential version stays the same the user
  stays as active as it was (`Ownership.Advances`; migration 008 bumps the version otherwise).
- A character belongs to one user (`Ownership.Owned`).
- Potions do not harm (`RealmSafety.Wholesome`): assumed for vitals only, not for items,
  coin or balances. Monsters do not drop quest items (`RealmSafety.NpcOk`).
- IDs of new rows are unused: UUIDs are natural numbers, and hashes of content keys are
  injective where it matters.

## What the proofs show about the code

- **A close can be overtaken.** A close for a session without a row leaves no tombstone: for
  every game there is a run in which the close is answered as closed and the `open` it
  overtook is executed all the same (`Hangups.CloseOvertaken`). A close ends its session
  exactly when it finds a row (`Hangups.CloseEnds`), and then no pending command of any
  number is ever executed (`Hangups.CloseBeatsInput`).
- **Revocation has one gap.** The recheck of credentials is skipped for closed sessions and
  for close requests. The reply to a revoked session then holds output older than the
  revocation exactly when such output is still pending (`Revocation.RevokedDispatch`), and it
  happens (`Exceptions.OldOutputReturned`); no command runs either way, in any later state
  (`Revocation.RevokedNeverRuns`).
- **Revocations can be delayed by a failing command.** A dispatch that finds *another*
  session revoked closes its row exactly when its own command did not fail
  (`Revocation.CutUnlessFailed`); otherwise the row keeps everything, as in
  `Exceptions.FailureReachesOthers`, and the next dispatch whose command does not fail
  closes it (`Revocation.FoundAgain`).
- **A failed command can be heard.** It leaves every other row exactly as it was, unless its
  refusal does not fit the outbox of a player: then that session closes, and the other
  players are told that it left (`Failures.FailedCommandIsAtomic`). An outbox filled to its
  limit and a short refusal are enough (`Exceptions.FailureReachesOthers`).
- **A player can leave unannounced.** A departure is announced exactly when the session of
  a player is closed by its own recheck, hangup or command; one that closes because the last
  report on its room does not fit leaves silently (`Leases.DepartsExactly`, with a table and
  a poll in `Exceptions.LeavesUnannounced`), and so do sessions that close in the dispatch of
  somebody else. What was not announced then never is (`Leases.NeverAnnounced`).
- **The unique index on characters fires at one instant.** When a lease is exactly two
  minutes old, it is too old to be loaded and too young to be cleared. A commit is refused
  exactly when an open row of that age owns the character the requester is stored with, in
  whatever order the rows are written (`OwnerIndex.IndexRefuses`); an orderly table and a
  request for which it happens are given (`Exceptions.BoundaryRefuses`).
- **An unlooted corpse protects its monster.** A killing blow is refused, with the whole
  attack, exactly while an unexpired corpse of that monster still holds something
  (`RealmFights.SecondCorpseRefused`); monsters may respawn after 30 seconds, corpses last 30
  minutes. `RealmExceptions.CorpseProtects` is a run in which it happens.
- **Adoption does not always preserve custom exits**, as the comment in
  `internal/game/content.go:131` says: an adopted room's exit in a direction the pack declares
  survives exactly if it already led where the pack leads (`ContentGrowth.AdoptionKeeps`); a
  pack and a database in which one is lost are given (`ContentExceptions.CustomExitLost`).
- **A harmful potion** would leave a living character at zero health, exactly when it takes
  all the health there is (`RealmSafety.PotionKills`, with a state in
  `RealmExceptions.PoisonDrunk`). No shipped item harms (`internal/game/setup.go:55`), but
  nothing in the use of an item would stop one.

## Model

| member | source | states |
|---|---|---|
| Core.Core.Dispatch | internal/telnet/core.go:115-354 | one request in one transaction: the reply, rows and world are those of the specification `CoreDispatch.Dispatch`, or nothing changed (what it means: Messages.EveryoneHears, Replies.RequesterHears, SignIn.DialogueStored, Leases.RowsKept) |
| Core.Core.ServeRequest | internal/telnet/core.go:184-241 | edge, sequence and acknowledgement checks; a close jumps the sequence forward; sessions rechecked, ownership claimed |
| Core.Core.StartTransaction | internal/telnet/core.go:202-237 | the outbox is trimmed and every session restored, rechecked and enrolled; it fails exactly on conflicting ownership |
| Core.Core.Conclude | internal/telnet/core.go:238-354 | the turn is taken and committed unless the unique index refuses what would be stored (that no order of the writes is refused earlier is OwnerIndex.IndexRefuses) |
| Core.Core.WriteBack | internal/telnet/core.go:323-342 | only dirty sessions are written; only the requester's lease is renewed; only players in the game own a character |
| Core.Transaction.Send | internal/telnet/core.go:390-404 | output gets the next ID, or overflow closes the session and drops the data |
| Core.Transaction.TrimOutbox | internal/telnet/core.go:202-205 | acknowledged outputs leave the outbox from the front |
| Core.Transaction.RestoreAndCheck | internal/telnet/core.go:209-217 | a session whose credential lapsed loses its outbox, is closed and told so |
| Core.Transaction.Enroll | internal/telnet/core.go:209-237 | in any order of the sessions: it succeeds iff no two others play one character, and the hub then knows exactly who plays what |
| Core.Transaction.AdmitRequester | internal/telnet/core.go:228-236 | a requester whose character was taken over goes back to character selection |
| Core.Transaction.HandleInput | internal/telnet/server.go:369-398 | the line is handled by the state of the connection, after the credential check |
| Core.Transaction.CheckSignIn | internal/telnet/server.go:486-530 | a browser pairing with the connection's token signs the session in, unless its credential is not active |
| Core.Transaction.Select | internal/telnet/server.go:533-596 | a character is entered only if no other live session plays it |
| Core.Transaction.RunCommand | internal/telnet/core.go:261-281 | open, input, poll and close run their command |
| Core.Transaction.RollBackTo | internal/telnet/core.go:289-295 | world and checkpoints return to the savepoint; only the requester stays dirty |
| Core.Transaction.ExecuteCommand | internal/telnet/core.go:242-303 | the savepoint around one command and what each outcome keeps of it |
| Core.Transaction.ObserveRoom | internal/telnet/room_events.go:32-66 | changes since the last look are reported and the scene is replaced |
| Core.Transaction.TakeTurn | internal/telnet/core.go:238-322 | command, departure, room report, and the advance of a closed session |
| PlayerHub.Hub.Claim | internal/telnet/presence.go:27-35 | a character stays with the first session that claims it |
| PlayerHub.Hub.Update | internal/telnet/presence.go:36-43 | only a player in the game that stands in a room is listed |
| PlayerHub.Hub.Remove | internal/telnet/presence.go:44-56 | the session and every claim of it are forgotten |
| CoreSession.WriteAllQuiet | internal/telnet/core.go:390-404 | writing changes nothing but the outbox, which only grows or closes, and keeps its shape |
| CoreSession.TrimKeeps | internal/telnet/core.go:202-204 | trimming removes exactly the acknowledged IDs and keeps the shape |
| DispatchFacts.TurnTurned | internal/telnet/core.go:238-322 | what a turn may do to requester and bystanders, whatever the command does |
| RowFacts.DispatchStep | internal/telnet/core.go:115-354 | every committed dispatch: bystanders only gain output or are cut off; the requester advances by at most one command |
| Edge.EdgeLoop.Turn | internal/telnet/edge.go:256-315 | one turn of the edge loop on an answer: outputs, acknowledgement, reset, close, next command (what each of them is: Leases.SocketGets, Keyboard.NextRequest, Keyboard.LastRequest) |
| Edge.EdgeLoop.WriteOutputs | internal/telnet/edge.go:278-286 | outputs already acknowledged are skipped, each other one is written once and acknowledged |
| Edge.EdgeLoop.Leave | internal/telnet/edge.go:219-226 | the deferred close reuses the sequence of the pending request |
| Edge.EdgeLoop.Answer | internal/telnet/edge.go:148-150 | an answer out of sequence moves nothing, so the very same request is sent again; any other answer takes one turn |
| Honest.StepInv | internal/telnet/edge.go:230-316 | every step of network, core and edge keeps the lockstep invariant |
| Honest.RunInv | internal/telnet/core.go:172-354 | the invariant holds over every run |
| Guarantees.ExactlyOnce | internal/telnet/core.go:172-303 | over any run each session executes the sequences 1, 2, 3, ... once and in order; a terminal's session runs its edge's commands; an open session has run them all |
| Guarantees.AnsweredMeansExecuted | internal/telnet/edge.go:256-295 | an answer neither closed nor reset proves its request was executed, exactly that command, as the last so far |
| Guarantees.GapFreeDelivery | internal/telnet/core.go:199-204 | the socket has seen a prefix of the committed output, the outbox holds the rest; after a withdrawal still in order and never twice |
| Guarantees.OutboxShape | internal/telnet/core.go:390-404 | in every reachable state pending IDs are the contiguous range ending at the last one, within 64 KiB |
| Guarantees.HonestInStep | internal/telnet/core.go:190-204 | an honest edge never meets a sequence gap, an acknowledgement ahead of the core, a foreign edge or an open session, and its answers are in step |
| Guarantees.ClosedIsFinal | internal/telnet/core.go:187-197 | a session that is over never reopens and runs no further command |
| Keyboard.NextRequest | internal/telnet/edge.go:292-315 | after an answer that neither closes nor resets nor breaks the socket, the next request is exactly the line typed, a poll when nothing came, a close when idle or stopped |
| Keyboard.LastRequest | internal/telnet/edge.go:219-294 | any other answer ends the session with a close of the pending sequence, or dials again as a new one |
| Keyboard.ExecutedAsTyped | internal/telnet/edge.go:295-315 | over any run the lines a session of the terminal has executed are the first lines typed at it, in order, unchanged, none twice and none left out |
| Keyboard.NextLineGoes | internal/telnet/edge.go:230-315 | from any reachable state: a request sent, delivered and not refused gets an answer the edge accepts, and it goes on with the next sequence unless told to stop |
| Hangups.CloseEnds | internal/telnet/core.go:172-197 | a close that is not aborted executes nothing, and leaves its session over iff it found its row or it was over before |
| Hangups.CloseBeatsInput | internal/telnet/core.go:184-197 | once a close has found its row, in no later state of any run has the session executed anything it had not executed before |
| Hangups.CloseOvertaken | internal/telnet/core.go:172-176 | for every game there is a run of the protocol in which a close without a row is answered as closed and the open it overtook is executed |
| Guarantees.DepartsOnce | internal/telnet/core.go:304-309 | a departure is announced at most once, and only of sessions that are over |
| Acts.DispatchActs | internal/telnet/core.go:242-303 | what a dispatch records of its command: at most one look, then its own line played once or its own entry, nothing when it failed or was no input, then at most one look; started from the state stored for its session |
| WorldReplay.DispatchTracks | internal/telnet/core.go:238-322 | the committed world is the old one after the acts of the command executed, which are those its own request called for |
| WorldReplay.WorldIsReplayOfLog | internal/telnet/core.go:256-303 | after any run the world is that of a machine fed each executed command once, and every logged command did only what its own session, kind and line call for |
| WorldReplay.EachLinePlayedOnce | internal/telnet/core.go:256-303 | over any run the lines a session has played in the world are exactly the lines of its executed inputs in play that did not fail, in order, each once |
| Failures.FailureLeavesNoTrace | internal/telnet/core.go:285-303 | two games that both fail in a command end with the same world and sessions, whatever they did in it |
| Failures.FailedRequester | internal/telnet/core.go:285-303 | a failed command keeps the requester's connection; only room observations touch the world |
| Failures.FailedCommandIsAtomic | internal/telnet/core.go:289-309 | after a failed command every other stored row is unchanged, iff not: the requester plays, its refusal does not fit its outbox, and that row plays too; such a row gains the departure and nothing else |
| Failures.FailedDispatch | internal/telnet/core.go:289-342 | the same for the rows a dispatch commits, by the outcome it records |
| Exceptions.FailureReachesOthers | internal/telnet/core.go:289-309 | an orderly table with one outbox at its limit, a failing command with a short refusal, a player who hears of it and a revoked session that keeps its open row |
| Revocation.RevokedDispatch | internal/telnet/core.go:209-217 | a dispatch of a session whose credential lapsed runs no command and leaves it closed; older output is returned iff the recheck is skipped and some is pending |
| Leases.RowsKept | internal/telnet/core.go:139-145 | a commit forgets exactly the rows not seen for 24 hours, renews one lease, and leaves other rows closed or two minutes old alone but for their claim on a character |
| Leases.StrangersAnswered | internal/telnet/core.go:173-179 | malformed requests change nothing; an unknown session is answered as closed, or reset, unless it opens |
| Leases.RunsUnderCredential | internal/telnet/core.go:209-217 | a signed-in session runs a command only for a user who exists, is active and has the version of its credential |
| Leases.CutSays | internal/telnet/core.go:209-217 | only such sessions without a valid credential are cut off, and the notice of it is all that is left in their outbox |
| Leases.DepartsExactly | internal/telnet/core.go:302-322 | the requester departs iff its session, open and in the game before and not taken over, was closed before the last look at its room |
| Leases.NeverAnnounced | internal/telnet/core.go:304-309 | over any run a session that is over and was not announced as departed never is |
| Exceptions.LeavesUnannounced | internal/telnet/core.go:304-319 | an orderly table with two players and a poll that closes the session of one: committed, no departure, and the other hears nothing |
| Leases.SocketGets | internal/telnet/edge.go:278-286 | in any reachable state every output of an answer is new to the socket and written, in order, up to the one that breaks it |
| Leases.WritesAbove | internal/telnet/edge.go:278-286 | of any answer with ascending IDs the socket gets exactly the outputs above the last acknowledgement |
| Messages.EveryoneHears | internal/telnet/server.go:1102-1108 | after any commit the outbox of every other player holds in addition exactly the texts the game addressed to it, in order under the next IDs, and the departure; or what fits of them, and is closed; nobody else hears anything |
| Messages.GameSeesPlayers | internal/telnet/presence.go:57-69 | the game is shown the requester and exactly the other live players in a room, each as stored |
| Replies.RequesterHears | internal/telnet/core.go:246-322 | what a line in play adds to its own outbox: the report on the room, its mail, the refusal if it failed, in order, as far as it fits |
| Replies.PollHears | internal/telnet/core.go:310-319 | a poll in play adds the report on the room and the prompt if anything is pending, and changes nothing else of the connection |
| SignIn.DialogueStored | internal/telnet/server.go:369-398 | the stored connection and the answer after any line outside the game, as a table of phases and intents |
| SignIn.ComesToTurn | internal/telnet/core.go:228-236 | an open requester comes to its turn as stored, or back at character selection if another live session plays its character |
| SignIn.OwnTokenOnly | internal/telnet/server.go:486-530 | a session becomes signed in only by a valid credential confirmed with the token of its own connection |
| SignIn.ChosenByNumber | internal/telnet/server.go:533-596 | the character entered is the one of that number in the list of its user, and nobody else plays it |
| Exceptions.OldOutputReturned | internal/telnet/core.go:187-217 | an orderly table and a close request of a revoked session that is committed and returns output from before the revocation |
| Revocation.RevokedNeverRuns | internal/telnet/core.go:209-217 | from any reachable state, once the stored credential no longer holds, no later delivery by anyone ever runs a command of that session |
| Revocation.CutUnlessFailed | internal/telnet/core.go:209-217 | a committed dispatch that finds another session revoked closes and empties its row iff its command did not fail; otherwise the row is as it was |
| Revocation.FoundAgain | internal/telnet/core.go:289-295 | a delayed revocation stays found through any run: the next committed dispatch of another session whose command does not fail closes the row, if its lease still runs |
| Ownership.DispatchOwn | internal/telnet/core.go:139-145 | a dispatch keeps single ownership, leases and lapsing credentials included |
| Ownership.SingleOwnership | internal/database/migrations/004_terminal_sessions.sql:12-13 | in every reachable state the owner column of open rows is injective, and no two open sessions with current leases are in game as one character |
| OwnerIndex.IndexRefuses | internal/database/migrations/004_terminal_sessions.sql:12-13 | the index refuses what a dispatch would store iff another open row at the last instant of its lease owns the character the requester is stored with; then in every order of the writes, else in none |
| OwnerIndex.NoLiveOwner | internal/telnet/core.go:221-236 | no live row owns the character the requester ends its turn with, revoked ones included |
| Exceptions.BoundaryRefuses | internal/telnet/core.go:139-145 | an orderly table and a request in step that the index refuses |
| Ownership.NoConflict | internal/telnet/core.go:221-226 | from such a state a dispatch never reports conflicting ownership |
| OwnerIndex.HonestAnswered | internal/telnet/core.go:115-354 | from every reachable state, when nothing fails, the request of an honest edge is refused iff the index refuses it at the lease boundary, and is otherwise answered in sequence |
| World.Savepoint.Rollback | internal/game/transaction.go:52-63 | a rollback restores the tables once, and does nothing after a commit |
| World.Savepoint.Commit | internal/game/transaction.go:43-50 | a savepoint ends once |
| World.World.FindNamed | internal/game/match.go:52-68 | a typed name selects a row iff it matches exactly one |
| World.World.TakeItem | internal/game/items.go:71-137 | one copy moves from the ground to a pack that is not full; a quest item only once |
| World.World.TakeEverything | internal/game/items.go:405-458 | stack by stack in any order, with a running count, as far as capacity and quest items allow |
| World.World.DropItem | internal/game/items.go:139-182 | one copy that is not equipped moves to the ground |
| World.World.UseItem | internal/game/items.go:184-242 | a potion heals or restores up to the maximum and is consumed |
| World.World.EquipItem | internal/game/items.go:244-284 | what was worn of the kind is taken off, the item put on |
| World.World.UnequipItem | internal/game/items.go:286-302 | an equipped item is taken off |
| World.World.CombatEquipment | internal/game/combat.go:33-49 | running maxima over equipped rows are the best weapon and armor |
| World.World.RespawnNPCs | internal/game/combat.go:28-31 | monsters that are due come back at full health |
| World.World.AttackMonster | internal/game/combat.go:53-167 | one round commits, or nothing changes |
| World.World.LootCorpse | internal/game/loot.go:42-148 | coin, then the item if there is room, or nothing changes |
| World.World.ResurrectCharacter | internal/game/death.go:16-77 | payment or waiting time ends death in the hall |
| World.World.GiveItem | internal/game/npc.go:97-191 | the manifest is delivered, paid for and put back at the docks |
| World.World.RestAtInn | internal/game/npc.go:193-220 | rest at an inn restores health and stamina |
| World.World.MoveCharacter | internal/game/world.go:81-126 | a living character takes an exit; weariness costs stamina down to zero |
| World.World.AwardScript | internal/game/scripts.go:278-282 | a script's gold and healing, within their bounds |
| RealmSafety.OpSafe | internal/game/items.go:97-131 | every operation keeps capacity, quest uniqueness, equipment, vitals, NPC health and corpses |
| RealmSafety.RunSafe | internal/game/combat.go:71-160 | all of it over every run |
| RealmSafety.DeathNeverTraps | internal/game/death.go:28-67 | in any reachable state the free resurrection is open to the dead exactly from its time on, and leaves health between one and the maximum |
| RealmSafety.PaymentRevives | internal/game/death.go:45-67 | paying revives at once exactly whoever can pay, and is recorded |
| RealmSafety.DeathTakesNothing | internal/game/combat.go:136-161 | a player dies only by its own attack, loses no item, coin or experience, and wakes in the hall with ten minutes to wait |
| RealmSafety.DeathEndsByResurrection | internal/game/world.go:96-101 | the dead stay where they are and only resurrection ends death |
| RealmSafety.PotionKills | internal/game/items.go:205-233 | when a living character could be left without health |
| RealmExceptions.PoisonDrunk | internal/game/items.go:205-233 | a sound state in which a potion leaves a living player without health |
| RealmSafety.LivingWalk | internal/game/world.go:81-126 | wherever exits lead, a living player can walk |
| RealmStock.TakeAllLeaves | internal/game/items.go:404-458 | after take-all, what is left is left because the pack is full or the quest item is held; other rooms and all totals are kept |
| RealmStock.OpMoves | internal/game/items.go:158-175 | taking, dropping, wearing and all that does not concern items keep every item's total |
| RealmStock.LootMoves | internal/game/loot.go:109-132 | looting moves an item or leaves it; only expired corpses take theirs with them |
| RealmStock.ItemsConserved | internal/game/loot.go:109-128 | over any run of taking, dropping, wearing and looting every item is conserved but for what expired corpses held |
| RealmStock.DropUndoesTake | internal/game/items.go:115-175 | dropping what was just taken restores every table |
| RealmStock.EquipWears | internal/game/items.go:266-275 | of a kind exactly the chosen item is worn afterwards, and no other pack changes |
| RealmStock.UseSpends | internal/game/items.go:222-230 | a potion used is one copy less |
| RealmStock.DeliveryMoves | internal/game/npc.go:150-179 | a delivery leaves exactly one manifest at the docks and none in the pack |
| RealmBooks.OpStock | internal/game/items.go:222-230 | every operation accounts for every copy of every item |
| RealmBooks.StockLedger | internal/game/combat.go:119-134 | over any run of all operations, of each item: what there was, plus what killing blows and deliveries brought, minus potions drunk, manifests handed over and what expired corpses held |
| RealmCoin.AttackTables | internal/game/combat.go:119-160 | what an attack changes: its player, and on a kill one fresh corpse with the coin of the blow |
| RealmCoin.AttackDrops | internal/game/combat.go:119-134 | an item on a corpse comes from a killing blow |
| RealmCoin.LootPays | internal/game/loot.go:88-133 | a corpse pays its owner and nobody else, exactly the coin still on it, and keeps none |
| RealmCoin.PaysOnce | internal/game/loot.go:101-131 | over any run a corpse that has paid never pays again |
| RealmCoin.OpBalances | internal/game/death.go:45-67 | every operation balances the ledger |
| RealmCoin.LedgerBalances | internal/game/loot.go:88-133 | over any run: balances and unlooted coin are the initial amount plus coin minted, minus payments and coin on expired corpses |
| RealmCoin.NoDebt | internal/database/migrations/001_initial.sql:30-30 | no balance is ever negative, whatever the items |
| RealmFights.ClosedForm | internal/game/combat.go:113-140 | for any number of rounds: a fight is won iff there were at least R, stamina lasts R rounds and health R - 1 hits, at exactly that cost; after R rounds no further one changes anything |
| RealmFights.BlowRound | internal/game/combat.go:113-160 | an attack that does not kill is one round of the duel |
| RealmFights.FightWon | internal/game/combat.go:53-167 | on the tables, for any number of attacks: one of them brings the monster down iff there are at least R and the two bounds hold; it is the R-th, at exactly that cost, with experience granted once and the respawn time set; until it is due again no further attack changes anything |
| RealmFights.SecondCorpseRefused | internal/database/migrations/007_loot_and_resurrection.sql:30-31 | a killing blow is refused iff an unexpired corpse of the monster still holds something |
| RealmExceptions.CorpseProtects | internal/database/migrations/007_loot_and_resurrection.sql:30-31 | a run from a sound state: a monster slain, risen after its respawn time, and a killing blow its unlooted corpse refuses |
| RealmEffects.BlowRolls | internal/game/combat.go:117-134 | a killing blow with any other roll kills the same monster; its corpse has the coin of the blow for half an hour, and the item iff the roll is below the chance |
| RealmEffects.DropRate | internal/game/combat.go:124-128 | of the 10000 rolls exactly as many as the chance says leave the item, the lowest ones; without loot none |
| RealmEffects.AttackAllowed | internal/game/combat.go:68-110 | who attacks what and where, for two stamina |
| RealmEffects.PotionWorth | internal/game/items.go:205-231 | when a potion is used and what it adds to which vital, up to the maximum |
| RealmEffects.RestFills | internal/game/npc.go:193-220 | a rest fills health and stamina, at an inn only |
| RealmEffects.StepCosts | internal/game/world.go:97-126 | a step leads through the exit for one stamina, or none when there is none left |
| RealmEffects.ResurrectionGives | internal/game/death.go:30-75 | half of the health but at least one, all stamina, no trace of the death; for its price at once, for nothing from the time set |
| RealmEffects.DeliveryPays | internal/game/npc.go:140-172 | fifteen gold and up to twenty stamina for the manifest, to the crier alone, counted per character |
| RealmEffects.AwardGrants | internal/game/scripts.go:278-282 | a script awards up to 100 gold and 100 health, no more health than the maximum |
| RealmEffects.BestWorn | internal/game/combat.go:33-51 | the one weapon or armor worn counts with its damage within 0 and 100, its defense within 0 and 50 |
| RealmEffects.TakeAllowed | internal/game/items.go:85-115 | an item is taken iff it lies there, fewer than fifty are carried, and it is no quest item already held |
| RealmEffects.DropAllowed | internal/game/items.go:139-175 | an item is dropped iff it is carried and not worn |
| RealmEffects.WearAllowed | internal/game/items.go:244-300 | weapons and armor are put on; what is worn, and nothing else, is taken off |
| RealmEffects.LookRespawns | internal/game/combat.go:28-31 | a monster that is due in its room returns at full health; every other is as it was |
| RealmEffects.PackLimit | internal/game/items.go:85-115 | over any run nobody carries more than fifty |
| RealmDeeds.ExperienceLedger | internal/game/combat.go:117-160 | over any run of all operations a character has the experience it had plus what its own killing blows were worth |
| RealmDeeds.OneFallPerLife | internal/game/combat.go:28-31 | over any run the killing blows a monster has taken are the lives it has begun but for the one it is living: one per life at most |
| RealmDeeds.FallsApart | internal/game/combat.go:117-160 | after a killing blow a monster takes no other before its respawn time, whatever anybody does |
| WorldBuilder.Builder.Invoke | internal/scripting/world.go:46-100 | a builtin call adds its declaration or fails |
| WorldBuilder.Builder.PlaceMonsters | internal/scripting/world.go:104-112 | monsters stand in known rooms for fighting |
| WorldBuilder.Builder.InstallLinks | internal/scripting/world.go:113-125 | succeeds iff all rooms are known and no exit is declared twice; rooms then have exactly the declared exits, twice as many as links |
| WorldBuilder.Builder.Visit | internal/scripting/world.go:129-139 | for any order of the exits: everything marked is reachable and its exits are marked |
| WorldBuilder.Builder.Search | internal/scripting/world.go:129-140 | the marked rooms are exactly the reachable ones |
| WorldBuilder.EvaluateWorld | internal/scripting/world.go:37-145 | a script is accepted iff its declarations make a world, and yields exactly that world, strongly connected, every exit with an exit of the room it leads to that undoes its step |
| WorldPlan.AcceptedWorld | internal/scripting/world.go:113-144 | every exit has its way back, by the step that undoes it, and every room reaches every other, although the search starts from the first room only |
| WorldPlan.ScriptWorld | internal/scripting/world.go:101-144 | the same for whatever calls a script made |
| WorldPlan.OppositeUndoes | internal/scripting/world.go:35-35 | the way back is the one direction whose step undoes the step |
| WorldRules.CallAccepted | internal/scripting/world.go:47-99 | which builtin calls are accepted, in numbers, and what each adds |
| WorldRules.ExitsOnce | internal/scripting/world.go:113-125 | in an accepted plan no two links give one room the same exit, from whichever end |
| WorldRules.PlansMeet | internal/scripting/world.go:104-118 | in an accepted plan monsters stand in rooms for fighting and links join rooms of the plan |
| WorldRules.PlainText | internal/scripting/world.go:43-45 | a printing ASCII text is taken iff it is not blank and not too long |
| ContentInstaller.Installer.Install | internal/game/content.go:45-153 | the whole pack is installed, or nothing changes |
| ContentInstaller.Installer.FindOldest | internal/game/content.go:77-79 | adoption takes the oldest room of the name |
| ContentInstaller.Installer.PlaceRoom | internal/game/content.go:72-91 | a content key keeps its room, adopts one or gets a new one; a room serves one key |
| ContentInstaller.Installer.LinkRoom | internal/game/content.go:92-136 | exits are extended, or the first occupied one stops the installation |
| ContentGrowth.LinkedRows | internal/game/content.go:92-136 | rooms linked one after another are judged and linked as they were found |
| ContentGrowth.InstallationFails | internal/game/content.go:72-121 | it fails iff an old content key would adopt a room that serves another key, or a room installed earlier has another exit where a new room needs one, or exits that cannot be read, judged against the rooms as they were |
| ContentGrowth.PlacementFailsAtOnce | internal/game/content.go:72-91 | with distinct room names the first failure shows in the database beforehand: the oldest room of an old, uninstalled key's name serves another key |
| ContentGrowth.ConservativeExtension | internal/game/content.go:107-126 | installed keys keep their rooms, whose exits only grow and which otherwise stay as they are; rooms outside the content are untouched |
| ContentGrowth.NewLinksBothWays | internal/game/content.go:92-136 | every declared link with a new end is there in both directions, the way back by the step that undoes it |
| ContentGrowth.FurnishesRooms | internal/game/content.go:72-136 | every room of the pack ends up under its key; a new one has its declared description, kind, name, script and exits |
| ContentGrowth.SpawnsMonsters | internal/game/content.go:137-153 | every new monster stands in the room declared with its stats and loot; those installed earlier are left alone |
| ContentGrowth.BundlesScripts | internal/game/content.go:51-67 | every new bundled script is there, active and published; existing scripts are left alone |
| ContentGrowth.AdoptionKeeps | internal/game/content.go:131-135 | what a room keeps that an installation adopts: its script, and an exit iff the pack declares none there or it already led where the pack leads |
| ContentExceptions.CustomExitLost | internal/game/content.go:131-135 | a pack and a database: the installation succeeds and an adopted room loses an exit an operator made |
| ContentGrowth.Again | internal/game/content.go:92-102 | a pack whose keys are all installed changes nothing, whatever operators made of its rooms since |
| ContentGrowth.InstallTwice | internal/game/content.go:43-153 | running the same pack again changes nothing: rooms, scripts, history, monsters |
| ContentGrowth.BuiltPack | internal/game/content.go:17-41 | an accepted world is a pack the installer can take |
| ScriptStore.Store.ScriptCommand | internal/game/scripts.go:37-214 | one builder command commits, or changes nothing |
| ScriptStore.Store.Perform | internal/game/scripts.go:131-213 | what each verb does to draft, publication, attachments and history |
| ScriptStore.Store.FindRevision | internal/game/scripts.go:190-195 | the content recorded last for a revision |
| ScriptStore.Store.Make | internal/game/scripts.go:76-104 | a new script with its template, within the author's limit |
| ScriptStore.Store.InstallBundled | internal/game/content.go:51-67 | a bundled script is published as it is installed; one already there is left alone |
| ScriptHistory.HistoryKept | internal/game/scripts.go:134-213 | every command keeps history, draft and publication in step |
| ScriptHistory.RunHistory | internal/game/scripts.go:76-213 | in every reachable state a revision has one content, the draft is that of its revision, the published source that of its own |
| ScriptHistory.DraftsDoNotRun | internal/game/scripts.go:134-156 | only an admin's publish, disable, attach or detach changes what runs anywhere |
| ScriptHistory.PublishedRuns | internal/game/scripts.go:144-162 | publishing runs the reviewed draft wherever it is attached; disabling stops it everywhere |
| ScriptHistory.OneSaveWins | internal/game/scripts.go:134-143 | of several saves from one opened revision at most one succeeds |
| ScriptHistory.RestoreBringsBack | internal/game/scripts.go:190-198 | restoring a revision brings back the draft it had, whatever happened since |
| ScriptEffects.AttachRuns | internal/game/scripts.go:163-189 | attaching succeeds iff an admin attaches an active script to a target there is; that target then runs the published source, every other one what it ran |
| ScriptEffects.DetachStops | internal/game/scripts.go:163-189 | detaching succeeds iff the target has that script; the target then runs nothing, every other one what it ran |
| ScriptEffects.SaveStores | internal/game/scripts.go:134-143 | who may save what: the script then has exactly that draft under the next revision, and the audit records it |
| ScriptEffects.NewDraft | internal/game/scripts.go:71-104 | when a script is created, and the template and state it starts with |
| ScriptEffects.PublishAllowed | internal/game/scripts.go:144-162 | publishing needs an admin, the current revision and a valid draft; disabling an admin |
| ScriptEffects.OwnScriptsOnly | internal/game/scripts.go:51-113 | without a builder account nothing is allowed; a builder who is no admin changes only its own scripts |
| ScriptEffects.ChangesAudited | internal/game/scripts.go:205-213 | every change leaves exactly one audit entry: actor, action, revision, and the draft if there is one |
| ScriptEffects.HundredEach | internal/game/scripts.go:76-82 | over any run of commands nobody ever owns more than 100 scripts |
| ScriptEffects.AttachUndoesDetach | internal/game/scripts.go:163-189 | attaching again what was detached restores every attachment |
| ScriptEffects.ScriptPlays | internal/game/scripts.go:232-292 | for whom a script runs, on which source and state, and what is paid and stored of its result |
| ScriptRuns.Runner.Play | internal/game/scripts.go:218-292 | a run commits state and rewards together, or changes nothing |
| ScriptRuns.DraftsChangeNoRun | internal/game/scripts.go:232-238 | no save or restore changes a later run |
| ScriptRuns.RunsPublished | internal/game/scripts.go:232-232 | what runs is the content recorded for the published revision |
| ScriptRuns.StateChained | internal/game/scripts.go:261-290 | over any series of runs by any players on anything, the state of a script, target and player is what its own successful runs, chained, made of it |
| ScriptRuns.RunRewards | internal/game/scripts.go:278-282 | a run mints at most 100 gold and never harms the player |
| TelnetCodec.Connection.ReadLine | internal/telnet/connection.go:34-101 | one line, as the specification reads it from the stream and the CR state (what it then holds: TypedText.PlainLines, TypedText.PetsciiLines, TypedText.EditingKeys) |
| TelnetCodec.Connection.ReadApplicationByte | internal/telnet/connection.go:714-739 | the next byte of data, negotiation skipped |
| TelnetCodec.Connection.ReadSubnegotiation | internal/telnet/connection.go:672-705 | a subnegotiation is read to its end or breaks the stream |
| TelnetCodec.ItemRoundTrip | internal/telnet/connection.go:672-739 | a well-formed item in front of any bytes is read back as itself |
| TelnetCodec.ItemIsWire | internal/telnet/connection.go:672-739 | whatever is read as an item was that item on the wire |
| TelnetCodec.LinesAreEntered | internal/telnet/connection.go:34-101 | lines depend on the data alone |
| TelnetCodec.Transparent | internal/telnet/connection.go:714-739 | streams that differ only in commands give the same lines, across calls |
| TelnetCodec.InsertedCommands | internal/telnet/connection.go:56-61 | commands may be inserted anywhere, even between CR and LF |
| TelnetCodec.LineEndings | internal/telnet/connection.go:56-73 | CR LF, CR NUL, CR and LF each end one line |
| TelnetCodec.RejectedIffTooLong | internal/telnet/connection.go:74-98 | a line is rejected iff its edited length tried to exceed 1024; an accepted line is its editing |
| TypedText.PlainLines | internal/telnet/connection.go:50-98 | on a plain terminal lines of any bytes but control keys are read exactly as typed, however commands are interleaved, and rejected iff longer than 1024 |
| TypedText.PetsciiLines | internal/telnet/connection.go:741-755 | on a PETSCII terminal the codes that show a text also type it: every printing ASCII text comes back from its encoding |
| TypedText.BothShifts | internal/telnet/connection.go:741-755 | both capital keys of a letter type the capital, the plain key the small letter |
| TypedText.Substitutes | internal/telnet/petscii.go:41-56 | an ellipsis shows as three dots, any other character outside the alphabet as a question mark, CR, LF and CR LF as one break |
| TypedText.SubnegotiationLimit | internal/telnet/connection.go:672-705 | a subnegotiation of up to 1023 bytes is skipped, one that goes on after 1024 breaks the stream |
| TypedText.EditingKeys | internal/telnet/connection.go:74-98 | an erasing key undoes the key before it, other control keys do nothing, a tab is a blank |
| Petscii.PetsciiText | internal/telnet/petscii_screens.go:24-46 | text is encoded and wrapped paragraph by paragraph |
| Petscii.WrapWords | internal/telnet/petscii_screens.go:28-43 | the loop over the words of a paragraph is the greedy fill |
| Petscii.EncodeText | internal/telnet/petscii.go:37-59 | the byte alphabet, CR LF as one break |
| Petscii.EncodedAlphabet | internal/telnet/petscii.go:41-56 | the space is the only blank in encoded text |
| Petscii.LinesFit | internal/telnet/petscii_screens.go:24-46 | no line is longer than 39 bytes |
| Petscii.ParagraphWords | internal/telnet/petscii_screens.go:29-42 | words stay whole and in order; only words too long for a line are cut |
| Petscii.InkSurvives | internal/telnet/petscii_screens.go:24-46 | everything but blanks and breaks survives in order |
| Petscii.BreaksKept | internal/telnet/petscii_screens.go:27-45 | paragraph breaks are kept |
| Petscii.WrapTwice | internal/telnet/petscii_screens.go:22-46 | wrapping wrapped bytes again changes nothing |
| Petscii.FewestLines | internal/telnet/petscii_screens.go:29-33 | no breaking of a paragraph into lines that fit has fewer lines |

## Left out

- HTTP transport, bearer tokens, JSON, TCP, timeouts and log lines: they appear as lost,
  repeated and delayed messages and as the abort of a dispatch (`Env.fault`).
- PostgreSQL and Redis: the advisory lock is the atomicity of a step, savepoints are saved
  state, unique indexes and checks are conditions of the commit. Redis presence keys inform
  only operators. `uint64` output IDs and `int64` balances are unbounded here.
- Browser pairing: an environment that attaches a credential and a token to a session.
- Presentation, prompts, editor state and character details of a checkpoint: one opaque
  `view`. Notices the edge writes itself are not part of the delivered stream.
- Pointers shared between Go structs: sessions are values in a map that the methods reassign.
- The timing of the edge: when it polls, idles out or stops is an arbitrary choice
  (`Edge.Next`); its bounded queue of typed lines is not modelled.
- Echo of typed characters in PETSCII mode, and the negotiation of the terminal type before
  the first line.
- The Starlark interpreter and its worker: a script is a series of builtin calls
  (`WorldPlan.Call`) or a function from source and state to effects (`ScriptRuns.Interpreter`).
- Validation of bundled sources (`internal/game/content.go:31-37`), the item and NPC
  placements of `internal/game/setup.go`, and audit listings: data and display.
- Name matching: a typed name is the set of rows it matches; `FindNamed` requires exactly one.
- Randomness of loot and coin: any value within its bounds (`Realm.LuckOk`).
- Screen layouts, colours, help texts, mail, rate limits, account pages, the Redis event bus
  and the legacy gateway loop.
- Core.Core.Conclude: judges the unique index once, on the rows it would store, where the
  source's index is immediate; from an orderly table the two agree in every order of the
  writes (`OwnerIndex.IndexRefuses`).
- ContentInstall.Installation: monsters carry their whole definition and content keys stand
  for hashed IDs; foreign keys of the installed rows are not modelled.
- ScriptStore.Done: the length of a source counts the characters of the model's string, which
  stand for bytes; approval columns and timestamps are left out.
- Realm.Use: properties of an item that are not integers read as absent, as in the source;
  the model starts from the values read.
