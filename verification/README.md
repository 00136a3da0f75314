# Verification of the bot fleet's protocols

This project models the parts of the agent fleet whose correctness is hard to see from any one function,
and proves what they promise. Check it with Dafny 4.11: `dafny verify dfyconfig.toml`.

Code that changes state step by step is modelled by a class with the same fields. Each of its methods is
one stretch of code between two awaits; other tasks may run between any two. A method is tied to a pure step
function (or, for the move, to a set of facts about every world it passed through), and what is claimed of
whole runs is proved about sequences of those steps.

## What is modelled

**Host-to-host move** (`MoveWorld`, `MoveManager`). One bot: its row with the four move columns, a container
and a volume on each host, the archives in the moves bucket. Every external call may succeed, fail, or take
effect and still report a failure, and the process may die between any two calls. `Fleet.seen` holds every
world that ever existed, so "in every reachable state" includes every state a crash can leave behind.
`Fleet.Operate` is any number of operations in any order, with the bot serving customers in between. The bot is
the volume it serves from (`MoveWorld.Home`): the row's, or the old host's from the flip until the target is
promoted or put in service. A world is `lost` from the call on that erased that volume of a bot that had been in
service, or that promoted something else in its place. Until then the volume is whole and holds the newest
state; no two hosts run the bot; what a purge removes is never needed. Three things can lose a bot, each
reported by a flag of `Operate`, and for each the contracts say exactly when it does.

That is safety. For service, `Fleet.faults` counts the calls that failed, and `Fleet.calm` is a world in which none
does. An operation that did not finish has a failed call behind it (`Blamed`), so in a calm world every operation
whose guards pass finishes. When exactly one call of a move's try block failed and the row kept its host, the bot is
back as it was (`MoveWorld.BackInPlace`): up and `running` if it was up, stopped if it was stopped. A port that is
taken and tried again is no fault; the refusal of the last one is.

**Customer messages** (`PollSpec`, `PollProofs`, `PollBatches`, `PollLoop`; `DispatchSpec`, `DispatchProofs`,
`HandOuts`, `Dispatcher`, `Grouping`; `Inbox`, `WhatsappStore`, `Delivery`; `ReplySpec`, `ReplyProofs`, `Answers`,
`Replies`). The plugin's lanes, the
orchestrator's dispatcher, the inbox table, and the three of them with an unreliable network in between and
containers that restart. No message is lost silently, acks follow turns, one customer's handlers start in
order, a poll is answered once, a lease reaches one poll and reaches it in time, a wake-up is not lost, replies
are conserved however turns interleave. `PollBatches`, `HandOuts` and `Answers` say of one pulled batch, of one
query's rows and of one answer of the model where each part of it ends up and in which order, in terms of the
batch, the rows and the text themselves.

**Who answers a customer** (`Conversation`, `WhatsappStore`). Who answers depends only on when replies were
written and on the owner's last choice since the last purge, not on when, how often or in what order replies
were applied.

**Placement, ports, locks** (`PlacementSpec`, `PlacementProofs`, `Placement`; `Ports`; `Locks`). Capacity is a
promise that greedy choices keep; a port is handed to one caller; the nested promise-chain locks are fair and
cannot lock up.

**Text chunks** (`Chunking`). Size, surrogate pairs, nothing lost but white space, a bound on the number of
messages, and exactly when the loop ends.

**Sliding budgets** (`SlidingBudget`, `Restarts`, `Buckets`, `Escalations`). Bounds over every window, and
exactly when a customer's interval between two pages of the owner holds.

## Where the code falls short of its promise

Each of these is in the model as the code has it, with the exact condition.

- *A failure after the promotion committed* (`instance-manager.ts` 211-228). A lost acknowledgement, a failed
  event append or a failed re-read sends a promoted bot through the catch block, whose cleanup removes the
  volume the bot now lives on. `Fleet.ResumeProvisioningLocked` reports such a failure as `late`; after it a
  bot in service is lost if and only if that volume is gone (or was lost by a backup, below).
  `MoveWorld.CleanupAfterPromotionLosesTheBot`.
- *A move that cannot be put on record* (`instance-manager.ts` 630-634). The row says `stopped` before the try block
  begins. If the acknowledgement of that write is lost, or the event append after it fails, the row stays `stopped`
  with the container still running, and nothing puts it back. A failure inside the try block does bring the bot back,
  if the flip has not committed and nothing else fails (`Fleet.TryMove`); of a failure before it only the row can show
  (`Fleet.MoveForward`). `MoveWorld.UnrecordedMoveLeavesTheRowStopped`.
- *A start in the middle of a move* (`instance-manager.ts` 264-291). The transition table lets a row go from
  `provisioning` to `running`, so after a crash between the import mark and the promotion a start puts the bot
  in service on the target with the archive still recorded. The start itself loses nothing. A rollback after it
  does: `moveBackLocked` refuses a target that ran only while a started container is there to show it, and one
  can be gone by then. A rollback that succeeds loses a bot in service if and only if the target has served
  (`Fleet.MoveBackLocked`), and no other operation does for that reason (`Fleet.Round`). Served here means: put in
  service over the marked import, that is, on the bot's own state. A row started before the import was marked, or
  over a torn or restored volume, runs something else there; what that writes is not the bot's state, and a
  rollback drops it without loss in this sense.
  `MoveWorld.RollbackLosesTheServedTarget` for every such world, and step by step from a new bot on
  `LiveBotIsMoved`, `OwnerStartsMidMove`, `ServingBotLosesItsContainer`, `StartMidMoveThenRollbackLosesTheBot`.
- *A pending backup* (`instance-manager.ts` 190). A bot whose first provisioning failed before its backup was
  applied, and that was then rebuilt by hand, serves with the import still pending. The provisioning of its next
  move puts the backup over the state it moved and promotes that. A promotion loses a bot in service if and only
  if the backup was pending when the provisioning began, or an earlier attempt had applied it already
  (`Fleet.Provision`, with `MoveWorld.BackupAhead`; `Fleet.MoveForward` says the same of a whole move).
  `MoveWorld.RebuiltBotGoesLive` and `PendingBackupReplacesMovedState` are the run.
- *Ties* (`whatsapp-cloud-repository.ts` 441). A reply written in the millisecond of the owner's choice is
  overruled or not by the order in which the two were applied. Who answers differs from what choice and replies
  say if and only if the owner last chose the bot, the newest reply that counts was written in that very
  millisecond, and its hold still runs. `Conversation.WhoAnswersExactly`, `TiesDependOnOrder`.
- *An idle open-ended choice* (`whatsapp-cloud-repository.ts` 270-272). The idle sweep forgets a customer the
  owner took over for good; this is the one kind of row whose removal changes who answers.
  `Conversation.SweepForgetsOnlyIdleHumanChoices`, `IdleHumanChoiceIsForgotten`.
- *A raced insert* (`whatsapp-cloud-repository.ts` 454-460). The merge of a row created since the read agrees
  with the locked update unless the owner also chose in between; what is said of whole runs covers raced replies
  exactly where they agree. `Conversation.RacedReplyMerges`, `RacedReplyEndsAnOpenChoice`.
- *A purge* (`whatsapp-cloud-repository.ts` 362-368). A disconnect forgets who answers along with the messages:
  after a reconnect the bot answers a customer whom the owner had taken over, or whose hold still ran, and no
  other. `Conversation.PurgeForgetsHolds`.
- *A limit below two* (`outbound-text.js` 4-15). At a limit of one a high surrogate before the last unit, and
  at zero any visible text, makes the loop run for ever. `Chunking.TerminatesExactly`.
- *A port taken, saved and let go within one read* (`port-allocator.ts` 17-29) is handed out again: a port handed
  out has a row if and only if that row took it, was saved and let it go wholly within the read, and still has it
  (`Ports.AllocatedPortIsOurs`). The unique index then refuses a new or a moved row. A row that is rolled back is
  saved in `error`, where the index does not look, and shares the port until it would leave `error`.
  `Ports.PassedPortIsHandedOutAgain`.
- *An escalation given back late* (`manager.ts` 571-579). A release restores the stamp it found, and so can take
  away the stamp of a request that went out meanwhile. `Escalations.LateReleaseLetsOneThrough`.
- *A channel connected anew* (`manager.ts` 662-669). Connecting, refreshing or removing a bot's number forgets its
  slots and its customers' stamps. Whatever reservations follow any state of a run, the slots of a bot stay within
  the cap in every window if and only if its list is never forgotten while a slot that was admitted and not given
  back is younger than the window (`Escalations.EscalationsAreCapped`). `ForgettingLetsSixtyMoreThrough`,
  `ForgettingLetsOneThrough`.
- *The customer's two minutes*, for both reasons. In every state of a run the stamps turn down whatever request
  would come too soon after one that went out, if and only if no slot is given back while another request of its
  customer is open and younger than the interval, no stamp of such a customer is evicted from the full table, and
  no bot with such a customer is forgotten; then all requests that went out are the interval apart
  (`Escalations.IntervalHoldsExactly`). What the stamps let through too soon does go out, unless the bot's cap is
  reached at that moment (`Escalations.LetThroughBreaksApart`).
- *A short idle time* (`token-bucket.ts` 28-33). With an `idleMs` under 999 a drained key can be pruned and come
  back full; from 999 on, and so with the default of 60 000, the rate holds. `Buckets.RateNeedsTheIdleTime`.

## Model

| member | source | states |
|---|---|---|
| MoveWorld.InvariantMeans | apps/orchestrator/src/services/instance-manager.ts:600-741 | of a bot that has been in service and is not lost the invariant says: its newest state is the volume on the row's host when no archive is recorded or the target is in service, else the volume on the old host |
| MoveWorld.OneHostRuns | apps/orchestrator/src/services/instance-manager.ts:600-741 | of every bot, in service or not, lost or not: at most the row's host runs it, and nothing of it lies on a host the row does not name |
| MoveWorld.FlippedKeeps | apps/orchestrator/src/storage/instance-repository.ts:427-457 | the compare-and-set flip keeps the invariant when the source is down, the target empty and the archive the source's present state |
| MoveWorld.MovedBackKeeps | apps/orchestrator/src/storage/instance-repository.ts:459-484 | the rollback keeps the invariant once the target's volume is gone |
| MoveWorld.FlipsTo | apps/orchestrator/src/storage/instance-repository.ts:427-457 | the flipped row, column by column |
| MoveWorld.MoveCompletedKeeps | apps/orchestrator/src/storage/instance-repository.ts:517-524 | promotion of a marked import keeps the invariant and the bookkeeping |
| MoveWorld.MoveCompletedLands | apps/orchestrator/src/storage/instance-repository.ts:517-524 | unless the target holds a backup, the state promoted is the newest and no older than the one left behind; the old host's container and volume are untouched in any case |
| MoveWorld.ImportMarkedKeeps | apps/orchestrator/src/storage/instance-repository.ts:508-515 | an import may be marked only when the target holds the newest state |
| MoveWorld.ImportKeeps | apps/orchestrator/src/services/instance-manager.ts:180-187 | a torn import is harmless in a never-started container whose import is not marked |
| MoveWorld.MoveClearedKeeps | apps/orchestrator/src/storage/instance-repository.ts:501-506 | forgetting the old host is safe once its volume is gone and no archive is recorded |
| MoveWorld.VolumeRemovedKeeps | apps/orchestrator/src/services/instance-manager.ts:1350-1354 | removing a volume keeps the invariant unless it is a finished import somebody may still boot or the copy of a rollback; if it is the bot itself, the loss is on record |
| MoveWorld.HaltedKeeps | apps/orchestrator/src/services/instance-manager.ts:638 | a stop keeps the invariant: what the container wrote until then counts as the bot's state where the bot is in service, and no recorded archive goes stale |
| MoveWorld.UploadKeeps | apps/orchestrator/src/services/instance-manager.ts:639-646 | an export, whole or torn, keeps the invariant |
| MoveWorld.FailedBootMayBeErased | apps/orchestrator/src/services/instance-manager.ts:223-228 | once the row says error, what a failed boot left may be erased: before a promotion the bot is elsewhere, after one it is exactly what would be erased |
| MoveWorld.CleanupAfterPromotionLosesTheBot | apps/orchestrator/src/services/instance-manager.ts:208-228 | in every world of a promoted bot the cleanup of a failure removes the only copy of its newest state |
| MoveWorld.ErasingBeforeTheErrorWriteIsUnsafe | apps/orchestrator/src/services/instance-manager.ts:225-228 | with the cleanup before the status write, a crash in between leaves a marked import over nothing, and the next resume promotes an empty volume and loses the bot |
| MoveWorld.MoveCompletedLoses | apps/orchestrator/src/storage/instance-repository.ts:517-524 | a promotion loses a bot in service if and only if the target holds a backup in place of its state |
| MoveWorld.RollbackLosesTheServedTarget | apps/orchestrator/src/services/instance-manager.ts:716-741 | in every world where the target has served, a rollback that passes its guard destroys the newest state; what is left is the copy from before the move |
| MoveWorld.LiveBotIsMoved | apps/orchestrator/src/services/instance-manager.ts:636-687 | the calls of a first boot and of a move, one by one, take a new bot into service and on to a marked import on the target |
| MoveWorld.OwnerStartsMidMove | apps/orchestrator/src/services/instance-manager.ts:264-291 | a start in that world puts the bot in service on the target with the archive recorded: the invariant holds, the move bookkeeping does not |
| MoveWorld.ServingBotLosesItsContainer | apps/orchestrator/src/services/instance-manager.ts:362-377 | an image rollout and a rebuild that fails after the removal leave the served state on the target with no container and the row in error |
| MoveWorld.StartMidMoveThenRollbackLosesTheBot | apps/orchestrator/src/services/instance-manager.ts:716-741 | there the rollback passes its guard and the bot is back on the state from before the move |
| MoveWorld.RebuiltBotGoesLive | apps/orchestrator/src/services/instance-manager.ts:392-426 | a failed first provisioning and a rebuild by hand bring a bot into service with its backup import still pending |
| MoveWorld.PendingBackupReplacesMovedState | apps/orchestrator/src/services/instance-manager.ts:190-193 | the run from a new bot on: rebuilt, in service with the import pending, moved, restored over, promoted, lost |
| MoveWorld.UnrecordedMoveLeavesTheRowStopped | apps/orchestrator/src/services/instance-manager.ts:630-634 | a bot in service whose move.started append fails is left with its row stopped and its container running |
| MoveManager.Fleet.constructor | apps/orchestrator/src/services/instance-manager.ts:129-157 | a new row starts sound |
| MoveManager.Fleet.Attempt | apps/orchestrator/src/services/instance-manager.ts:650 | an external call succeeds, fails without effect, takes effect without an acknowledgement, or ends the process; every world it passes is recorded, every failure counted, and in a calm world it succeeds |
| MoveManager.Fleet.RemoveBotFromHost | apps/orchestrator/src/services/instance-manager.ts:1350-1354 | container then volume of one host, nothing on the others |
| MoveManager.Fleet.UpdateStatus | apps/orchestrator/src/storage/instance-repository.ts:290-316 | a guarded status write: applied only on the expected status |
| MoveManager.Fleet.FindOrCreateContainer | apps/orchestrator/src/services/instance-manager.ts:1167-1190 | a container of the current image on the row's host; one that is there on that image is kept untouched; nothing elsewhere and nothing of the row changes |
| MoveManager.Fleet.ImportMoved | apps/orchestrator/src/services/instance-manager.ts:180-187 | the import is marked only after a whole one into a never-started container; the move on record stays the same |
| MoveManager.Fleet.RestoreMovedVolume | apps/orchestrator/src/services/instance-manager.ts:1258-1272 | on success the target's volume is the archive's content |
| MoveManager.Fleet.RestoreAgentBackup | apps/orchestrator/src/services/instance-manager.ts:1198-1256 | on success the volume is the backup and no import is pending; the containers and the move on record stay as they were |
| MoveManager.Fleet.FillVolume | apps/orchestrator/src/services/instance-manager.ts:180-193 | on success a recorded move's import is marked, no backup is pending, and the volume of a bot in service is a backup if and only if one was ahead of it |
| MoveManager.Fleet.EnsureContainerStarted | apps/orchestrator/src/services/instance-manager.ts:1192-1196 | on success the row's container runs; the row is as it was |
| MoveManager.Fleet.CompleteMove | apps/orchestrator/src/storage/instance-repository.ts:517-524 | the row is as it was or has landed on the target with the old host's copy untouched, also when the acknowledgement is lost; landing loses the bot exactly when the target holds a backup |
| MoveManager.Fleet.Provision | apps/orchestrator/src/services/instance-manager.ts:171-222 | the try block: every world sound; until the promotion nothing is lost; a promotion loses the bot if and only if a backup was ahead of it |
| MoveManager.Fleet.Promote | apps/orchestrator/src/services/instance-manager.ts:200-221 | the promotion and after: the landed row, the loss exactly, and with no failing call the archive is gone |
| MoveManager.Fleet.GiveUpBoot | apps/orchestrator/src/services/instance-manager.ts:223-234 | the catch block: with no further failure the row says error and nothing is left on its host; before a promotion nothing is lost by it |
| MoveManager.Fleet.CleanupPartial | apps/orchestrator/src/services/instance-manager.ts:1341-1348 | leaves the row and the rollback copy alone; the bot is lost if and only if its volume was the one on this host and is gone |
| MoveManager.Fleet.ResumeProvisioningLocked | apps/orchestrator/src/services/instance-manager.ts:164-234 | every world sound; a loss needs a failure after the promotion or a backup ahead; on success, and after such a failure, exactly when the bot is lost; if one call failed, nothing happened or the row says error and its host is empty; the archive goes on success and only that one ever does |
| MoveManager.Fleet.PrepareTarget | apps/orchestrator/src/services/instance-manager.ts:701-713 | on success the target holds no volume, and what was removed there was a stale copy |
| MoveManager.Fleet.ExportSource | apps/orchestrator/src/services/instance-manager.ts:636-647 | on success the source is down and the archive, while it exists, is its newest state |
| MoveManager.Fleet.FlipToHost | apps/orchestrator/src/services/instance-manager.ts:744-767 | the world is as it was or flipped once, over all retries and lost acknowledgements; on success it is flipped |
| MoveManager.Fleet.ResumeSource | apps/orchestrator/src/services/instance-manager.ts:770-775 | on success a bot that was up runs again on its own host, and one that was stopped is untouched |
| MoveManager.Fleet.MoveBackLocked | apps/orchestrator/src/services/instance-manager.ts:716-741 | on success the row is back on the host with the retained volume and the target holds nothing, and a bot in service is lost if and only if the target had served; a target with a started container is refused untouched |
| MoveManager.Fleet.Undo | apps/orchestrator/src/services/instance-manager.ts:649-673 | never touches a row that has left its host; on an unmoved row, if none of its own calls fails, the archive is deleted and the bot is back: running with its row on running if it was up, stopped if it was stopped |
| MoveManager.Fleet.TryMove | apps/orchestrator/src/services/instance-manager.ts:636-674 | the try block with its catch: if only one call failed and the row kept its host, the bot is back in place and the archives are as before; if it ends, the row is the flipped one column by column |
| MoveManager.Fleet.RetireSource | apps/orchestrator/src/services/instance-manager.ts:684-686 | the old container goes, best effort; the volume on the source stays the newest state and the import can still be made |
| MoveManager.Fleet.FinishMove | apps/orchestrator/src/services/instance-manager.ts:684-698 | on success the bot is in service on the target as it was on the source, with its newest state there and the flip's state kept on the source, unless a backup was ahead; the losses exactly |
| MoveManager.Fleet.MoveForward | apps/orchestrator/src/services/instance-manager.ts:623-699 | a finished move has the newest state in service on the target since then, the flip's state retained on the source without a container, and no archive left; a bot moved while stopped is not booted there; it loses a bot in service if and only if its backup import was pending; a dry run loses nothing and leaves the bot as it was; if one call failed and the row kept its host, the bot is back as it was or was not touched; with no failing call a move whose source is ready finishes |
| MoveManager.Fleet.MoveLocked | apps/orchestrator/src/services/instance-manager.ts:600-699 | the same with all guards, in either direction: a refused move changes nothing, one that stops has a failed call behind it; whatever fails, a loss needs a failure after a promotion, a pending backup, or a target that has served |
| MoveManager.Fleet.RecreateContainer | apps/orchestrator/src/services/instance-manager.ts:429-444 | on success a container on the row's host; the move on record, the volumes of a rollback and the import mark stay as they were |
| MoveManager.Fleet.ContainerForBoot | apps/orchestrator/src/services/instance-manager.ts:362-377 | the same: a container on the current image is kept with its volume untouched, any other is rebuilt |
| MoveManager.Fleet.RecreateLocked | apps/orchestrator/src/services/instance-manager.ts:392-426 | refuses a row with a recorded archive, or in no status it may be rebuilt from, and leaves it untouched; else puts the bot in service where it stands, on the current image; after one failed call nothing has changed, or the row says stopped if a container is there and error if not |
| MoveManager.Fleet.StartLocked | apps/orchestrator/src/services/instance-manager.ts:264-291 | keeps every world sound and loses nothing; breaks the move bookkeeping exactly when an archive is recorded; a container on the current image is the one that runs afterwards; after one failed call the row says what it said, or running |
| MoveManager.Fleet.RestartLocked | apps/orchestrator/src/services/instance-manager.ts:304-358 | a restart, also one that rebuilds the container, keeps every world sound, loses nothing and leaves the rollback copy alone; on success the bot runs, in the same container if its image was current, and what it had in hand is on its volume; on failure the row says error or, for the monitor, what it said |
| MoveManager.Fleet.StopLocked | apps/orchestrator/src/services/instance-manager.ts:510-533 | every world sound, the rollback copy untouched; on success the row is stopped and nothing runs; a bot that is not up or has no container id is refused untouched; after one failed call the row says what it said, or only the write of stopped has happened |
| MoveManager.Fleet.DestroyLocked | apps/orchestrator/src/services/instance-manager.ts:540-592 | on success nothing is left on the row's host; the rollback copy is the sweeper's; a bot in any other status is refused untouched |
| MoveManager.Fleet.PurgeMovedSourceLocked | apps/orchestrator/src/services/instance-manager.ts:1291-1308 | does nothing unless the copy is past retention, on another host, and of a destroyed bot or a finished move; touches only that host; due and with no failing call, the copy, its container, its archive and the record of it are gone |
| MoveManager.Fleet.ObserveHealth | apps/orchestrator/src/storage/instance-repository.ts:318-340 | health writes keep every world sound; a bot in service takes the status reported, any other row keeps its own |
| MoveManager.Fleet.Readopt | apps/orchestrator/src/services/reconciler.ts:163-184 | starting what a host restart stopped keeps every world sound; on success the container of a bot whose row says it is up runs |
| MoveManager.Fleet.Operate | apps/orchestrator/src/services/instance-manager.ts:164-741 | any number of operations with any faults, the bot serving in between: every world is sound and the newest state never falls back; with no failure after a promotion, no start in the middle of a move and no backup ahead of a bot in service nothing is ever lost: in every world a bot that has been in service holds its newest state; the bookkeeping holds unless a row was started mid-move |
| MoveManager.Fleet.Round | apps/orchestrator/src/services/instance-manager.ts:164-741 | one operation of any kind loses a bot only by failing late, with a target that has served, or with a backup ahead |
| PollProofs.StartsFollowAcceptance | packages/openclaw-channel-whatsapp-cloud/poll-loop.js:69-146 | for every run the handlers of one customer start in the order of acceptance |
| PollProofs.OneHandlerPerMessage | packages/openclaw-channel-whatsapp-cloud/poll-loop.js:116-188 | while no turn of it was abandoned a message has one handler, is in flight, and a redelivery of it is ignored |
| PollProofs.RecentlyCompletedIsOnlyAcked | packages/openclaw-channel-whatsapp-cloud/poll-loop.js:116-131 | a message among the last 500 completed is acked again and not run |
| PollProofs.AcksFollowTurns | packages/openclaw-channel-whatsapp-cloud/poll-loop.js:148-186 | an acked message has completed a turn |
| PollProofs.LanesAreBounded | packages/openclaw-channel-whatsapp-cloud/poll-loop.js:132-146 | never more than maxInFlight lanes; messages are pending only while every lane is taken and no pull is out |
| PollProofs.RoomMeansNothingPending | packages/openclaw-channel-whatsapp-cloud/poll-loop.js:197-207 | a pull is sent only with nothing pending |
| PollProofs.DrainKeepsLines | packages/openclaw-channel-whatsapp-cloud/poll-loop.js:142-146 | filling lanes reorders no customer's line |
| PollProofs.DrainFillsRoom | packages/openclaw-channel-whatsapp-cloud/poll-loop.js:142-146 | after draining, messages are pending only if every lane is taken |
| PollProofs.EnqueueLines | packages/openclaw-channel-whatsapp-cloud/poll-loop.js:116-131 | an accepted message joins the end of its customer's line, the others keep theirs |
| PollProofs.TurnStartsInOrder | packages/openclaw-channel-whatsapp-cloud/poll-loop.js:148-160 | a turn that starts or is skipped leaves every customer's starts and line in order |
| PollProofs.RememberKeepsRecent | packages/openclaw-channel-whatsapp-cloud/poll-loop.js:209-215 | the dedupe list stays the tail of what completed, at most 500 long |
| PollProofs.DropPendingForm | packages/openclaw-channel-whatsapp-cloud/poll-loop.js:61-67 | a stop releases exactly what was pending |
| PollProofs.EnqueueAllKeeps | packages/openclaw-channel-whatsapp-cloud/poll-loop.js:69-105 | a whole batch, taken in one stretch, keeps the invariant (what it takes, and in which order, is `PollBatches.BatchIsTaken`) |
| PollProofs.StepKeeps | packages/openclaw-channel-whatsapp-cloud/poll-loop.js:52-215 | every step keeps order, single ownership of a message, and the dedupe list |
| PollProofs.StepKeepsHistory | packages/openclaw-channel-whatsapp-cloud/poll-loop.js:209-215 | what completed stays completed |
| PollProofs.RunKeeps | packages/openclaw-channel-whatsapp-cloud/poll-loop.js:52-215 | so does every run |
| PollBatches.BatchIsTaken | packages/openclaw-channel-whatsapp-cloud/poll-loop.js:85-131 | of a batch that returns to the run that asked for it: accepted grows by exactly its messages that were neither remembered nor in flight, the first of each wamid, in batch order; every other one is acked again or was in flight; no handler starts or ends |
| PollBatches.EnqueueAllTakes | packages/openclaw-channel-whatsapp-cloud/poll-loop.js:102-131 | the same of the batch taken front to back |
| PollBatches.BatchJoinsLines | packages/openclaw-channel-whatsapp-cloud/poll-loop.js:116-146 | each customer's line gets exactly that customer's new messages, in batch order, at its end |
| PollBatches.ReturnedBatchIsTaken | packages/openclaw-channel-whatsapp-cloud/poll-loop.js:85-131 | both, of the return of a pull |
| PollBatches.TicketsFollowBatch | packages/openclaw-channel-whatsapp-cloud/poll-loop.js:116-131 | two new messages of a batch are accepted at places in the order of the batch |
| PollBatches.BatchStartsInOrder | packages/openclaw-channel-whatsapp-cloud/poll-loop.js:85-160 | over every run: of two new messages of one customer in one batch the earlier one's handler starts first |
| PollBatches.StepKeepsAccepted | packages/openclaw-channel-whatsapp-cloud/poll-loop.js:52-215 | no step forgets or reorders what was accepted |
| PollBatches.AdvanceMovesOn | packages/openclaw-channel-whatsapp-cloud/poll-loop.js:132-146 | a settled lane with more messages goes on with the next one, and no line changes |
| PollBatches.LongestWaitingGoFirst | packages/openclaw-channel-whatsapp-cloud/poll-loop.js:142-146 | messages that wait for a lane get one in the order they began to wait, and no lane is taken away for it |
| PollBatches.HoldIsKept | packages/openclaw-channel-whatsapp-cloud/poll-loop.js:148-188 | a customer whose turn failed stays held, and no handler of theirs starts, through every step but the return of the failed message, its late success, or a start after the hold is over |
| PollBatches.NothingStartsBehindAFailure | packages/openclaw-channel-whatsapp-cloud/poll-loop.js:148-168 | over every run: after a turn that failed or timed out no handler of that customer starts before one of these happens |
| PollLoop.PollLoop.Start | packages/openclaw-channel-whatsapp-cloud/poll-loop.js:52-60 | the start step of the specification: only a stopped loop starts |
| PollLoop.PollLoop.Stop | packages/openclaw-channel-whatsapp-cloud/poll-loop.js:61-67 | the stop step: pending released, unacked |
| PollLoop.PollLoop.BeginPull | packages/openclaw-channel-whatsapp-cloud/poll-loop.js:69-85 | a pull is sent only with a free lane and nothing pending |
| PollLoop.PollLoop.ReceivePull | packages/openclaw-channel-whatsapp-cloud/poll-loop.js:85-105 | ignored after a stop; else exactly the batch's messages that were neither remembered nor in flight, the first of each wamid, are accepted in the order of the batch, each behind its customer's line; remembered ones are acked again, the rest were in flight |
| PollLoop.PollLoop.EnqueueItem | packages/openclaw-channel-whatsapp-cloud/poll-loop.js:116-131 | the enqueue step: acked if completed lately, ignored if in flight, else accepted at the end of its customer's line |
| PollLoop.PollLoop.DrainPending | packages/openclaw-channel-whatsapp-cloud/poll-loop.js:142-146 | the drain step: waiting messages take free lanes in order |
| PollLoop.PollLoop.BeginTurn | packages/openclaw-channel-whatsapp-cloud/poll-loop.js:148-160 | within the hold of a failed message the customer's head is skipped and released unacked; else its handler starts, and an old hold is forgotten |
| PollLoop.PollLoop.CompleteTurn | packages/openclaw-channel-whatsapp-cloud/poll-loop.js:148-168 | remembered, released, acked, in that order |
| PollLoop.PollLoop.FailTurn | packages/openclaw-channel-whatsapp-cloud/poll-loop.js:148-168 | a failed turn is released unacked, a timed-out one stays in flight; both hold the lane from this moment for this message; nothing is acked or remembered |
| PollLoop.PollLoop.SettleLane | packages/openclaw-channel-whatsapp-cloud/poll-loop.js:132-146 | the lane moves on or goes, and a waiting message takes its place |
| PollLoop.PollLoop.FinishLate | packages/openclaw-channel-whatsapp-cloud/poll-loop.js:170-187 | a late success is acked and lifts the hold it caused |
| PollLoop.PollLoop.AbandonLate | packages/openclaw-channel-whatsapp-cloud/poll-loop.js:170-187 | after a second timeout the message is released for redelivery |
| DispatchProofs.EveryPollIsAnsweredOnce | apps/orchestrator/src/services/whatsapp-cloud/inbox-dispatcher.ts:64-101 | in every run a poll is answered exactly when it no longer waits |
| DispatchProofs.AnswersAreFinal | apps/orchestrator/src/services/whatsapp-cloud/inbox-dispatcher.ts:178-206 | no step changes or repeats an answer |
| DispatchProofs.LeaseReachesOnePoll | apps/orchestrator/src/services/whatsapp-cloud/inbox-dispatcher.ts:127-192 | one lease of a row reaches at most one poll, and at most once |
| DispatchProofs.QueuedBatchesAreFresh | apps/orchestrator/src/services/whatsapp-cloud/inbox-dispatcher.ts:84-92 | each lease in an answer out of the queue was taken by a query that began less than a lease before the answer |
| DispatchProofs.StepKeepsClocks | apps/orchestrator/src/services/whatsapp-cloud/inbox-dispatcher.ts:127-192 | every step keeps a queued batch's stamp no later than the start of any query its leases came from |
| DispatchProofs.NobodyWaitsBesideABatch | apps/orchestrator/src/services/whatsapp-cloud/inbox-dispatcher.ts:84-147 | no bot waits, or is asked for, while a batch is queued for it, so no two leases are merged |
| DispatchProofs.WokenPollIsAskedFor | apps/orchestrator/src/services/whatsapp-cloud/inbox-dispatcher.ts:118-147 | a poll woken during a query is, when that query ends or fails, answered or asked for by a query that begins there |
| DispatchProofs.HandsOutAllKeeps | apps/orchestrator/src/services/whatsapp-cloud/inbox-dispatcher.ts:136-139 | handing out a query's groups puts each row in one place at most (that each reaches its bot is `HandOuts.QueryReaches`) |
| DispatchProofs.QueuedBatchMoves | apps/orchestrator/src/services/whatsapp-cloud/inbox-dispatcher.ts:86-91 | a queued batch leaves the queue with the poll that takes it |
| DispatchProofs.TicksKeeps | apps/orchestrator/src/services/whatsapp-cloud/inbox-dispatcher.ts:127-134 | a query asks for every poll that is owed one |
| DispatchProofs.StepKeeps | apps/orchestrator/src/services/whatsapp-cloud/inbox-dispatcher.ts:57-206 | every step keeps single answers, single places, fresh queues and kept wakes |
| DispatchProofs.RunKeeps | apps/orchestrator/src/services/whatsapp-cloud/inbox-dispatcher.ts:57-206 | so does every run |
| HandOuts.LeasedRowsReachTheirBots | apps/orchestrator/src/services/whatsapp-cloud/inbox-dispatcher.ts:135-147 | in every run and for each group of a query that returns: the poll that waited is answered with exactly the group's rows, in their order, or they are the bot's queued batch under the query's clock; nobody else is touched |
| HandOuts.QueryReaches | apps/orchestrator/src/services/whatsapp-cloud/inbox-dispatcher.ts:178-192 | the same in every state the invariant allows |
| Dispatcher.InboxDispatcher.Resolve | apps/orchestrator/src/services/whatsapp-cloud/inbox-dispatcher.ts:93-100 | a promise is settled only while it is open |
| Dispatcher.InboxDispatcher.Start | apps/orchestrator/src/services/whatsapp-cloud/inbox-dispatcher.ts:57-62 | the start step, which lets polls wait again |
| Dispatcher.InboxDispatcher.Stop | apps/orchestrator/src/services/whatsapp-cloud/inbox-dispatcher.ts:64-81 | the stop step: every waiting poll is answered empty |
| Dispatcher.InboxDispatcher.Wait | apps/orchestrator/src/services/whatsapp-cloud/inbox-dispatcher.ts:84-101 | the wait step: queued batch, replacement, or a new wait |
| Dispatcher.InboxDispatcher.TakeOver | apps/orchestrator/src/services/whatsapp-cloud/inbox-dispatcher.ts:93-101 | a new poll of a bot takes the place of the one that waits, which is answered empty |
| Dispatcher.InboxDispatcher.TimeOut | apps/orchestrator/src/services/whatsapp-cloud/inbox-dispatcher.ts:95-98 | ends only the poll whose timer it is |
| Dispatcher.InboxDispatcher.Wake | apps/orchestrator/src/services/whatsapp-cloud/inbox-dispatcher.ts:118-125 | the wake step: a query at once, or a note for the end of the one in flight |
| Dispatcher.InboxDispatcher.Tick | apps/orchestrator/src/services/whatsapp-cloud/inbox-dispatcher.ts:127-134 | the interval's query |
| Dispatcher.InboxDispatcher.HandOut | apps/orchestrator/src/services/whatsapp-cloud/inbox-dispatcher.ts:178-192 | the hand-out step: to the poll that waits, else into the queue under the older clock |
| Dispatcher.InboxDispatcher.EndQuery | apps/orchestrator/src/services/whatsapp-cloud/inbox-dispatcher.ts:135-147 | each group's rows, in their order and as leases of this query, answer the poll its bot waited with, or else are the bot's queued batch; bots without a group keep their poll and their batch; then the woken bots are asked for |
| Dispatcher.InboxDispatcher.FailQuery | apps/orchestrator/src/services/whatsapp-cloud/inbox-dispatcher.ts:139-147 | a failed query still asks for the woken |
| Dispatcher.InboxDispatcher.ForgetStaleQueued | apps/orchestrator/src/services/whatsapp-cloud/inbox-dispatcher.ts:194-198 | drops exactly the batches past their lease |
| Inbox.OldestFirst | apps/orchestrator/src/storage/whatsapp-cloud-repository.ts:190-208 | a message sent earlier, or at the same time and stored earlier, is taken whenever a later one of its bot is |
| Inbox.LimitHolds | apps/orchestrator/src/storage/whatsapp-cloud-repository.ts:190-208 | one query takes at most the limit for a bot |
| Inbox.OldestIsPicked | apps/orchestrator/src/storage/whatsapp-cloud-repository.ts:190-208 | of a bot asked for, the leasable row sent first, and of those sent together the one stored first, is taken |
| Inbox.PickedAreOldest | apps/orchestrator/src/storage/whatsapp-cloud-repository.ts:190-226 | what one lease statement takes, by the columns of the rows: oldest first, at most the limit for each bot, and all of them unless the limit is reached |
| Inbox.LeftBehindMeansFull | apps/orchestrator/src/storage/whatsapp-cloud-repository.ts:190-208 | a leasable row of a bot asked for is left behind only when the limit is used up by rows before it |
| Inbox.LeasedIsNotPicked | apps/orchestrator/src/storage/whatsapp-cloud-repository.ts:190-213 | until its lease ends a row is in no other batch |
| Inbox.AckIsOnce | apps/orchestrator/src/storage/whatsapp-cloud-repository.ts:229-243 | an ack changes exactly the bot's own unacked rows among the ids; repeated at any time it changes nothing, and what it acked is neither leased nor aged out |
| Grouping.LeasedRowsAreReturned | apps/orchestrator/src/services/whatsapp-cloud/inbox-dispatcher.ts:136-138 | the rows of a lease statement, grouped, are what the dispatcher may hand out: one group a bot asked for, each row once |
| Grouping.GroupsAreTheBotsRows | apps/orchestrator/src/services/whatsapp-cloud/inbox-dispatcher.ts:209-215 | a bot's group has exactly its rows, in delivery order |
| Grouping.GroupsKeepTheOrder | apps/orchestrator/src/services/whatsapp-cloud/inbox-dispatcher.ts:209-215 | two rows of a bot are in its group in the order they were leased in |
| WhatsappStore.Store.LeasePending | apps/orchestrator/src/storage/whatsapp-cloud-repository.ts:190-226 | of each bot asked for the free rows with the smallest timestamps, then the smallest ids, are leased until there are no more or the limit is reached; unreadable ones among them are dropped; the rest are returned once each, by increasing timestamp, then id; no other row changes |
| WhatsappStore.Store.InDeliveryOrder | apps/orchestrator/src/storage/whatsapp-cloud-repository.ts:382-388 | the rows of a batch, each once, with timestamps that never fall and ids that rise among equal ones |
| WhatsappStore.Store.Acknowledge | apps/orchestrator/src/storage/whatsapp-cloud-repository.ts:229-243 | each of the bot's own unacked rows among the ids gets its stamp and loses payload and lease; every other row stays as it is; the count is the number of rows changed |
| WhatsappStore.Store.Sweep | apps/orchestrator/src/storage/whatsapp-cloud-repository.ts:246-289 | drops exactly the open rows received more than seven days ago, deletes exactly those acked or dropped more than eight days ago, forgets exactly the conversations idle past the retention |
| WhatsappStore.Store.Enqueue | apps/web/src/lib/whatsapp-cloud/repository.ts:73-112 | a known wamid writes nothing; a new message inserts its row and touches its conversation |
| WhatsappStore.Store.HoldIn | apps/orchestrator/src/storage/whatsapp-cloud-repository.ts:432-463 | the hold step, and true exactly when it took the customer from the bot |
| WhatsappStore.Store.ApplyOwnerEchoes | apps/orchestrator/src/storage/whatsapp-cloud-repository.ts:319-343 | each customer's row is their replies applied in batch order, and every reply of the batch that counts holds the customer until holdMs after it; the rows are acked, and the result names each customer handed over once |
| WhatsappStore.Store.SetMode | apps/orchestrator/src/storage/whatsapp-cloud-repository.ts:346-355 | the choice step: from then on the answer is the mode, at any time |
| WhatsappStore.Store.TouchOutbound | apps/orchestrator/src/storage/whatsapp-cloud-repository.ts:303-311 | a send keeps who answers |
| WhatsappStore.Store.PurgeInstance | apps/orchestrator/src/storage/whatsapp-cloud-repository.ts:362-368 | all of one bot's rows go, no other bot's |
| WhatsappStore.SortKeepsCustomers | apps/orchestrator/src/storage/whatsapp-cloud-repository.ts:324-326 | the shared lock order reorders no customer's replies |
| WhatsappStore.SortIsSorted | apps/orchestrator/src/storage/whatsapp-cloud-repository.ts:324-326 | every batch takes its rows in one order |
| WhatsappStore.ReportedExtends | apps/orchestrator/src/storage/whatsapp-cloud-repository.ts:325-327 | a customer is reported when a reply took them from the bot, once |
| WhatsappStore.EveryReplyHolds | apps/orchestrator/src/storage/whatsapp-cloud-repository.ts:432-463 | after a batch of replies the customer is held at least until holdMs after each reply of theirs that counts; if none counts the row is as it was |
| Delivery.NoSilentLoss | apps/orchestrator/src/storage/whatsapp-cloud-repository.ts:190-291 | in every run a message inserted is still open with its payload, or its turn completed, or it was aged out, unreadable, applied or purged, each with its reason |
| Delivery.AckedMeansCompleted | packages/openclaw-channel-whatsapp-cloud/poll-loop.js:148-186 | a customer message acked in the table has completed a turn |
| Delivery.OpenIsHandedOutAgain | apps/orchestrator/src/storage/whatsapp-cloud-repository.ts:190-213 | an open message is leased to its plugin again by the next query after its lease ended, behind at most a batch of older ones |
| Delivery.WhatAQueryTakesSetsOut | apps/orchestrator/src/storage/whatsapp-cloud-repository.ts:190-226 | a query takes the oldest free rows of the bots it asks for, and every message among them is on its way |
| Delivery.UnhinderedMessageIsAcked | packages/openclaw-channel-whatsapp-cloud/poll-loop.js:85-168 | a message that comes to a pulling loop with room, its customer having no other under way, is accepted, started, completed and acked, and the ack closes its row and no other |
| Delivery.AckedIsGenuine | packages/openclaw-channel-whatsapp-cloud/poll-loop.js:116-186 | an ack on its way is of a row that was leased to that bot and whose turn completed |
| Delivery.RestartKeeps | packages/openclaw-channel-whatsapp-cloud/poll-loop.js:22-60 | a container restart loses nothing that was completed or acked |
| Delivery.RetireKeeps | apps/orchestrator/src/storage/whatsapp-cloud-repository.ts:261-269 | only rows already acked or dropped are deleted |
| Delivery.StepCarries | packages/openclaw-channel-whatsapp-cloud/poll-loop.js:116-187 | a loop holds and acks only what was delivered to it |
| Delivery.StepKeeps | apps/orchestrator/src/storage/whatsapp-cloud-repository.ts:190-291 | every step of store, network and loops keeps the account of every message |
| Delivery.RunKeeps | apps/orchestrator/src/storage/whatsapp-cloud-repository.ts:190-291 | so does every run |
| ReplyProofs.RepliesAreConserved | packages/openclaw-channel-whatsapp-cloud/reply-queue.js:14-31 | over every interleaving of turns, sends and failures, what the relay accepted followed by what is queued is what the model produced, in order |
| ReplyProofs.CompletedMeansDelivered | packages/openclaw-channel-whatsapp-cloud/inbound-turn.js:13-55 | in every interleaving a turn completes only with nothing queued, and then everything produced was accepted |
| ReplyProofs.NotAskedWhileQueued | packages/openclaw-channel-whatsapp-cloud/inbound-turn.js:16-17 | in every interleaving the model is asked only while nothing of the message is queued or on its way |
| ReplyProofs.NothingEvictedWithinTheLimit | packages/openclaw-channel-whatsapp-cloud/reply-queue.js:14-20 | over every run nothing is let go if and only if, whenever a new message was added, fewer than the limit were tracked |
| ReplyProofs.NothingRejected | packages/openclaw-channel-whatsapp-cloud/inbound-turn.js:73-81 | a run in which the relay refuses nothing for good loses nothing |
| ReplyProofs.StepRejectsExactly | packages/openclaw-channel-whatsapp-cloud/inbound-turn.js:73-81 | a message counts as rejected exactly by a refusal for good of a send of it that is under way |
| ReplyProofs.StepKeeps | packages/openclaw-channel-whatsapp-cloud/inbound-turn.js:13-81 | every single step of any turn keeps what is conserved, also while other messages are added and evicted |
| ReplyProofs.TurnIsItsSteps | packages/openclaw-channel-whatsapp-cloud/inbound-turn.js:13-55 | a turn taken whole is the run of its single steps with nobody in between, and completes when they do |
| ReplyProofs.FlushKeeps | packages/openclaw-channel-whatsapp-cloud/reply-queue.js:23-31 | a flush fails exactly when something stays queued, and conserves |
| ReplyProofs.TurnKeeps | packages/openclaw-channel-whatsapp-cloud/inbound-turn.js:13-81 | a turn taken whole conserves |
| Answers.AnswerIsQueued | packages/openclaw-channel-whatsapp-cloud/inbound-turn.js:29-55 | a turn that asks the model queues, for each payload with a text in order, each chunk of it once and in order, all to the customer who wrote, the first quoting the message exactly if the payload does; nothing of another message changes |
| Answers.AnswerReachesTheCustomer | packages/openclaw-channel-whatsapp-cloud/inbound-turn.js:29-55 | with a relay that accepts all, and a limit of at least one, all of it is accepted, nothing stays queued, and the turn completes unless the dispatch throws |
| Answers.AnswerOfShortText | packages/openclaw-channel-whatsapp-cloud/outbound-text.js:4-15 | a text within the limit that does not end in white space goes out as one send with that very text |
| Answers.FlushSendsInOrder | packages/openclaw-channel-whatsapp-cloud/reply-queue.js:23-31 | a flush sends a message's chunks from the first on, each once, and stops at the first the relay does not accept, which stays queued with the rest |
| Answers.RepliesFlushInOrder | packages/openclaw-channel-whatsapp-cloud/inbound-turn.js:73-81 | the same, a refusal for good dropping the rest; what stays queued is what may be sent again |
| Answers.LeftoversGoFirst | packages/openclaw-channel-whatsapp-cloud/inbound-turn.js:16-17 | a message with chunks left over is not answered anew: they are sent from the first on, and the turn completes exactly if none of them may be sent again |
| Answers.AddKeepsOthers | packages/openclaw-channel-whatsapp-cloud/reply-queue.js:14-20 | an addition puts the new chunks behind the message's own and changes those of no other message still tracked |
| Answers.EvictKeepsLast | packages/openclaw-channel-whatsapp-cloud/reply-queue.js:14-20 | an eviction never takes the message just added, unless nothing may be tracked at all |
| Replies.ReplyQueue.Add | packages/openclaw-channel-whatsapp-cloud/reply-queue.js:14-20 | the add step: appended and moved to the end, the least recently added evicted past the limit |
| Replies.ReplyQueue.Flush | packages/openclaw-channel-whatsapp-cloud/reply-queue.js:23-31 | the flush step: sent in order, the first failure keeps the rest |
| Replies.ReplyQueue.FlushReplies | packages/openclaw-channel-whatsapp-cloud/inbound-turn.js:73-81 | a rejection drops the rest of the message, a retryable failure keeps it |
| Replies.ReplyQueue.HandleInbound | packages/openclaw-channel-whatsapp-cloud/inbound-turn.js:13-55 | the turn step, with its branches for no text, queued chunks, a silent relay and a human; where the model is asked, what it wrote is queued in full and in order for the customer, and accepted in full by a relay that accepts all |
| Replies.ReplyQueue.AskModel | packages/openclaw-channel-whatsapp-cloud/inbound-turn.js:29-55 | the branch that asks the model: completed exactly if the dispatch does not throw and nothing stays queued |
| Conversation.WhoAnswers | apps/orchestrator/src/storage/whatsapp-cloud-repository.ts:319-368 | at any time after any run: the owner chose human since the last purge, or some reply applied since then and written after the last choice is younger than the hold |
| Conversation.RepliesConverge | apps/orchestrator/src/storage/whatsapp-cloud-repository.ts:432-463 | two runs with the same replies and last choice since their last purge agree on who answers, whatever the order, delay and repetition, raced or not |
| Conversation.HoldEndsAfterTheNewestReply | apps/orchestrator/src/storage/whatsapp-cloud-repository.ts:432-463 | the hold ends exactly holdMs after the newest reply since the choice |
| Conversation.NewestReplyHolds | apps/orchestrator/src/domain/whatsapp-cloud.ts:167-169 | with ties too: held exactly by the choice or by the newest counting reply |
| Conversation.TiesDependOnOrder | apps/orchestrator/src/storage/whatsapp-cloud-repository.ts:441 | two runs that differ only in a tie's order disagree, and only one of them is a tie that matters |
| Conversation.WhoAnswersExactly | apps/orchestrator/src/storage/whatsapp-cloud-repository.ts:432-463 | ties included: the answer is what choice and replies say if and only if no counting reply of the very millisecond of a choice of the bot still holds |
| Conversation.SweepForgetsOnlyIdleHumanChoices | apps/orchestrator/src/storage/whatsapp-cloud-repository.ts:270-272 | the idle sweep changes who answers if and only if the row is an idle open-ended human choice |
| Conversation.InTouchIsKept | apps/orchestrator/src/storage/whatsapp-cloud-repository.ts:270-272 | over every run: a customer in touch within the retention, and not purged since, is still remembered and survives a sweep |
| Conversation.IdleHumanChoiceIsForgotten | apps/orchestrator/src/storage/whatsapp-cloud-repository.ts:270-272 | a run in which a customer the owner took over for good is handed back by the sweep |
| Conversation.RacedReplyMerges | apps/orchestrator/src/storage/whatsapp-cloud-repository.ts:448-461 | the raced upsert answers as the locked one at all times if and only if the owner did not choose in between |
| Conversation.RacedReplyEndsAnOpenChoice | apps/orchestrator/src/storage/whatsapp-cloud-repository.ts:448-461 | a run in which the raced upsert gives an open-ended choice an end |
| Conversation.RacedKeeps | apps/orchestrator/src/storage/whatsapp-cloud-repository.ts:448-461 | a raced reply that merges leaves the row remembering exactly the last choice and the newest counting reply |
| Conversation.PurgeForgetsHolds | apps/orchestrator/src/storage/whatsapp-cloud-repository.ts:362-368 | a purge changes who answers if and only if the owner had chosen human or the newest counting reply still holds |
| Conversation.RunRemembers | apps/orchestrator/src/storage/whatsapp-cloud-repository.ts:432-463 | a row remembers exactly the last choice and the newest counting reply of its run |
| Conversation.ReplyKeepsRow | apps/orchestrator/src/storage/whatsapp-cloud-repository.ts:432-463 | a reply keeps what the row remembers, expired, overtaken or counting |
| Conversation.ChooseKeeps | apps/orchestrator/src/storage/whatsapp-cloud-repository.ts:346-355 | a choice makes all earlier replies not count |
| Conversation.SweepKeeps | apps/orchestrator/src/storage/whatsapp-cloud-repository.ts:270-272 | a row idle past the retention remembers no live reply |
| PlacementProofs.CapacityIsKept | apps/orchestrator/src/services/placement.ts:54-82 | as many choices in a row as capacity reported all find a host, whatever the bots and however the clock runs on |
| PlacementProofs.ChooseStaysInBudget | apps/orchestrator/src/services/placement.ts:54-71 | measured use and all live reservations, the new one included, stay within 0.9 of capacity less reserve on the chosen host, which is the first with the most headroom |
| PlacementProofs.ReservationHoldsRoom | apps/orchestrator/src/services/placement.ts:119-130 | a reservation counts in full on its host for thirty minutes, as long as its bot is not measured, and otherwise not at all |
| PlacementProofs.ChosenRoomIsHeld | apps/orchestrator/src/services/placement.ts:54-71 | after a choice the chosen host is charged exactly the bot's share for thirty minutes or until the bot is measured, on top of what was charged before; no other host is |
| PlacementProofs.TwoChoicesShareTheRoom | apps/orchestrator/src/services/placement.ts:54-71 | two bots put on one host within thirty minutes fit it together with what is measured there |
| PlacementProofs.BestIsBest | apps/orchestrator/src/services/placement.ts:61-67 | the most headroom, the first of equals; none if and only if none fits |
| PlacementProofs.BestLeavesMost | apps/orchestrator/src/services/placement.ts:61-67 | in whole megabytes: no open host has more left after this bot than the chosen one, and none before it has as much |
| PlacementProofs.TurnedAwayMeansFull | apps/orchestrator/src/services/placement.ts:99-117 | if no host is chosen, each active reachable host of known capacity would be over budget with this bot |
| PlacementProofs.ChoiceCostsOneSlot | apps/orchestrator/src/services/placement.ts:54-71 | a choice costs the fleet one slot at most |
| PlacementProofs.SlotMeansFit | apps/orchestrator/src/services/placement.ts:107-113 | while a slot is left some host fits |
| PlacementProofs.CapacityIsWithinSlots | apps/orchestrator/src/services/placement.ts:73-82 | the reported room, floored twice, never exceeds the slots there are |
| PlacementProofs.CapacityWithholdsNothing | apps/orchestrator/src/services/placement.ts:73-82 | the reported room is at least any numbers of bots that fit the single hosts |
| PlacementProofs.PrunedCountsTheSame | apps/orchestrator/src/services/placement.ts:119-130 | pruning drops nothing that counted |
| PlacementProofs.PrunedReservesNoMore | apps/orchestrator/src/services/placement.ts:119-130 | pruning keeps exactly the reservations no older than thirty minutes of bots not measured |
| PlacementProofs.ReserveAdds | apps/orchestrator/src/services/placement.ts:68 | a reservation adds itself to its own host only, and replaces the bot's earlier one |
| PlacementProofs.ReleaseFrees | apps/orchestrator/src/services/placement.ts:84-86 | a release takes exactly the bot's reservation |
| PlacementProofs.ReleaseKeepsTheOthers | apps/orchestrator/src/services/placement.ts:84-86 | a release keeps exactly the reservations of the other bots |
| PlacementProofs.PendingShrinks | apps/orchestrator/src/services/placement.ts:119-130 | with time reservations only run out |
| Placement.Placement.Choose | apps/orchestrator/src/services/placement.ts:54-71 | the choice, and the chosen host is not over budget after it |
| Placement.Placement.Pending | apps/orchestrator/src/services/placement.ts:119-130 | the sum for one host, and the prune of all |
| Placement.Placement.Capacity | apps/orchestrator/src/services/placement.ts:73-82 | the fleet's room |
| Placement.Placement.Release | apps/orchestrator/src/services/placement.ts:84-86 | the bot has no reservation afterwards |
| Placement.Placement.AssertFits | apps/orchestrator/src/services/placement.ts:89-97 | true exactly when a reachable host of known capacity has the bot's share free, draining or not |
| Ports.AllocatedPortIsOurs | apps/orchestrator/src/services/port-allocator.ts:17-30 | for every interleaving, a port handed out is held by nobody else, and a row has it if and only if that row passed through wholly within this read and still has it |
| Ports.AllocatedPortIsExclusive | apps/orchestrator/src/services/port-allocator.ts:17-30 | unless such a row passed, no row of the host has it |
| Ports.PassedPortIsHandedOutAgain | apps/orchestrator/src/services/instance-manager.ts:716-741 | a run in which a pass within one read is handed out again: the index refuses it to a live row, lets a row in error have it, and refuses to let that one leave error |
| Ports.PassedRowMayBeGone | apps/orchestrator/src/services/port-allocator.ts:17-30 | a run in which the row that passed is gone again and the port is free after all |
| Ports.Scan | apps/orchestrator/src/services/port-allocator.ts:22-29 | the lowest free port of the range, none if and only if none is free |
| Ports.StepKeeps | apps/orchestrator/src/services/instance-manager.ts:744-767 | every step keeps ports held once, rows indexed, and what each read can rely on |
| Ports.ReleaseKeeps | apps/orchestrator/src/services/port-allocator.ts:32-34 | a release leaves the port known to every read under way |
| Ports.PortAllocator.BeginAllocate | apps/orchestrator/src/services/port-allocator.ts:17-19 | what is held when the read begins |
| Ports.PortAllocator.FinishAllocate | apps/orchestrator/src/services/port-allocator.ts:22-29 | the lowest port free of rows, holders then and holders now, held from here on, other hosts untouched |
| Ports.PortAllocator.Release | apps/orchestrator/src/services/port-allocator.ts:32-34 | the port is let go on that host only |
| Locks.OneHolderInOrder | apps/orchestrator/src/services/instance-operation-lock.ts:8-23 | a run that has started means all who asked before are through: mutual exclusion and first-come order, thrown or not |
| Locks.HeldIsExact | apps/orchestrator/src/services/instance-operation-lock.ts:4-6 | isHeld exactly while someone holds or waits |
| Locks.SomeoneCanStep | apps/orchestrator/src/services/instance-manager.ts:595-598 | with channel locks before bot locks, while anyone holds or waits some run can start or finish |
| Locks.StartsInTurn | apps/orchestrator/src/services/instance-operation-lock.ts:9-16 | the chained promise settles if and only if everyone before is through |
| Locks.SettledMeansThrough | apps/orchestrator/src/services/instance-operation-lock.ts:9-14 | a settled chain has no open run below it |
| Locks.FinishesKeeps | apps/orchestrator/src/services/instance-operation-lock.ts:19-22 | the finally removes the map entry exactly when nobody came after |
| Locks.RunKeeps | apps/orchestrator/src/services/instance-operation-lock.ts:8-23 | chain and map are right in every run |
| Locks.InstanceOperationLock.Held | apps/orchestrator/src/services/instance-operation-lock.ts:4-6 | true exactly while someone holds or waits |
| Locks.InstanceOperationLock.Enter | apps/orchestrator/src/services/instance-operation-lock.ts:8-14 | chains onto the last who asked |
| Locks.InstanceOperationLock.Begin | apps/orchestrator/src/services/instance-operation-lock.ts:16 | starts with everyone before through |
| Locks.InstanceOperationLock.Leave | apps/orchestrator/src/services/instance-operation-lock.ts:19-22 | the next in line may start |
| Chunking.ChunkText | packages/openclaw-channel-whatsapp-cloud/outbound-text.js:4-15 | the chunks: none empty, none over the limit, well-formed if the text is, the text but for dropped white space, few |
| Chunking.TerminatesExactly | packages/openclaw-channel-whatsapp-cloud/outbound-text.js:4-15 | the loop ends if and only if the limit is two or more, or one with no high surrogate before the last unit, or zero on white space |
| Chunking.ChunksAreWoven | packages/openclaw-channel-whatsapp-cloud/outbound-text.js:4-15 | the chunks lie in the text in order and apart, with only white space between |
| Chunking.ChunksAreWellFormed | packages/openclaw-channel-whatsapp-cloud/outbound-text.js:22-25 | no chunk of well-formed UTF-16 has half a pair |
| Chunking.ChunksFit | packages/openclaw-channel-whatsapp-cloud/outbound-text.js:28-31 | every chunk has between one unit and the limit |
| Chunking.FewChunks | packages/openclaw-channel-whatsapp-cloud/outbound-text.js:33-39 | all chunks but one account for half a limit of text each |
| Chunking.ShortTextIsOneChunk | packages/openclaw-channel-whatsapp-cloud/outbound-text.js:4-15 | a text within the limit can be chunked, and is one chunk unless it ends in white space |
| Chunking.CutPrefersParagraphs | packages/openclaw-channel-whatsapp-cloud/outbound-text.js:33-39 | a cut follows the last place of the most preferred separator in the back half, else the window's end |
| Chunking.CutKeepsPairs | packages/openclaw-channel-whatsapp-cloud/outbound-text.js:22-25 | neither a window nor a cut ends inside a pair |
| Chunking.NextIsShorter | packages/openclaw-channel-whatsapp-cloud/outbound-text.js:7-12 | a round takes something, and leaves a text the loop can finish |
| Chunking.BestCut | packages/openclaw-channel-whatsapp-cloud/outbound-text.js:33-39 | the preferred cut of a window, found by trying the separators in turn |
| Chunking.TruncateUnits | packages/openclaw-channel-whatsapp-cloud/outbound-text.js:17-19 | a prefix within the limit, at most one unit short of it |
| Chunking.TruncationIsWellFormed | packages/openclaw-channel-whatsapp-cloud/outbound-text.js:17-25 | truncation splits no pair |
| SlidingBudget.SpacedMeansCapped | apps/orchestrator/src/services/auto-restarter.ts:90-95 | entries that span the window over every cap + 1 number at most the cap in any window |
| SlidingBudget.AppendKeepsSpaced | apps/orchestrator/src/services/auto-restarter.ts:90-99 | admitting with fewer than the cap in the window keeps the spacing |
| SlidingBudget.RecentIsTail | apps/orchestrator/src/services/auto-restarter.ts:91 | the filter keeps exactly the tail inside the window |
| Restarts.RestartsAreBudgeted | apps/orchestrator/src/services/auto-restarter.ts:78-130 | over every run, no window holds more than the budget and successive restarts are a cooldown apart |
| Restarts.RestartedExactly | apps/orchestrator/src/services/auto-restarter.ts:78-100 | over every run: a report restarts a bot if and only if none is under way, it is sampled down, as it was in at least the threshold's number of reports in a row, every restart is a cooldown ago, and the window has room |
| Restarts.TrackDecides | apps/orchestrator/src/services/auto-restarter.ts:78-100 | the same of one step on one bot's state |
| Restarts.TrackKeeps | apps/orchestrator/src/services/auto-restarter.ts:78-100 | a report keeps the account, and a restart is decided only within budget |
| Restarts.EndsKeeps | apps/orchestrator/src/services/auto-restarter.ts:102-130 | a restart that ends, however, keeps it |
| Restarts.AutoRestarter.DetectFleetOutage | apps/orchestrator/src/services/auto-restarter.ts:66-76 | three or more of the report's bots down, and more than half of it |
| Restarts.AutoRestarter.Observe | apps/orchestrator/src/services/auto-restarter.ts:55-59 | absent bots forgotten; in an outage nobody is tracked; else each bot's streak, cooldown and window decide as in `Restarts.TrackDecides`, on its own sample and nobody else's |
| Restarts.AutoRestarter.EndRestart | apps/orchestrator/src/services/auto-restarter.ts:102-130 | spends budget unless the skip was transient |
| Buckets.RateHoldsOverEveryInterval | apps/orchestrator/src/services/whatsapp-cloud/token-bucket.ts:13-26 | with an idleMs of 999 or more, over T ms a key is granted at most rate + rate * T / 1000 takes |
| Buckets.GrantedExactly | apps/orchestrator/src/services/whatsapp-cloud/token-bucket.ts:13-26 | over every run, with an idleMs of 999 or more: a call is granted if and only if, since each earlier call of its key, the grants and this one fit what a full bucket holds and what has flowed in |
| Buckets.RateNeedsTheIdleTime | apps/orchestrator/src/services/whatsapp-cloud/token-bucket.ts:28-33 | for every whole rate and every smaller idleMs, a run of a thousand keys that is granted more |
| Buckets.PruningIsUnobservable | apps/orchestrator/src/services/whatsapp-cloud/token-bucket.ts:28-33 | with an idleMs of 999 or more, pruned and never-pruned buckets answer alike |
| Buckets.OneCallMore | apps/orchestrator/src/services/whatsapp-cloud/token-bucket.ts:13-26 | what a call is granted its key has less, and no other key is touched |
| Buckets.IdleIsFull | apps/orchestrator/src/services/whatsapp-cloud/token-bucket.ts:28-33 | a second of rest fills a bucket |
| Buckets.TokenBuckets.TakeToken | apps/orchestrator/src/services/whatsapp-cloud/token-bucket.ts:13-26 | the take step: refilled, granted from one token up, pruned only after a grant |
| Buckets.TokenBuckets.Prune | apps/orchestrator/src/services/whatsapp-cloud/token-bucket.ts:28-33 | drops exactly the idle keys, from a thousand keys up |
| Escalations.EscalationsAreCapped | apps/orchestrator/src/services/whatsapp-cloud/manager.ts:555-580 | over every run: whatever reservations follow any of its states, the slots of a bot admitted and not given back never exceed the cap in any window, if and only if the bot is never forgotten while one of them is younger than the window |
| Escalations.AdmittedExactly | apps/orchestrator/src/services/whatsapp-cloud/manager.ts:555-569 | in every state of a run: a slot is given if and only if fewer than sixty of the bot's list are younger than a minute and, for a request, no stamp of the customer is younger than two |
| Escalations.IntervalHoldsExactly | apps/orchestrator/src/services/whatsapp-cloud/manager.ts:555-589 | over every run with forgetting: the stamps turn down, in each state, whatever would come too soon after an open request if and only if each event was timely; and then all open requests of a customer are an interval apart |
| Escalations.StepGuards | apps/orchestrator/src/services/whatsapp-cloud/manager.ts:555-589 | from a state that refuses in time the next one does too if and only if the event gives back no slot beside another young open request of its customer, evicts no such request's stamp and forgets no such request's bot |
| Escalations.GuardedIsRefusing | apps/orchestrator/src/services/whatsapp-cloud/manager.ts:566-567 | the table refuses in time exactly while each young open request is covered by its customer's stamp |
| Escalations.LateReleaseLetsOneThrough | apps/orchestrator/src/services/whatsapp-cloud/manager.ts:571-579 | the run of three requests and one late release in which two pages go out a millisecond apart |
| Escalations.LetThroughBreaksApart | apps/orchestrator/src/services/whatsapp-cloud/manager.ts:565-569 | a request the stamps let through too soon breaks the interval, when the cap has room |
| Escalations.ForgettingLetsOneThrough | apps/orchestrator/src/services/whatsapp-cloud/manager.ts:662-669 | the run of two requests and a reconnect in between in which two pages go out a millisecond apart |
| Escalations.ForgettingLetsSixtyMoreThrough | apps/orchestrator/src/services/whatsapp-cloud/manager.ts:662-669 | the run of one page, a reconnect and sixty pages within one window |
| Escalations.StampedStamps | apps/orchestrator/src/services/whatsapp-cloud/manager.ts:582-589 | a new stamp changes its own customer's and takes away the evicted one's, no other |
| Escalations.AdmitsKeeps | apps/orchestrator/src/services/whatsapp-cloud/manager.ts:559-569 | admitting below the cap keeps the account |
| Escalations.ReleasesKeeps | apps/orchestrator/src/services/whatsapp-cloud/manager.ts:571-579 | giving a slot back keeps it |
| Escalations.StampIsKept | apps/orchestrator/src/services/whatsapp-cloud/manager.ts:582-589 | the newest stamp is kept and the table never outgrows its limit |
| Escalations.EscalationSlots.ReserveEscalation | apps/orchestrator/src/services/whatsapp-cloud/manager.ts:555-571 | admitted exactly with room under the cap and the customer's interval over; the slot handed out names the customer, the kind and the stamp it replaces, and is on record; no other bot's list changes |
| Escalations.EscalationSlots.ReleaseSlot | apps/orchestrator/src/services/whatsapp-cloud/manager.ts:571-579 | exactly one token of the slot's number goes, if it is still listed; the customer's stamp is the one the slot was taken on; a forward leaves the stamps alone; no other bot's list changes |
| Escalations.EscalationSlots.ForgetHealth | apps/orchestrator/src/services/whatsapp-cloud/manager.ts:662-669 | the forget step: the bot's list is empty, its customers have no stamps, all others keep theirs |

## Left out

- MoveManager.Fleet.RecreateContainer: state migration is taken to keep the volume's content; the snapshot before it is not modelled.
- MoveManager.Fleet.DestroyLocked: channel logout, key revocation and the reconciler's own completion of a destroy, which takes no lock, are left out.
- MoveManager.Fleet.Operate: a container that exits by itself does so between operations.
- MoveManager.Fleet.RestartLocked: the monitor's probe of the gateway and its other reasons to skip are one failed call.
- MoveManager.Fleet.Undo: a flip that commits after the row was read again is not modelled.
- MoveManager.Fleet.Readopt: the restart budget and its exhausted branch are left out.
- MoveManager.Fleet.ObserveHealth: the monitor's check of isOperating and its write are one step.
- MoveManager.Fleet.FlipToHost: ports are in `Ports`; here a taken port is an answer the environment gives, and how many were tried is not counted.
- MoveManager.Fleet.Fail: a host out of reach, a broken stream and the last refused port count as one failed call each.
- Progress out of `error` after a failed target cleanup: a rollback and a rebuild can each defer to the other.
- Order across redelivery: a message skipped behind a failed one may come back after a newer one, and the model allows it.
- Delivery.NoSilentLoss: liveness of the network and of the plugin is not claimed; one row per wamid while the row is kept, and a wamid redelivered after its row was retired counts as the same message.
- Dispatcher.InboxDispatcher.EndQuery: takes the rows already grouped by bot (`Grouping` shows the grouping fits); `idle` polls of a bot with a dead token lease nothing and are left out.
- Replies.ReplyQueue.HandleInbound: a turn that nobody interrupts; runs of interleaved turns are runs of `ReplySpec.Step`, and `ReplyProofs.TurnIsItsSteps` ties the two.
- ReplyProofs.RepliesAreConserved: turns of one message do not overlap (`PollProofs.OneHandlerPerMessage`, until a second timeout abandons one), and the dispatch awaits each delivery.
- Conversation.WhoAnswers: application times are those in row-lock order and do not decrease; a raced reply is in a run only where it merges; profile names and the last inbound and outbound stamps do not bear on who answers.
- Placement.Placement.Choose: exact reals instead of floating point, and one clock reading for a synchronous stretch; the memory sweep comes in as a value.
- Ports.AllocatedPortIsExclusive: one host and one orchestrator; a second orchestrator on the same host is only stopped by the index.
- Locks.SomeoneCanStep: each operation inside a lock is taken to end or to ask for the next lock.
- Restarts.RestartsAreBudgeted: for a bot present in every report; one that is pruned starts a new account.
- Buckets.RateHoldsOverEveryInterval: exact reals, a clock in whole milliseconds that does not run backwards, and an idle time of at least 999 ms, below which the bound is false.
- Escalations.IntervalHoldsExactly: of stamps only; a request the stamps let through may still be turned down by the bot's cap.
- Escalations.EscalationsAreCapped: a restart of the process forgets all bots at once, which is one forget after the other.
- WhatsappStore.Store.LeasePending: the lease statement and the drop of unreadable rows, which the source awaits one after the other, are one step.
- WhatsappStore.Store.Sweep: its statements, which the source awaits one after the other, are one step; the sends ledger and the release of destroyed bots' numbers are left out.
- Channel setup, Meta and Telegram calls, pairing, budgets, encryption and tokens, event rows, routes and the web user interface: plumbing around these cores.
