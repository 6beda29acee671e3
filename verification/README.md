# Game night: a model of the authoritative runtime and its neighbours

This project models the parts of the platform whose correctness spans several functions, two aggregates and many
concurrent callers, and proves what they keep.

**The runtime and its room.** A room and a game session are two versioned aggregates. Any number of processes read
them, compute successors with the transition methods, and hand the result to a store that locks rows, compares
versions and writes. The model keeps the tables (rooms, sessions, event batches, receipts, system operations, start
receipts, inbox) and every session and room value ever stored. A step is one service command: start, claim, action,
timer, system fact, suspend, resume, pause, room resume, cancel, any room command, removal of a player, inbox
completion, opening a room. A step may work from any value that was ever stored, however old; that covers stale reads,
retries, crashes between two store calls and redeliveries. A store transaction is a function from the tables to the
rows it writes or to the error it returns. `RuntimeRuns.Run` is any sequence of such steps from empty tables, and
`RuntimeRuns.RunKeepsInv` is the invariant from which the statements about runs follow. The store is modelled from the
PostgreSQL adapter itself: the swap of a session compares ownership epoch, state version and status only.

A caller's command is more than one store call: it first looks for a stored answer, in a transaction of its own, and goes
on to read, compute and commit only when there is none. `RuntimeCalls` models commands that way, with the tables at the
lookup and the tables later as separate arguments. `RuntimeRetries` proves what a retry gets, and that a call leaves the
tables as some continuation of the run has them.

Game modules are arbitrary: the transition they return, its events, timers and whether it finishes are inputs of a
step. So are clock readings, random seeds, new identifiers and result digests. Clock readings and module deadlines are
nanoseconds (`Reading`), stored instants are microseconds (`Time`), and every truncation is explicit.

**The neighbours.** The outbox consumer's leases, the audit chain and its checkpoint gate, key rotation, and the byte
encodings behind request digests and challenge proofs.

## How the files are laid out

| files | content |
|---|---|
| Base, Sorting, GameSdk | results, instants, sorting, messages and transitions |
| GameSession, SessionSteps, Commits | the session aggregate, its transitions, the commit constructors |
| PartyRoom, RoomCommands, RoomLaws, RoomEffects | the room aggregate, its commands, what they keep, when each is accepted and what it does |
| RuntimeStore, RuntimeService | store transactions and service commands as functions on tables |
| RuntimeCalls | whole commands: checks, the lookup of a stored answer, then the transaction |
| RuntimeWorld, RuntimeRows, RuntimeLegal, RuntimeRuns | worlds, the invariant, which rows keep it, runs |
| RuntimeTheorems, RuntimeInputs, RuntimeRetries, RuntimeGovernance, RuntimePauses, ActiveTime, Replay | what holds in every run |
| RuntimeProgress, RuntimeStarts, RuntimeOutcomes, RuntimeRounds | exactly when a command succeeds, from whatever it read, and which rows it then writes |
| RuntimeExamples | two concrete situations: a stale step, and a resume past a room's pause |
| RuntimeLoops, RoomSlices | the loops and in-place updates, against the functions above |
| OutboxLeases, AuditChain, CheckpointGate, KeyRotation, Encoding | the neighbours |

## Where the code does not do what one would expect

Each of these is stated exactly: when the property holds and when it does not.

- **Ending a game under pause governance.** The termination check compares the room with a copy of the old room that
  keeps its pause fields, while the room aggregate clears them. Finishing and cancelling are therefore refused exactly
  while a pause request or a pause exists (`FinishAdmittedIffUnpaused`, `CancelAdmittedIffUnpaused`,
  `PendingRequestBlocksFinish`), and such a game survives every command (`PauseGovernanceKeepsGameRunning`).
- **Active time of timers.** A swap does not compare update times, so a step computed before a pause can commit after
  it. Due times always move by exactly the paused time (`DueMovesWithPauses`). Whether a firing had its full time
  unpaused is decided exactly: by the pauses recorded before the timer was scheduled, against how long it is overdue
  (`FullTimeIff`, and over runs `TimersGetTheirActiveTime`); at the moment it is due, no such pause may reach into the
  stretch (`FullTimeAtDueIff`). At the commit of the step that schedules it, each pause on record must have been over when
  the step ran, unless the timer is due before the pause began (`StepGivesFullTimeIff`). Over a row just resumed that is
  the comparison `current.updatedAt <= after.updatedAt`, which the store does not make (`MissingComparisonDecides`).
  `StaleStepLosesActiveTime` commits such a step; `ForwardClocksSettle` says that the comparison, made always, is enough.
- **Session-only resume.** It ignores the room. Pause agreement survives it exactly when the room has no pause
  (`ResumingOnlyLegal`); `SessionOnlyResumeSplitsThem` commits one under a pause.
- **Bumping a clock before truncating it.** Suspend, session-only resume and the claim of an unowned session by a retried
  start refuse exactly the readings strictly inside the microsecond after the last update (`BumpedTimeTooEarly`,
  `SuspendRefusedWithinTheMicrosecond`, `ResumeOnlyRefusedIff`, `BumpedClaimIff`). The governed time truncates first and
  has no such gap (`GovernedTimeFitsBoth`).
- **Removing a player from a running game.** The room is documented as immutable, but removal shifts the member slice
  it shares with the receiver, and the service passes that receiver to the store as the room it read. The removal
  commits exactly when the player is last in the member list (`RemovalCommitsIffLast`, `SecondOfThreeIsRefused`). The
  runs of the model let every removal through, so their theorems hold with the slice and without it.
- **A first transition that finishes.** `NewSession` accepts it, the start transaction demands an active session, so
  such a start is refused (`StartCommitsIff`) and no assumption about modules is needed for the agreement of room and
  session.
- **The audit gate.** A gate check and the append that follows it may see different heads. Commands that append to the
  head they checked never pass the maximum (`PinnedHeadKeepsMaximum`). With at most `width` commands in flight that read
  the head again, unanchored events stay within the maximum less one plus `width` (`UnanchoredBounded`), and some run
  reaches that number (`BoundIsReached`); so without ungated appends the maximum can be passed exactly when two commands
  may be in flight at once (`MaximumPassedIff`). In every run a checkpoint for the head has been enqueued once the maximum
  is reached (`CheckpointEnqueuedAtMaximum`).
- **Leases.** An acknowledgement at the very instant of a release lies on the open end of its holding
  (`ReleaseAtTheSameInstant`); all others lie inside.

## Model

| member | source | states |
|---|---|---|
| RuntimeRuns.RunKeepsInv | platform/game-runtime/service.go:157-900 | every state of every run, whatever stale values the commands used, satisfies the invariant: valid aggregates, room and session in agreement, contiguous history, receipts and batches answering each other, frozen seats, inbox fence; and pause agreement as long as no session-only resume went past a room pause |
| RuntimeRuns.StepLegal | platform/persistence/postgres/game_session_repository.go:220-811 | whatever a command writes, from whatever it read, obeys the row rules that keep the invariant |
| RuntimeLegal.LegalKeepsInv | platform/persistence/postgres/room_game_session_repository.go:61-844 | rows that obey those rules keep the whole invariant |
| RuntimeRuns.ResumingOnlyLegal | platform/game-runtime/service.go:814-846 | a session-only resume keeps pause agreement exactly when the room has no pause |
| RuntimeTheorems.PlayingMeansLive | platform/room/model.go:521-571 | in every reachable state a room plays a session exactly when that session is live and belongs to the room |
| RuntimeTheorems.AtMostOneLiveSession | platform/game-runtime/service.go:157-277 | a room never has two live sessions, and a playing room names a stored one |
| RuntimeTheorems.PausesAgree | platform/game-runtime/service.go:706-787 | a room with a pause has its session suspended since that very instant, unless a session-only resume intervened |
| RuntimeTheorems.FinishedGameTookEveryFact | platform/persistence/postgres/game_session_repository.go:1145-1164 | a finished game has applied every room fact ever recorded for it, acknowledged or still waiting |
| RuntimeTheorems.AcknowledgedFactWasAnswered | platform/game-runtime/system_inbox.go:112-176 | in any run an acknowledged room fact was answered at the version it was acknowledged with, and was applied unless the game was cancelled |
| RuntimeTheorems.HistoryContiguous | platform/game-runtime/model.go:504-548 | the batches of a session are exactly versions 1 to its own, with non-decreasing times and epochs |
| RuntimeTheorems.ActionChangesStateOnce | platform/game-runtime/service.go:335-450 | one action of one actor is the cause of at most one batch |
| RuntimeTheorems.TimerFiresOnce | platform/game-runtime/service.go:453-527 | a timer key with a receipt is the cause of exactly the batch after the version that armed it |
| RuntimeTheorems.SystemFactAppliedOnce | platform/game-runtime/service.go:545-661 | one operation and one source event are the cause of at most one batch |
| RuntimeTheorems.RunKeepsAnswers | platform/persistence/postgres/game_session_repository.go:248-502 | action, timer and start receipts only accumulate; an answered operation keeps its answer and its binding; a room fact keeps its payload and is completed once, at one version |
| RuntimeRetries.AnsweredActionReplays | platform/game-runtime/service.go:335-375 | in any run, a well-formed call for an answered action whose actor still plays gets exactly the original receipt for the same request and a conflict for another, writes nothing, and nothing else about the session matters |
| RuntimeRetries.LaterActionAnswers | platform/persistence/postgres/game_session_repository.go:248-302 | a call whose lookup came before the first commit gets the original receipt too, if it gets any answer |
| RuntimeRetries.AnsweredTimerReplays | platform/game-runtime/service.go:453-466 | in any run, a well-formed call for an answered timer gets exactly the original receipt |
| RuntimeRetries.LaterTimerAnswers | platform/persistence/postgres/game_session_repository.go:353-400 | the same for a call whose lookup came too early, if it gets any answer |
| RuntimeRetries.AnsweredSystemReplays | platform/game-runtime/service.go:545-568 | in any run, a call for an answered operation takes no round and gets exactly the original receipt for the same source and request, a conflict otherwise; a host must still be host |
| RuntimeRetries.LaterSystemAnswers | platform/persistence/postgres/game_session_repository.go:455-552 | a round begun before the first answer repeats it, if it gets any answer, also after the game ended |
| RuntimeRetries.RoundIsOnRecord | platform/game-runtime/system_inbox.go:158-172 | any answer but a retry is on record for its source event, which is what an acknowledgement relies on |
| RuntimeRetries.AnsweredStartReplays | platform/game-runtime/service.go:157-183 | in any run an answered start names its session for ever; a retry gets that session, claimed first if unowned, except strictly inside the microsecond after the start; another request conflicts |
| RuntimeRetries.BumpedClaimIff | platform/game-runtime/service.go:281-310 | the claim by a retried start is refused exactly on readings strictly inside the microsecond after the last update |
| RuntimeRetries.FreshStartIsClaimed | platform/game-runtime/service.go:257-277 | a session just started can always be claimed one microsecond after its start |
| RuntimeRetries.ActionCallContinues | platform/game-runtime/service.go:335-450 | whenever its lookup was, a call for an action leaves tables that some continuation of the run has, so every statement about runs holds with whole calls in it |
| RuntimeRetries.TimerCallContinues | platform/game-runtime/service.go:453-527 | the same for a timer |
| RuntimeRetries.SystemRoundContinues | platform/game-runtime/service.go:569-661 | the same for each round of a system command |
| RuntimeRetries.RetriedStartContinues | platform/game-runtime/service.go:281-310 | the same for a retried start, which writes nothing or claims the session |
| RuntimeTheorems.SupersededNeverCommits | platform/game-runtime/model.go:256-342 | a command made under a superseded epoch never changes a session or its history |
| RuntimeTheorems.BatchCarriesCurrentEpoch | platform/persistence/postgres/game_session_repository.go:796-811 | every batch carries the epoch its session had when it was written |
| RuntimeTheorems.SessionsOnlyMoveForward | platform/persistence/postgres/game_session_repository.go:1427-1439 | epochs and versions never decrease, identity never changes, an ended session stays as it ended |
| RuntimeTheorems.PlayersAlwaysSeated | platform/game-runtime/authorization.go:16-61 | a current player of a playing room is always authorised with the seat held in the room |
| RuntimeTheorems.ViewerIff | platform/game-runtime/authorization.go:16-61 | a live game is shown exactly to members of the room that plays it: to a player seated in the session, from the seat held there, and to a spectator from none |
| RuntimeInputs.EveryBatchRecordsItsInput | platform/persistence/postgres/game_session_repository.go:1215-1239 | in any run every stored batch carries the identifier, epoch, cause, clock, seed, message and events of one step of the run, and the row stored with it shows the state, timers, deadline and status that the module returned for that very step |
| RuntimeInputs.StateComesFromItsInput | platform/persistence/postgres/game_session_repository.go:1184-1198 | in any run a stored state is the snapshot returned for the input of its latest batch, or what a module made of it on a later resume; nothing else ever changes it |
| RuntimeInputs.LifecycleIsCompareAndSwap | platform/persistence/postgres/game_session_repository.go:575-607 | in any run an admitted lifecycle change, though the store compares epoch, version and status only, commits exactly when the whole row it was computed from is still stored, and replaces it whole |
| RuntimeInputs.ActionPreparedExact | platform/game-runtime/service.go:376-440 | a prepared action holds the row and the batch of its input, one notice, and a receipt binding its request and result to the new version |
| RuntimeInputs.TimerPreparedExact | platform/game-runtime/service.go:467-515 | the same for a firing |
| RuntimeInputs.SystemPreparedExact | platform/game-runtime/service.go:569-640 | the same for a system fact |
| RuntimeGovernance.VersionsNameStates | platform/room/model.go:951-961 | over a run, equal room versions mean equal rooms, equal membership versions equal members, equal host epochs equal hosts |
| RuntimeGovernance.OnlyCancelDropsGame | platform/room/model.go:744-820 | only a cancellation leaves a room with neither a running nor a finished game, and in the mode it was asked for |
| RuntimeGovernance.CancelRetryMatchesItsCancel | platform/game-runtime/service.go:849-915 | a cancel retry that is taken as done matches a step of the run that cancelled this game in this mode from the expected room |
| RuntimeGovernance.FinishAdmittedIffUnpaused | platform/persistence/postgres/room_game_session_repository.go:690-739 | the end of a game is admitted exactly when its room has no pause request and no pause |
| RuntimeGovernance.CancelAdmittedIffUnpaused | platform/persistence/postgres/room_game_session_repository.go:414-456 | the same for both kinds of cancellation |
| RuntimeGovernance.PendingRequestBlocksFinish | platform/room/model.go:744-766 | a room the aggregate would finish and the termination check refuses |
| RuntimeGovernance.GovernedTimeFitsBoth | platform/game-runtime/service.go:1256-1266 | the governed time is after both aggregates and unchanged by truncation |
| RuntimeGovernance.BumpedTimeTooEarly | platform/game-runtime/service.go:1206-1224 | a bumped reading truncates to no later than the last update exactly inside the microsecond after it |
| RuntimeGovernance.SuspendRefusedWithinTheMicrosecond | platform/game-runtime/model.go:402-421 | so a suspension under the right epoch is refused exactly there |
| RuntimeProgress.ResumeOnlyRefusedIff | platform/game-runtime/service.go:814-846 | a session-only resume by the owner is refused exactly there too, whatever the room says |
| RuntimeExamples.SessionOnlyResumeSplitsThem | platform/game-runtime/service.go:814-846 | a room and a session that agree about a pause, a session-only resume that commits, and no agreement afterwards |
| RuntimePauses.PauseGovernanceKeepsGameRunning | platform/persistence/postgres/room_game_session_repository.go:690-739 | while its room has a pause request or a pause, a live game stays live under every command |
| ActiveTime.DueMovesWithPauses | platform/game-runtime/model.go:402-478 | over any history of rows each due time is the scheduled one plus the total paused time since |
| ActiveTime.DeadlineMovesWithPauses | platform/game-runtime/action.go:559-576 | and so is the next deadline |
| ActiveTime.FiringHadItsActiveTime | platform/game-runtime/model.go:328-364 | if the pauses before a timer's scheduling were over by then, a timer that is due has had at least its scheduled time unpaused |
| ActiveTime.FullTimeIff | platform/game-runtime/model.go:328-364 | a timer has had its full time at an instant exactly when earlier pauses take no more of the stretch than it is overdue, counting what later pauses have ahead |
| ActiveTime.FullTimeAtDueIff | platform/game-runtime/model.go:402-478 | once the later pauses are over, it has its full time when due exactly when no earlier pause reaches into the stretch |
| ActiveTime.StepGivesFullTimeIff | platform/game-runtime/model.go:504-548 | a committed step gives a timer its full time exactly when each pause on record was over when the step ran or begins only once the timer is due |
| ActiveTime.MissingComparisonDecides | platform/persistence/postgres/game_session_repository.go:796-811 | over a row just resumed, a timer due after the pause began gets its full time exactly when the step is dated no earlier than the stored row, a comparison the store does not make |
| ActiveTime.ForwardClocksSettle | platform/game-runtime/model.go:504-548 | clocks that never go back keep the books settled |
| ActiveTime.StaleStepLosesActiveTime | platform/persistence/postgres/game_session_repository.go:796-811 | the store commits a step that ran before a pause over the resumed row, and the step's timer is due after less unpaused time than it was scheduled for |
| ActiveTime.RunRows | platform/persistence/postgres/game_session_repository.go:127-607 | the rows of a session over any run, from its start, form such a history, dated by the stored batches |
| ActiveTime.CommittedFiringWasDue | platform/persistence/postgres/game_session_repository.go:353-400 | a firing that commits names a timer of the stored row that is due, whatever row it was computed from |
| ActiveTime.TimersGetTheirActiveTime | platform/game-runtime/service.go:453-527 | in any run, a firing that commits had its full scheduled time unpaused exactly under the condition of FullTimeIff, and always if no row was stored over a later one |
| RuntimeProgress.TransitionAcceptedIff | platform/game-runtime/model.go:504-548 | an active session takes a step exactly when the module's transition is valid and an end arms no timers |
| RuntimeProgress.ActionPreparedIff | platform/game-runtime/model.go:274-325 | an action can be prepared exactly when its guards hold |
| RuntimeProgress.ActionCommitsIff | platform/persistence/postgres/game_session_repository.go:220-302 | a first attempt of an ongoing action, from any row ever stored, commits exactly when its guards hold on that row, the actor still plays, and epoch, version and status are unchanged; it then writes exactly the row and batch of its input and the receipt |
| RuntimeProgress.ReachableActionCommitsIff | platform/game-runtime/service.go:335-450 | the same in every reachable state, with the same rows |
| RuntimeProgress.TimerPreparedIff | platform/game-runtime/model.go:328-364 | a firing can be prepared exactly when the timer is armed, due, unchanged and of this version |
| RuntimeProgress.TimerCommitsIff | platform/persistence/postgres/game_session_repository.go:353-400 | the first firing of a timer, from any row ever stored, commits exactly when its guards hold, epoch, version and status are unchanged, and the stored row has it armed and due; it writes exactly the row and batch of its input and the receipt |
| RuntimeProgress.SystemCommitsIff | platform/persistence/postgres/game_session_repository.go:455-552 | a fact never answered before, from any active row ever stored, fails exactly when its guards do or a host does not finish; otherwise the stored row decides: ended, a no-op is recorded; other epoch or version, the operation is left pending and a retry asked for; suspended, refused; else exactly its row, batch, answer and operation are written |
| RuntimeProgress.ReachableSystemCommitsIff | platform/game-runtime/service.go:569-661 | the same in every reachable state, from any row ever stored |
| RuntimeProgress.FinishingActionCommitsIff | platform/persistence/postgres/room_game_session_repository.go:256-304 | a finishing action on current rows commits exactly when its guards hold, no room fact waits and no pause is pending or in force; it writes the finished row, its batch, the receipt and the room after its game, and nothing else |
| RuntimeProgress.FinishingTimerCommitsIff | platform/persistence/postgres/room_game_session_repository.go:307-349 | the same for a firing that ends the game |
| RuntimeProgress.FinishingSystemCommitsIff | platform/persistence/postgres/room_game_session_repository.go:352-411 | the same for a fact, where no other room fact may wait and a host must still be host |
| RuntimeStarts.StartCommitsIff | platform/persistence/postgres/room_game_session_repository.go:61-172 | a first start from the stored room commits exactly when its guards, written out, hold and the first transition does not finish the game; it writes the playing room, the first row with its frozen seats and the state and timers of the first transition, the first batch and the receipt |
| RuntimeProgress.PauseCommitsIff | platform/game-runtime/service.go:706-740 | a room pause on current rows commits exactly for the current host and versions, an unpaused game, the request it names and the owner of the active session, whatever the clock; both rows then record it at one instant and nothing else changes |
| RuntimeProgress.ResumeCommitsIff | platform/game-runtime/service.go:752-787 | a room resume commits exactly for the current host and versions, the owner of the session suspended by that pause and an adjustment that fits, whatever the clock; the pause is cleared and the timers move by its length, or become the adjusted ones |
| RuntimeProgress.ResumePreparesIff | platform/game-runtime/model.go:430-478 | a resume, adjusted by the module or not, can be prepared exactly by the owner of a suspended session, later than it, with an adjustment that keeps the envelope and moves every timer by the pause |
| RuntimeProgress.CancelCommitsIff | platform/persistence/postgres/room_game_session_repository.go:414-456 | a first cancellation of current rows commits exactly for the owner of a live game, at a later time, with a proper reason and no pause; it ends the session without timers for that reason, and the room is a lobby again or closed, as asked |
| RuntimeOutcomes.ClaimCommitsIff | platform/persistence/postgres/game_session_repository.go:127-163 | a claim from any row ever stored commits exactly when it names that row's epoch, is later, and the stored row is live with that epoch and version and not suspended after it; it raises the epoch by one and dates the row |
| RuntimeOutcomes.SuspendCommitsIff | platform/game-runtime/service.go:1206-1224 | in any run a session-only suspension from any row ever stored commits exactly when that row is still stored, active and the caller's, and the clock does not read inside the microsecond after it |
| RuntimeOutcomes.ResumeOnlyCommitsIff | platform/game-runtime/service.go:814-846 | in any run a session-only resume from any row ever stored commits exactly when that row is still stored, suspended and the caller's, the adjustment fits, and the clock does not read inside that microsecond |
| RuntimeOutcomes.EditCommitsIff | platform/persistence/postgres/room_repository.go:246-265 | in any run a room command from any room ever stored commits exactly when that room accepts it and nothing is to change or that room is still stored; it stores what the command does |
| RuntimeOutcomes.RemovalCommitsIff | platform/persistence/postgres/room_repository.go:267-341 | in any run the removal of a player, from any room ever stored, commits exactly when the room accepts it, is still stored, and the event is new; room and pending fact are stored together and the player is gone |
| RuntimeOutcomes.OpensIff | platform/room/service.go:145-175 | a room opens exactly for valid input under a new identifier, with its host alone in seat 0 and nothing running |
| RuntimeOutcomes.AcknowledgedForGood | platform/persistence/postgres/system_inbox_repository.go:44-90 | in any run, once a room fact is acknowledged, acknowledging it again at any later state is done exactly for the same payload and version, and writes nothing |
| RuntimeOutcomes.FirstActionCallCommitsIff | platform/game-runtime/service.go:335-450 | in any run a whole call for an unanswered action, with its lookup at any earlier state, commits exactly when it is well formed, the actor played at the lookup and the transaction commits |
| RuntimeOutcomes.FirstTimerCallCommitsIff | platform/game-runtime/service.go:453-527 | the same for a timer |
| RuntimeOutcomes.FirstStartCallCommitsIff | platform/game-runtime/service.go:157-277 | the same for a start |
| RuntimeOutcomes.OvertakenActionIff | platform/persistence/postgres/game_session_repository.go:248-302 | an action answered between its lookup and its transaction gets that answer, whatever became of the session, exactly when it could be prepared, the actor still plays and the request is the same; nothing is written |
| RuntimeOutcomes.OvertakenTimerIff | platform/persistence/postgres/game_session_repository.go:353-400 | the same for a firing |
| RuntimeOutcomes.OvertakenSystemIff | platform/persistence/postgres/game_session_repository.go:455-502 | the same for a fact, whose source must be the same too |
| RuntimeOutcomes.OvertakenStartIff | platform/persistence/postgres/room_game_session_repository.go:61-172 | the same for a start, from any room ever read |
| RuntimeOutcomes.OvertakenCancelIff | platform/persistence/postgres/room_game_session_repository.go:414-456 | a cancellation overtaken by a room change is answered as done exactly when the stored room and session are what it would have made of them, to the microsecond and with its reason; nothing is written |
| RuntimeOutcomes.CancelRetryIsAnswered | platform/game-runtime/service.go:849-915 | while room and session are as a cancellation left them, asking for it again, with any reason and at any time, is answered as done |
| RuntimeOutcomes.FinishingActionRetried | platform/persistence/postgres/room_game_session_repository.go:545-577 | in any run the action that ended a game can be sent again from the same old values, at any later state, while its actor is in the room: it gets its receipt and nothing is written |
| RuntimeOutcomes.FinishingTimerRetried | platform/persistence/postgres/room_game_session_repository.go:579-605 | the same for the firing that ended a game |
| RuntimeOutcomes.FinishingSystemRetried | platform/persistence/postgres/room_game_session_repository.go:607-636 | the same for the fact that ended a game |
| RuntimeOutcomes.EndedGameAnswersNoop | platform/persistence/postgres/game_session_repository.go:505-552 | a fact never answered before that finds a game ended is answered as a no-op exactly when it is well formed and names the game's version key, and for a host the version; only the answer is recorded |
| RuntimeRounds.CallGoesOnIff | platform/game-runtime/service.go:545-568 | a call for a fact goes on to its rounds exactly when it is well formed, a host is host, and the operation is unknown or pending under the same source and request |
| RuntimeRounds.SecondRoundCommitsIff | platform/game-runtime/service.go:569-661 | a fact that lost its first round and rereads the winner's row, still stored, ends after the second: applied under the new epoch and version, with exactly its rows, if and only if its guards hold there |
| GameSession.EarliestDueIsMinimum | platform/game-runtime/model.go:615-639 | the next deadline is one of the due times and no later than any |
| GameSession.RestoreYieldsValid | platform/game-runtime/model.go:198-248 | whatever restoring accepts is a valid session |
| GameSession.RestoreFixedPoint | platform/game-runtime/model.go:198-248 | valid sessions are exactly those restoring returns unchanged |
| GameSession.RestoreAcceptsIff | platform/game-runtime/model.go:198-248 | restoring accepts exactly the snapshots whose fields, written out, are consistent: identities, counts, seats, timers of this version, and the times and reason that the status calls for |
| Sorting.TextLessIff | platform/game-runtime/model.go:615-639 | the order of timer identifiers is the usual one: a text is before another exactly when it is a proper prefix or smaller where they first differ |
| SessionSteps.ApplyTransitionExact | platform/game-runtime/model.go:504-548 | an accepted engine step takes the module's snapshot as its state, arms exactly one timer for each intent at the new version, sets deadline, status and end time from them, and keeps everything else; its batch carries the input, the events and the epoch |
| SessionSteps.ApplyTransitionAdvances | platform/game-runtime/model.go:504-548 | so it yields a valid session one version on, with a matching batch and unchanged identity and epoch |
| SessionSteps.ActionTaken | platform/game-runtime/model.go:274-325 | an accepted action is such a step of an active session under its epoch, caused by that action of a participant |
| SessionSteps.TimerTaken | platform/game-runtime/model.go:328-364 | the same for a firing of a timer that is armed, due and unchanged |
| SessionSteps.SystemTaken | platform/game-runtime/model.go:367-399 | the same for a system fact, which its batch binds with source and request |
| SessionSteps.NewSessionExact | platform/game-runtime/model.go:151-195 | a created session has the request's identity, fences and seats, the seats in order, and the state, timers, deadline and status of the first transition; its batch carries the input and the events |
| SessionSteps.NewSessionShape | platform/game-runtime/model.go:151-195 | so an accepted creation yields a valid session at version 1 with its first batch |
| SessionSteps.AcquireShape | platform/game-runtime/model.go:256-271 | a claim succeeds exactly on a live session under its own epoch at a later time, and changes epoch and update time only |
| SessionSteps.SuspendShape | platform/game-runtime/model.go:402-421 | a suspension succeeds exactly on an active session under its epoch at a later time, and keeps timers and state |
| SessionSteps.PlainResumeExact | platform/game-runtime/model.go:430-478 | a resume without adjuster moves every timer by the length of the pause and nothing else |
| SessionSteps.ResumeShape | platform/game-runtime/model.go:430-478 | any accepted resume yields a valid active session of the same version; its state and timers are the module's adjustment, or the old state with every timer moved by the pause |
| SessionSteps.CancelShape | platform/game-runtime/model.go:481-501 | a cancellation succeeds exactly on a live session under its epoch at a later time with a proper reason; it drops the timers |
| Commits.ActionStepAdmitted | platform/game-runtime/action.go:361-397 | the commit the service builds from an accepted action is admitted |
| Commits.TimerStepAdmitted | platform/game-runtime/action.go:423-445 | the same for timers |
| Commits.SystemStepAdmitted | platform/game-runtime/action.go:471-494 | the same for system facts |
| Commits.SuspendAdmitted | platform/game-runtime/action.go:520-556 | the same for suspensions |
| Commits.CancelAdmitted | platform/game-runtime/action.go:520-556 | the same for cancellations |
| Commits.PlainResumeAdmitted | platform/game-runtime/action.go:559-576 | the same for resumes without adjuster |
| Commits.AdjustedResumeAdmitted | platform/game-runtime/action.go:559-576 | an adjusted resume is admitted exactly when every timer moved by the pause |
| Commits.LifecycleCommitKeepsVersion | platform/game-runtime/action.go:520-556 | an admitted lifecycle commit keeps identity, epoch and version and is one of four status moves |
| PartyRoom.NextSeatRefusesExactlyWhenFull | platform/room/model.go:936-949 | with distinct seats below capacity there is a free seat exactly when participants are fewer than the capacity |
| RoomLaws.GuardSuffices | platform/room/model.go:343-891 | every command that passes its guards, no earlier than the last update, yields a room that restoring accepts, with distinct seats below capacity; only version overflow and the member limit are apart |
| RoomEffects.AcceptedIff | platform/room/model.go:343-891 | a command no earlier than the last update is accepted exactly when its caller is entitled to it, it expects the current versions, the room is in a state for it, and there is nothing to change or a counter left |
| RoomEffects.AcceptedDoes | platform/room/model.go:343-891 | what each of the fifteen commands does, field by field: who joins, waits or is seated and where, who leaves, who becomes host and at which epoch, which request, pause or game is set or cleared, which admissions close, which versions move by one; everything else stays |
| RoomEffects.RefusalExplained | platform/room/model.go:343-961 | each error names its reason: what was malformed, who was not entitled, which version or status stood in the way |
| RoomLaws.ExecuteSuccessor | platform/room/model.go:343-891 | a command leaves a room as it is or one version on; members change only with the membership version, the host only with the host epoch |
| RoomLaws.FreeCommandKeepsGame | platform/room/model.go:343-518 | commands other than the game's own keep the running game; its players may leave but not move or join |
| RoomLaws.NewRoomReachable | platform/room/model.go:177-206 | a room is made exactly for valid input, and is then a valid lobby with its host alone in seat 0, the default game, and every counter at one |
| RoomSlices.RemoveInPlace | platform/room/model.go:837-849 | the shift returns the list without the member and leaves the receiver's array with the last member twice |
| RoomSlices.RemovalCommitsIffLast | platform/room/service.go:410-450 | with that receiver the removal of a player commits exactly when it should and the player is last in the list |
| RoomSlices.SecondOfThreeIsRefused | platform/persistence/postgres/room_repository.go:323-341 | a removal that is in order and that the store refuses |
| RoomSlices.OtherUpdatesIgnoreReceiver | platform/persistence/postgres/room_repository.go:402-440 | every other room update is indifferent to the receiver's members |
| RuntimeLoops.CanonicaliseTimers | platform/game-runtime/model.go:615-639 | the loops over timers compute the canonical list and the least due time, refusing duplicates and malformed timers |
| RuntimeLoops.CanonicaliseParticipants | platform/game-runtime/model.go:578-602 | the loop over sorted participants refuses exactly when a user is nil or a user or seat repeats |
| RuntimeLoops.TimersFromIntents | platform/game-runtime/model.go:604-613 | the loop turns intents into timers of the given version, due times truncated |
| RuntimeLoops.ShiftedResumeTimers | platform/game-runtime/model.go:668-682 | the loop moves every due time by the pause |
| RuntimeLoops.FindSeat | platform/room/model.go:936-949 | the two loops find the least seat that no participant holds |
| RuntimeLoops.CheckRoster | platform/room/model.go:259-303 | the member loop accepts exactly the valid rosters, counts participants and finds the host |
| RuntimeLoops.TrustedStartingSeat | platform/game-runtime/service.go:1290-1302 | the loop gives the host's seat if the host plays, otherwise the lowest seat |
| RuntimeLoops.HostIsFrozen | platform/game-runtime/service.go:1280-1302 | the host of a valid room is always among the players it freezes |
| RuntimeLoops.HandleSystem | platform/game-runtime/service.go:545-661 | the loop returns what the description of the call says: an early answer without a round, or the answer of the first round that asks for no other; a retry in a host's only round is a conflict, and in the fourth leaves the fact pending |
| RuntimeLoops.RoundAdoptsLockedRow | platform/game-runtime/service.go:651-661 | every later round carries the epoch and version of the row that the store held when it asked for a retry, and is otherwise the command as given |
| RuntimeLoops.OnlyLastRoundChanges | platform/game-runtime/service.go:569-661 | rounds before the last record at most a pending operation; the answer is the last round's and never a retry |
| Replay.ReadReplayBatches | platform/game-runtime/service.go:1136-1163 | the paged read ends and returns what one unpaged read of at most 4097 batches would |
| Replay.CollectEvents | platform/game-runtime/service.go:1075-1104 | the nested loops accept exactly the contiguous histories within all limits and return their events in order |
| Replay.ReplayFailsOnlyForSize | platform/game-runtime/service.go:1047-1127 | in every reachable state a history is complete and in order, so only its size can stop a replay |
| OutboxLeases.RetryBackoff | platform/outbox/consumer.go:255-267 | the loop computes two to the power of the count less one, in seconds, at most 300 |
| OutboxLeases.RunsKeepInv | platform/outbox/consumer.go:121-226 | any attempts of any workers on any rows they read keep the lease history in order |
| OutboxLeases.HoldingsDisjoint | platform/outbox/consumer.go:121-173 | no two holdings share an instant of their half-open intervals |
| OutboxLeases.MarksInsideOffsetsIncrease | platform/outbox/consumer.go:177-226 | acknowledgements and failures lie in their owner's holding, and acknowledged offsets strictly increase |
| OutboxLeases.FailuresSpanBackoffs | platform/outbox/consumer.go:206-267 | failures without an acknowledgement between them are at most 16 and span at least their summed backoffs |
| OutboxLeases.TakenExactlyWhenAdmitted | platform/outbox/consumer.go:121-253 | in any run an action on the stored row is taken exactly when the history admits it: a lease when the last holding is over, a renewal, release, acknowledgement or failure by the unexpired holder, an acknowledgement from the last acknowledged offset, a failure after the last backoff and as the sixteenth at most |
| OutboxLeases.RefusedForItsReason | platform/outbox/consumer.go:121-253 | in any run each refusal names what in the history stood in the way |
| OutboxLeases.TakenTakesEffect | platform/outbox/consumer.go:121-235 | what a taken action adds to or changes in holdings, offsets and failures, and the row everyone reads next; a worker that read another row changes nothing |
| OutboxLeases.SixteenFailuresPossible | platform/outbox/consumer.go:206-226 | for every count up to sixteen some run ends with that many failures in a row, so the bound is reached |
| OutboxLeases.ReleaseAtTheSameInstant | platform/outbox/consumer.go:160-203 | the one edge: an acknowledgement at the instant of its release |
| AuditChain.VerifyChain | platform/audit/service.go:71-106 | the loop accepts exactly when every event follows the head before it, hashes to its own hash and is signed by a known key; it then reaches the head of the last event, and otherwise reports the first fault |
| AuditChain.VerifyInSequence | platform/audit/service.go:88-106 | verifying a concatenation is verifying its parts in sequence |
| AuditChain.ChainDetermined | platform/audit/service.go:71-106 | two accepted chains from one head with the same final sequence and hash are equal event by event |
| AuditChain.AlteredEventNoticed | platform/audit/service.go:71-85 | replacing one event by a different one changes the final hash or is refused |
| AuditChain.PreparedIff | platform/audit/service.go:36-68 | an event is prepared exactly for a valid report no earlier than the head, next in sequence and linked to the head's hash |
| AuditChain.AppendedChainVerifies | platform/audit/service.go:36-68 | whatever is reported, prepared and appended, the chain verifies to its own head |
| AuditChain.EveryReportRecorded | platform/audit/service.go:36-68 | reports in order of time are all recorded, one event each with its own facts, linked and signed under the active key |
| CheckpointGate.GateMeansRoom | platform/audit/checkpoint.go:237-274 | health is given exactly for readable progress; a write is allowed exactly below the event maximum, with everything anchored or the oldest unanchored event younger than the maximal age, and a ready sink in production; a checkpoint is due exactly at or above either threshold |
| CheckpointGate.ChecksIff | platform/admin/audit_and_receipts.go:37-78 | a command enters exactly under those conditions and remembers the head it saw |
| CheckpointGate.AppendsIff | platform/persistence/postgres/admin_user_audit_recorder.go:71-132 | a command in flight appends exactly when it reads the head again or the head is the one it saw; the checkpoint for the new head is enqueued exactly when one is due |
| CheckpointGate.UnanchoredBounded | platform/identity/recovery_service.go:905-954 | in any run unanchored events are at most the maximum less one, plus commands in flight, plus ungated appends |
| CheckpointGate.CheckpointEnqueuedAtMaximum | platform/admin/audit_and_receipts.go:37-95 | in any run, at or above the maximum a checkpoint for the current head has been enqueued, and only what was enqueued is acknowledged |
| CheckpointGate.AcknowledgementReopens | platform/audit/checkpoint.go:207-274 | in any run, wherever the maximum was reached, acknowledging the checkpoint then enqueued lets the next command in |
| CheckpointGate.PinnedHeadKeepsMaximum | platform/persistence/postgres/admin_user_audit_recorder.go:71-132 | if every command appends to the head it checked, the maximum is never passed |
| CheckpointGate.BoundIsReached | platform/admin/audit_and_receipts.go:45-78 | for every policy and width some run of gated commands ends exactly at the bound of UnanchoredBounded |
| CheckpointGate.MaximumPassedIff | platform/identity/recovery_service.go:905-954 | gated commands can pass the maximum exactly when two of them may be in flight at once |
| KeyRotation.ProcessPage | platform/keyrotation/service.go:174-205 | the page loop refuses exactly when a row cannot be sealed under the target, and otherwise applies every row in order |
| KeyRotation.EveryRowCounted | platform/keyrotation/service.go:207-238 | the page goes through its rows one by one, whatever others write before each, and ends with the table, the rows moved and the rows lost so far |
| KeyRotation.RowMovesIffUnchanged | tooling/sqlc/queries/key_rotation.sql:82-90 | a row that is still as listed when its update runs is then sealed under the target key with nothing else changed; any other row is left as it is |
| KeyRotation.PageTally | platform/keyrotation/service.go:174-205 | so processed is the number of rows moved and conflicts the number whose update lost |
| KeyRotation.ReencryptKeepsText | platform/profile/pii.go:160-167 | what was sealed can be sealed again under any known key, with the same text |
| KeyRotation.NoUpdateLost | tooling/sqlc/queries/key_rotation.sql:82-90 | whatever other writers do, a value changes only when one of them changed it |
| KeyRotation.FailsIffKeyMoved | platform/keyrotation/service.go:187-191 | over values this deployment sealed, a pass fails exactly when it has rows and the active key is not the target, and then changes nothing |
| KeyRotation.PassMakesProgress | platform/keyrotation/service.go:160-284 | if others write nothing under the source key, each pass leaves fewer references, or as many and a cursor back at the start |
| KeyRotation.RotationTerminates | platform/keyrotation/service.go:64-125 | so a job takes at most twice its references plus two passes |
| KeyRotation.JobLosesNothing | platform/keyrotation/service.go:64-125 | over a whole job, with honest writers in between, every row is still there and its value changed only if a writer changed its version |
| KeyRotation.CompletedJobMovedEveryValue | platform/keyrotation/service.go:240-266 | when a job completes, no row refers to the source key, and every row that did when it began is there with the same text unless a writer changed its version |
| Encoding.FieldsRoundTrip | platform/game-runtime/service.go:1407-1424 | the list of hashed fields can be read back from the bytes |
| Encoding.SameBytesIffSameRequest | platform/game-runtime/service.go:1329-1395 | two commands of one kind hash the same bytes exactly when every bound field agrees, including the version that only host requests bind |
| Encoding.ActionBytes | platform/game-runtime/service.go:1329-1338 | the writes of the action digest produce exactly those fields |
| Encoding.StartBytes | platform/game-runtime/service.go:1340-1351 | the same for the start digest |
| Encoding.SystemBytes | platform/game-runtime/service.go:1353-1369 | the same for the system digest with its conditional field |
| Encoding.CancelBytes | platform/game-runtime/service.go:1371-1390 | the same for the cancel digest with its optional operation |
| Encoding.ClaimsDetermined | platform/challenge/canonical.go:13-43 | the signed challenge bytes determine every claim, with or without a subject |
| Encoding.CanonicalClaims | platform/challenge/canonical.go:13-43 | the buffer writes produce exactly those bytes, or nothing for an invalid binding |

## Left out

- Saturation of Go durations and integer overflow of sequence numbers other than room and state versions.
- The grammar of version keys, room codes, request identifiers, reason codes and actor identifiers: only emptiness and, for game identifiers, the identifier pattern matter to a decision here.
- Trimming of white space in identifiers and room codes.
- The frozen start configuration's digest and the pending-start proof that a start may carry.
- The maintenance gate before user commands, and a module or projection that fails while a stored answer is shown.
- Missing modules: suspension of a session whose module is gone is the suspension modelled here with its own clock.
- The order in which the database returns members: a stored room keeps the order it was written in. For removals the order matters and is a parameter of the statement.
- Outbox events beyond kind, aggregate and time; delivery and projection to clients.
- Projections of modules, replay access policies and viewers of anything but a live game.
- The inbox consumer as one call: its system command and its acknowledgement are steps of a run, and an acknowledgement is allowed only with the version of a recorded answer. An owner change during a first delivery makes it fail and a later one succeed.
- Cryptography: hash, signature and cipher appear as injective functions, as a scheme that accepts its own signatures, and as sealed values that open under known keys.
- Unicode normalisation: any idempotent function.
- Callers that discard the result of an audit append, and the offline administrator reset, which appends without the gate.
- Job leases of key rotation and a keyring that changes during a job beyond `FailsIffKeyMoved`; the leases follow the same pattern as the outbox leases.
- Registration of outbox consumers, rate limits, lobby pages, administrator login and recovery workflows: they would add simple members only.
- The deferred constraints of the database schema; nothing relies on them.
