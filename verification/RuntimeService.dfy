/**
 * The service commands as one store call each: values that the caller read earlier (possibly stale),
 * the clock, fresh identifiers and module results are arguments; the answer is the store's.
 */
module RuntimeService {
  import opened Base
  import opened GameSdk
  import opened GameSession
  import opened SessionSteps
  import opened Commits
  import opened PartyRoom
  import opened RoomCommands
  import opened RuntimeStore

  // ----- time -----

  /** Push the reading a microsecond past `latest`, then let the aggregate truncate it. */
  function BumpedTime(now: Reading, latest: Time): Reading {
    if now <= Nanos(latest) then Nanos(latest + 1) else now
  }

  /** Truncate first, then push past both aggregates. */
  function GovernedTime(now: Reading, roomUpdatedAt: Time, sessionUpdatedAt: Time): Time {
    var at := Micros(now);
    var latest := if sessionUpdatedAt > roomUpdatedAt then sessionUpdatedAt else roomUpdatedAt;
    if at <= latest then latest + 1 else at
  }

  // ----- start and ownership -----

  datatype StartInput = StartInput(
    actor: Id, operation: Id, request: Digest, game: string, key: VersionKey, minimum: nat, maximum: nat,
    expected: RoomVersions,
    session: Id, batchId: Id, config: Message, revision: nat, execution: Execution, transition: Transition,
    now: Reading)

  /** The seated players, in member order. */
  function FrozenParticipants(ms: seq<Member>): (r: seq<Participant>)
    ensures |r| == ParticipantCount(ms)
    ensures forall i :: 0 <= i < |ms| && ms[i].role == ParticipantRole ==> Participant(ms[i].user, ms[i].seat) in r
    ensures forall p :: p in r ==>
      exists i :: 0 <= i < |ms| && ms[i].role == ParticipantRole && Participant(ms[i].user, ms[i].seat) == p
  {
    if ms == [] then []
    else
      var rest := FrozenParticipants(ms[1..]);
      assert forall i :: 1 <= i < |ms| ==> ms[i] == ms[1..][i - 1];
      if ms[0].role == ParticipantRole then [Participant(ms[0].user, ms[0].seat)] + rest else rest
  }

  function StartCommand(i: StartInput): Command {
    StartSession(i.actor, i.session, i.game, i.minimum, i.maximum, i.expected, i.now)
  }

  /** The session to create: the seated players, and the configuration with the room's own fences. */
  function CreationOf(room: Room, i: StartInput): CreateRequest {
    CreateRequest(i.session, room.id, i.key, FrozenParticipants(room.members),
                  StartConfig(i.config, i.revision, i.expected.room, i.expected.membership, room.hostEpoch),
                  i.batchId, i.execution.(now := Nanos(Micros(i.now))), i.config, i.transition)
  }

  function ExecuteStart(db: Tables, room: Room, i: StartInput): Result<StartAnswer> {
    if i.actor == NIL || i.operation == NIL || !i.config.Valid() || i.expected.room == 0 || i.expected.membership == 0
       || !ValidIdentifier(i.game)
       || i.key.game != i.game
    then Err(InvalidSessionInput)
    else match Execute(room, StartCommand(i))
      case Err(e) => Err(e)
      case Ok(next) =>
        match NewSession(CreationOf(room, i))
        case Err(e) => Err(e)
        case Ok(made) =>
          StartGame(db, room, next, made.0, made.1, [NewEvent(SessionCreatedEvent, i.session, Nanos(Micros(i.now)))],
                    StartReceipt(StartKey(i.actor, room.id, i.operation), i.request, i.session, Micros(i.now)))
  }

  function Claim(db: Tables, before: Session, expectedEpoch: nat, at: Reading): Result<Tables> {
    match AcquireOwnership(before, expectedEpoch, at)
    case Err(e) => Err(e)
    case Ok(next) => AcquireOwnershipCAS(db, before, next)
  }

  // ----- engine steps -----

  datatype ActionInput = ActionInput(
    actor: Id, actionId: Id, expectedVersion: nat, epoch: nat, key: VersionKey, message: Message, request: Digest,
    batchId: Id, execution: Execution, transition: Transition, result: Digest)

  function PrepareAction(before: Session, i: ActionInput): Result<ActionCommit> {
    if i.actor == NIL || i.actionId == NIL || i.expectedVersion == 0 || i.epoch == 0 || !i.key.Valid()
       || !i.message.Valid()
    then Err(InvalidSessionInput)
    else if before.key != i.key || before.Version() != i.expectedVersion then Err(StateVersionConflict)
    else match ApplyAction(before, i.batchId, i.epoch, i.actor, i.actionId, i.execution, i.message, i.transition)
      case Err(e) => Err(e)
      case Ok(step) =>
        match NewActionReceipt(ActionReceipt(ActionKey(before.id, i.actor, i.actionId), i.request, Accepted, i.result,
                                             step.0.Version(), Micros(i.execution.now)))
        case Err(e) => Err(e)
        case Ok(receipt) =>
          NewActionCommit(before, step.0, step.1, receipt,
                          [NewEvent(SessionTransitionedEvent, before.id, i.execution.now)])
  }

  /** The room as the game's end leaves it. */
  function PrepareFinish(room: Room, session: Id, now: Reading): Result<Room> {
    Execute(room, FinishSession(session, room.Versions(), now))
  }

  function ExecuteAction(db: Tables, before: Session, room: Room, i: ActionInput): Result<ActionAnswer> {
    match PrepareAction(before, i)
    case Err(e) => Err(e)
    case Ok(c) =>
      if c.after.status != Finished then CommitAction(db, c)
      else match PrepareFinish(room, before.id, i.execution.now)
        case Err(e) => Err(e)
        case Ok(next) => FinishAction(db, room, next, c)
  }

  datatype TimerInput = TimerInput(timerId: string, expectedVersion: nat, message: Message, epoch: nat,
                                   batchId: Id, execution: Execution, transition: Transition, result: Digest)

  function PrepareTimer(before: Session, i: TimerInput): Result<TimerCommit> {
    if i.epoch == 0 || i.expectedVersion == 0 || !i.message.Valid() then Err(InvalidSessionInput)
    else match ApplyTimer(before, i.batchId, i.epoch, i.timerId, i.expectedVersion, i.execution, i.message,
                          i.transition)
      case Err(e) => Err(e)
      case Ok(step) =>
        match NewTimerReceipt(TimerReceipt(TimerKey(before.id, i.timerId, i.expectedVersion), Accepted, i.result,
                                           step.0.Version(), Micros(i.execution.now)))
        case Err(e) => Err(e)
        case Ok(receipt) =>
          NewTimerCommit(before, step.0, step.1, receipt,
                         [NewEvent(SessionTransitionedEvent, before.id, i.execution.now)])
  }

  function ExecuteTimer(db: Tables, before: Session, room: Room, i: TimerInput): Result<TimerAnswer> {
    match PrepareTimer(before, i)
    case Err(e) => Err(e)
    case Ok(c) =>
      if c.after.status != Finished then CommitTimer(db, c)
      else match PrepareFinish(room, before.id, i.execution.now)
        case Err(e) => Err(e)
        case Ok(next) => FinishTimer(db, room, next, c)
  }

  datatype SystemInput = SystemInput(
    operation: Id, source: SystemSource, expectedVersion: nat, epoch: nat, key: VersionKey, message: Message,
    request: Digest,
    batchId: Id, execution: Execution, transition: Transition, result: Digest, noopResult: Digest)

  function PrepareSystem(before: Session, i: SystemInput): Result<SystemCommit> {
    match ApplySystem(before, i.batchId, i.epoch, before.Version(), i.operation, i.source, i.request, i.execution,
                      i.message, i.transition)
    case Err(e) => Err(e)
    case Ok(step) =>
      match NewSystemReceipt(SystemReceipt(SystemKey(before.id, i.operation, i.source), i.request, Accepted, i.result,
                                           step.0.Version(), Micros(i.execution.now)))
      case Err(e) => Err(e)
      case Ok(receipt) =>
        NewSystemCommit(before, step.0, step.1, receipt,
                        [NewEvent(SessionTransitionedEvent, before.id, i.execution.now)])
  }

  /** One round of the recomputation loop, after `before` was read. */
  function HandleSystemOnce(db: Tables, before: Session, room: Room, i: SystemInput): Result<SystemAnswer> {
    if i.operation == NIL || !i.source.Valid() || i.expectedVersion == 0 || i.epoch == 0 || !i.key.Valid()
       || !i.message.Valid()
    then Err(InvalidSessionInput)
    else if before.key != i.key || (i.source.kind == HostApi && before.Version() != i.expectedVersion)
    then Err(StateVersionConflict)
    else if before.status.Terminal() then
      CompleteSystemNoop(db, SystemKey(before.id, i.operation, i.source), i.request, i.noopResult, i.execution.now)
    else if i.source.kind == HostApi && !i.transition.finished then Err(InvalidSystemCommit)
    else match PrepareSystem(before, i)
      case Err(e) => Err(e)
      case Ok(c) =>
        if c.after.status != Finished then CommitSystem(db, c, i.noopResult)
        else match PrepareFinish(room, before.id, i.execution.now)
          case Err(e) => Err(e)
          case Ok(next) => FinishSystem(db, room, next, i.source.requestedBy, c, i.noopResult)
  }

  // ----- lifecycle -----

  function PrepareSuspend(before: Session, epoch: nat, at: Reading): Result<LifecycleCommit> {
    match Suspend(before, epoch, at)
    case Err(e) => Err(e)
    case Ok(after) => NewLifecycleCommit(before, after, [NewEvent(SessionSuspendedEvent, before.id, at)])
  }

  function PrepareResume(before: Session, epoch: nat, at: Reading, adjustment: Adjustment): Result<LifecycleCommit> {
    match Resume(before, epoch, at, adjustment)
    case Err(e) => Err(e)
    case Ok(after) => NewLifecycleCommit(before, after, [NewEvent(SessionResumedEvent, before.id, at)])
  }

  function PrepareCancel(before: Session, epoch: nat, at: Reading, reason: string): Result<LifecycleCommit> {
    match SessionSteps.Cancel(before, epoch, at, reason)
    case Err(e) => Err(e)
    case Ok(after) => NewLifecycleCommit(before, after, [NewEvent(SessionCancelledEvent, before.id, at)])
  }

  function SuspendSession(db: Tables, before: Session, epoch: nat, now: Reading): Result<Tables> {
    match PrepareSuspend(before, epoch, BumpedTime(now, before.updatedAt))
    case Err(e) => Err(e)
    case Ok(c) => CommitLifecycle(db, c)
  }

  /** The session-only resume; it looks at no room. */
  function ResumeOnly(db: Tables, before: Session, epoch: nat, now: Reading, adjustment: Adjustment): Result<Tables> {
    match PrepareResume(before, epoch, BumpedTime(now, before.updatedAt), adjustment)
    case Err(e) => Err(e)
    case Ok(c) => CommitLifecycle(db, c)
  }

  function PauseRoom(db: Tables, room: Room, before: Session, actor: Id, pauseId: Id, requestId: Id,
                     expected: RoomVersions, epoch: nat, now: Reading): Result<Tables> {
    if before.room != room.id then Err(GameSessionIntegrity)
    else
      var at := Nanos(GovernedTime(now, room.updatedAt, before.updatedAt));
      match Execute(room, RoomCommands.Pause(actor, pauseId, before.id, requestId, expected, at))
      case Err(e) => Err(e)
      case Ok(next) =>
        match PrepareSuspend(before, epoch, at)
        case Err(e) => Err(e)
        case Ok(c) => GovernGame(db, room, next, c, true)
  }

  function ResumeRoom(db: Tables, room: Room, before: Session, actor: Id, expected: RoomVersions, epoch: nat,
                      now: Reading, adjustment: Adjustment): Result<Tables> {
    if before.room != room.id then Err(GameSessionIntegrity)
    else
      var at := Nanos(GovernedTime(now, room.updatedAt, before.updatedAt));
      match Execute(room, ResumeSession(actor, before.id, expected, at))
      case Err(e) => Err(e)
      case Ok(next) =>
        match PrepareResume(before, epoch, at, adjustment)
        case Err(e) => Err(e)
        case Ok(c) => GovernGame(db, room, next, c, false)
  }

  datatype CancelInput = CancelInput(session: Id, expected: RoomVersions, epoch: nat, reason: string, closeRoom: bool,
                                     now: Reading)

  /** A retry after the room moved on is answered only if that move was this very cancellation. */
  predicate CancelledRoomMatches(room: Room, i: CancelInput) {
    && room.roomVersion == i.expected.room + 1 && room.membershipVersion == i.expected.membership
    && room.activeSession == NIL && room.activeGame == "" && room.lastSession == NIL && room.lastGame == ""
    && room.participantAdmission == AdmissionClosed
    && (if i.closeRoom then room.status == Closed && room.spectatorAdmission == AdmissionClosed
        else room.status == Lobby)
  }

  function Cancel(db: Tables, room: Room, session: Session, i: CancelInput): Result<Tables> {
    if i.session == NIL || i.epoch == 0 || session.id != i.session then Err(InvalidSessionInput)
    else if room.Versions() != i.expected || room.activeSession != i.session then
      if session.room == room.id && session.epoch == i.epoch && session.status == Cancelled
         && CancelledRoomMatches(room, i)
      then Ok(NOTHING)
      else Err(RoomVersionConflict)
    else match PrepareCancel(session, i.epoch, i.now, i.reason)
      case Err(e) => Err(e)
      case Ok(c) =>
        match Execute(room, CancelCommand(room, i))
        case Err(e) => Err(e)
        case Ok(next) => CancelGame(db, room, next, c)
  }

  function CancelCommand(room: Room, i: CancelInput): Command {
    if i.closeRoom then CancelSessionAndClose(room.host, i.session, room.Versions(), i.now)
    else CancelSession(i.session, room.Versions(), i.now)
  }

  // ----- rooms -----

  /** A command that leaves the game alone; removing a player of a running game goes through `RemovePlayer`. */
  function EditRoom(db: Tables, room: Room, c: Command): Result<Tables> {
    if !RoomTakesAlone(room, c) then Err(InvalidRoomInput)
    else match Execute(room, c)
      case Err(e) => Err(e)
      case Ok(next) => if next == room then Ok(NOTHING) else UpdateCAS(db, room, next)
  }

  predicate RoomTakesAlone(room: Room, c: Command) {
    && !(c.StartSession? || c.Pause? || c.ResumeSession?
         || c.FinishSession? || c.CancelSession? || c.CancelSessionAndClose?)
    && (c.RemoveMember? ==> !(room.status == Playing && room.IsParticipant(c.user)))
  }

  function RemovePlayer(db: Tables, room: Room, authority: Authority, user: Id, expected: RoomVersions, at: Reading,
                        eventId: Id, payload: Digest): Result<Tables> {
    match Execute(room, RemoveMember(authority, user, expected, at))
    case Err(e) => Err(e)
    case Ok(next) => CommitRemoval(db, room, next, user, eventId, payload)
  }

  function OpenRoom(db: Tables, id: Id, host: Id, code: string, visibility: Visibility, capacity: nat,
                    participant: Admission,
                    spectator: Admission, at: Reading): Result<Tables>
  {
    match NewRoom(id, host, code, visibility, capacity, participant, spectator, at)
    case Err(e) => Err(e)
    case Ok(room) => if id in db.rooms then Err(RoomIntegrity) else Ok(NOTHING.(rooms := map[id := room]))
  }
}
