/**
 * The durable tables and the transactions over them. Each transaction runs under row locks, so it is one
 * atomic function from the tables to the rows it writes; a refused transaction writes nothing.
 */
module RuntimeStore {
  import opened Base
  import opened GameSdk
  import opened GameSession
  import opened SessionSteps
  import opened Commits
  import opened PartyRoom

  datatype BatchKey = BatchKey(session: Id, version: nat)
  datatype OperationKey = OperationKey(session: Id, operation: Id)
  datatype InboxKey = InboxKey(session: Id, eventId: Id)
  datatype StartKey = StartKey(actor: Id, room: Id, operation: Id)
  datatype StartReceipt = StartReceipt(key: StartKey, request: Digest, session: Id, committedAt: Time)

  /** A system operation: bound to its source and digest from the first attempt, answered once. */
  datatype Operation = Operation(source: SystemSource, request: Digest, answer: Option<SystemReceipt>, applied: bool)

  datatype InboxRow = InboxRow(payload: Digest, completed: Option<nat>)

  datatype Tables = Tables(
    rooms: map<Id, Room>, sessions: map<Id, Session>, batches: map<BatchKey, Batch>,
    actions: map<ActionKey, ActionReceipt>, timers: map<TimerKey, TimerReceipt>, operations: map<OperationKey,
    Operation>,
    starts: map<StartKey, StartReceipt>, inbox: map<InboxKey, InboxRow>)
  {
    function Write(w: Tables): Tables {
      Tables(rooms + w.rooms, sessions + w.sessions, batches + w.batches, actions + w.actions, timers + w.timers,
             operations + w.operations, starts + w.starts, inbox + w.inbox)
    }
  }

  const NOTHING: Tables := Tables(map[], map[], map[], map[], map[], map[], map[], map[])

  // ----- sessions -----

  /** The session row after a state update: the columns that the update statement sets, the rest as locked. */
  function StateRow(current: Session, after: Session): Session {
    current.(state := after.state, start := after.start, cancelReason := after.cancelReason, deadline := after.deadline,
             suspendedAt := after.suspendedAt, status := after.status, updatedAt := after.updatedAt,
             endedAt := after.endedAt,
             timers := after.timers)
  }

  /** A lifecycle update leaves the state version and the start configuration alone. */
  function LifecycleRow(current: Session, after: Session): Session {
    current.(state := after.state.(stateVersion := current.state.stateVersion), cancelReason := after.cancelReason,
             deadline := after.deadline, suspendedAt := after.suspendedAt, status := after.status,
             updatedAt := after.updatedAt,
             endedAt := after.endedAt, timers := after.timers)
  }

  /** A row that no longer restores is an integrity failure and rolls the transaction back. */
  function Reread(row: Session): Result<Session> {
    match RestoreSession(row)
    case Ok(s) => Ok(s)
    case Err(_) => Err(GameSessionIntegrity)
  }

  /** What a state transition rechecks against the locked row: epoch, state version and status, nothing else. */
  function TransitionConflict(current: Session, before: Session): Option<Error> {
    if current.epoch != before.epoch then Some(OwnershipLost)
    else if current.Version() != before.Version() then Some(StateVersionConflict)
    else if current.status == Suspended then Some(SessionSuspended)
    else if current.status.Terminal() then Some(SessionTerminal)
    else None
  }

  /** A lifecycle change also rechecks the clocks and the timers. */
  function LifecycleConflict(current: Session, before: Session): Option<Error> {
    if current.epoch != before.epoch then Some(OwnershipLost)
    else if current.Version() != before.Version() then Some(StateVersionConflict)
    else if current.status != before.status then
      Some(if current.status == Suspended then SessionSuspended
           else if current.status.Terminal() then SessionTerminal else InvalidLifecycleCommit)
    else if current.status.Terminal() then Some(SessionTerminal)
    else if current.updatedAt != before.updatedAt || current.suspendedAt != before.suspendedAt
       || current.deadline != before.deadline
            || current.cancelReason != before.cancelReason || current.timers != before.timers
         then Some(InvalidLifecycleCommit)
    else None
  }

  predicate PendingInbox(db: Tables, session: Id, excluded: Id) {
    exists k :: k in db.inbox && k.session == session && db.inbox[k].completed == None
      && (excluded == NIL || k.eventId != excluded)
  }

  function AcquireOwnershipCAS(db: Tables, before: Session, next: Session): Result<Tables> {
    if next != before.(epoch := before.epoch + 1, updatedAt := next.updatedAt) || next.updatedAt <= before.updatedAt
       || before.epoch > MAX_INT64 || next.epoch > MAX_INT64 || before.Version() > MAX_INT64
    then Err(InvalidSessionInput)
    else if before.id !in db.sessions then Err(OwnershipLost)
    else
      var current := db.sessions[before.id];
      if current.Version() != before.Version() || current.epoch != before.epoch || current.status.Terminal()
      then Err(OwnershipLost)
      else match Reread(current.(epoch := current.epoch + 1, updatedAt := next.updatedAt))
        case Err(e) => Err(e)
        case Ok(stored) => Ok(NOTHING.(sessions := map[stored.id := stored]))
  }

  /** The rows of one engine step, shared by actions, timers and system operations. */
  function PersistStep(db: Tables, current: Session, after: Session, batch: Batch): Result<Tables> {
    if BatchKey(batch.session, batch.version) in db.batches then Err(GameSessionIntegrity)
    else match Reread(StateRow(current, after))
      case Err(e) => Err(e)
      case Ok(stored) =>
        Ok(NOTHING.(sessions := map[stored.id := stored],
                    batches := map[BatchKey(batch.session, batch.version) := batch]))
  }

  datatype ActionAnswer = ActionAnswer(writes: Tables, receipt: ActionReceipt, replayed: bool)
  datatype TimerAnswer = TimerAnswer(writes: Tables, receipt: TimerReceipt, replayed: bool)
  /** `retry` leaves the operation pending; then the receipt is only the one proposed. */
  datatype SystemAnswer = SystemAnswer(writes: Tables, receipt: SystemReceipt, replayed: bool, retry: bool)

  function CommitActionLocked(db: Tables, c: ActionCommit): Result<ActionAnswer> {
    if c.before.id !in db.sessions then Err(SessionNotFound)
    else
      var current := db.sessions[c.before.id];
      if c.receipt.key in db.actions then
        var stored := db.actions[c.receipt.key];
        if stored.request == c.receipt.request
        then Ok(ActionAnswer(NOTHING, stored, true)) else Err(IdempotencyConflict)
      else match TransitionConflict(current, c.before)
        case Some(e) => Err(e)
        case None =>
          if c.after.status.Terminal() && PendingInbox(db, c.after.id, NIL) then Err(SystemOperationPending)
          else match PersistStep(db, current, c.after, c.batch)
            case Err(e) => Err(e)
            case Ok(w) => Ok(ActionAnswer(w.(actions := map[c.receipt.key := c.receipt]), c.receipt, false))
  }

  function CommitAction(db: Tables, c: ActionCommit): Result<ActionAnswer> {
    if c.before.room !in db.rooms then Err(SessionNotFound)
    else if !db.rooms[c.before.room].IsParticipant(c.receipt.key.actor) then Err(ParticipantNotActive)
    else CommitActionLocked(db, c)
  }

  function CommitTimer(db: Tables, c: TimerCommit): Result<TimerAnswer> {
    if c.before.id !in db.sessions then Err(SessionNotFound)
    else
      var current := db.sessions[c.before.id];
      if c.receipt.key in db.timers then Ok(TimerAnswer(NOTHING, db.timers[c.receipt.key], true))
      else match TransitionConflict(current, c.before)
        case Some(e) => Err(e)
        case None =>
          if c.after.status.Terminal() && PendingInbox(db, c.after.id, NIL) then Err(SystemOperationPending)
          else match FindTimer(current.timers, c.receipt.key.timerId)
            case None => Err(TimerNotFound)
            case Some(armed) =>
              if armed.expectedVersion != c.receipt.key.expectedVersion || c.batch.committedAt < armed.due
                 || armed.message != c.batch.input
              then Err(TimerNotDue)
              else match PersistStep(db, current, c.after, c.batch)
                case Err(e) => Err(e)
                case Ok(w) => Ok(TimerAnswer(w.(timers := map[c.receipt.key := c.receipt]), c.receipt, false))
  }

  /** The operation row for a key, created pending on first sight; a different binding conflicts. */
  function LockOperation(db: Tables, key: SystemKey, request: Digest): Result<Operation> {
    var k := OperationKey(key.session, key.operation);
    if k in db.operations then
      if db.operations[k].source == key.source && db.operations[k].request == request
      then Ok(db.operations[k]) else Err(IdempotencyConflict)
    else if exists o :: o in db.operations && o.session == key.session
                      && db.operations[o].source.eventId == key.source.eventId
    then Err(IdempotencyConflict)
    else Ok(Operation(key.source, request, None, false))
  }

  function OperationRow(key: SystemKey, op: Operation): Tables {
    NOTHING.(operations := map[OperationKey(key.session, key.operation) := op])
  }

  function NoopReceipt(key: SystemKey, request: Digest, current: Session, result: Digest,
                       proposedAt: Time): SystemReceipt {
    SystemReceipt(key, request, NoopTerminal, result, current.Version(),
                  if proposedAt <= current.updatedAt then current.updatedAt + 1 else proposedAt)
  }

  function CommitSystem(db: Tables, c: SystemCommit, noopResult: Digest): Result<SystemAnswer> {
    if c.before.id !in db.sessions then Err(SessionNotFound)
    else
      var current := db.sessions[c.before.id];
      var key := c.receipt.key;
      match LockOperation(db, key, c.receipt.request)
      case Err(e) => Err(e)
      case Ok(op) =>
        if op.answer.Some? then Ok(SystemAnswer(NOTHING, op.answer.value, true, false))
        else if current.status.Terminal() then
          var receipt := NoopReceipt(key, c.receipt.request, current, noopResult, c.receipt.committedAt);
          Ok(SystemAnswer(OperationRow(key, op.(answer := Some(receipt))), receipt, false, false))
        else if current.epoch != c.before.epoch || current.Version() != c.before.Version() then
          Ok(SystemAnswer(OperationRow(key, op), c.receipt, false, true))
        else if current.status == Suspended then Err(SessionSuspended)
        else if c.after.status.Terminal() && PendingInbox(db, c.after.id, key.source.eventId)
        then Err(SystemOperationPending)
        else match PersistStep(db, current, c.after, c.batch)
          case Err(e) => Err(e)
          case Ok(w) =>
            Ok(SystemAnswer(w.(operations := map[OperationKey(key.session, key.operation) :=
                                              op.(answer := Some(c.receipt), applied := true)]),
                            c.receipt, false, false))
  }

  function CompleteSystemNoop(db: Tables, key: SystemKey, request: Digest, result: Digest,
                              reading: Reading): Result<SystemAnswer> {
    if !key.Valid() || reading == 0 then Err(InvalidSessionInput)
    else if key.session !in db.sessions then Err(SessionNotFound)
    else
      var current := db.sessions[key.session];
      if !current.status.Terminal() then Err(SystemOperationPending)
      else match LockOperation(db, key, request)
        case Err(e) => Err(e)
        case Ok(op) =>
          if op.answer.Some? then Ok(SystemAnswer(NOTHING, op.answer.value, true, false))
          else
            var receipt := NoopReceipt(key, request, current, result, Micros(reading));
            Ok(SystemAnswer(OperationRow(key, op.(answer := Some(receipt))), receipt, false, false))
  }

  function CommitLifecycle(db: Tables, c: LifecycleCommit): Result<Tables> {
    if c.before.id !in db.sessions then Err(SessionNotFound)
    else
      var current := db.sessions[c.before.id];
      match LifecycleConflict(current, c.before)
      case Some(e) => Err(e)
      case None =>
        match Reread(LifecycleRow(current, c.after))
        case Err(e) => Err(e)
        case Ok(stored) => Ok(NOTHING.(sessions := map[stored.id := stored]))
  }

  function CompleteInbox(db: Tables, key: InboxKey, payload: Digest, version: nat): Result<Tables> {
    if key.session == NIL || key.eventId == NIL || version == 0 || version > MAX_INT64 then Err(InvalidSessionInput)
    else if key !in db.inbox then Err(SessionNotFound)
    else if db.inbox[key].payload != payload then Err(IdempotencyConflict)
    else match db.inbox[key].completed
      case Some(v) => if v == version then Ok(NOTHING) else Err(GameSessionIntegrity)
      case None => Ok(NOTHING.(inbox := map[key := InboxRow(payload, Some(version))]))
  }

  // ----- rooms -----

  predicate RoomTransition(before: Room, after: Room) {
    && before.id == after.id && before.code == after.code && before.createdAt == after.createdAt
    && (after.hostEpoch == before.hostEpoch || after.hostEpoch == before.hostEpoch + 1)
    && after.roomVersion == before.roomVersion + 1
    && (after.membershipVersion == before.membershipVersion || after.membershipVersion == before.membershipVersion + 1)
    && after.roomVersion <= MAX_INT64 && after.membershipVersion <= MAX_INT64 && after.hostEpoch <= MAX_INT64
  }

  /** Writes the whole aggregate if versions and host epoch are still the expected ones. */
  function UpdateRoom(db: Tables, before: Room, after: Room): Result<Tables> {
    if before.id !in db.rooms then Err(RoomVersionConflict)
    else
      var current := db.rooms[before.id];
      if current.code != before.code || current.hostEpoch != before.hostEpoch
         || current.roomVersion != before.roomVersion
         || current.membershipVersion != before.membershipVersion then Err(RoomVersionConflict)
      else match Restore(after.(id := current.id, code := current.code, createdAt := current.createdAt))
        case Err(_) => Err(RoomIntegrity)
        case Ok(stored) => Ok(NOTHING.(rooms := map[stored.id := stored]))
  }

  function UpdateCAS(db: Tables, before: Room, after: Room): Result<Tables> {
    if !RoomTransition(before, after) then Err(InvalidRoomInput) else UpdateRoom(db, before, after)
  }

  /** A participant of the running game is gone in `after`: what the removal transaction demands of its arguments. */
  predicate RemovedParticipant(before: Room, after: Room, user: Id) {
    && before.status == Playing && before.activeSession != NIL
    && after.roomVersion == before.roomVersion + 1 && after.membershipVersion == before.membershipVersion + 1
    && before.IsParticipant(user) && (forall i :: 0 <= i < |after.members| ==> after.members[i].user != user)
  }

  /** Membership change and pending inbox entry in one transaction. */
  function CommitRemoval(db: Tables, before: Room, after: Room, user: Id, eventId: Id,
                         payload: Digest): Result<Tables> {
    if !RoomTransition(before, after) || eventId == NIL || !RemovedParticipant(before, after, user)
    then Err(InvalidRoomInput)
    else match UpdateRoom(db, before, after)
      case Err(e) => Err(e)
      case Ok(w) =>
        var key := InboxKey(before.activeSession, eventId);
        if key in db.inbox then Err(RoomIntegrity) else Ok(w.(inbox := map[key := InboxRow(payload, None)]))
  }

  // ----- both aggregates -----

  /** Every seat of the session is a room participant's and the other way round. */
  predicate SameSeats(ms: seq<Member>, ps: seq<Participant>) {
    && ParticipantCount(ms) == |ps|
    && forall i :: 0 <= i < |ps| ==>
         exists k :: 0 <= k < |ms| && ms[k].role == ParticipantRole
           && ms[k].user == ps[i].user && ms[k].seat == ps[i].seat
  }

  predicate StartMatches(before: Room, after: Room, s: Session) {
    && before.status.AdmissionMutable() && before.activeSession == NIL && before.activeGame == ""
    && after.status == Playing && after.activeSession != NIL && after.activeGame != ""
    && after.participantAdmission == AdmissionClosed
    && after.lastSession == NIL && after.lastGame == "" && before.visibility == after.visibility
    && before.host == after.host
    && before.capacity == after.capacity && before.spectatorAdmission == after.spectatorAdmission
    && before.membershipVersion == after.membershipVersion && before.members == after.members
    && s.id == after.activeSession && s.room == after.id && s.key.game == after.activeGame && s.status == Active
    && s.startedAt == after.updatedAt && SameSeats(after.members, s.participants)
  }

  predicate CreationValid(s: Session, b: Batch, events: seq<OutboxEvent>) {
    && s.id != NIL && s.Version() == 1 && s.epoch == 0 && (s.status == Active || s.status == Finished)
    && b.id != NIL && b.session == s.id && b.version == 1 && b.cause == Created && b.epoch == 0
    && b.committedAt == s.startedAt
    && EventsMatch(events, SessionCreatedEvent, s.id, b.committedAt)
  }

  datatype StartAnswer = StartAnswer(writes: Tables, session: Id, replayed: bool)

  function StartGame(db: Tables, before: Room, after: Room, s: Session, b: Batch, events: seq<OutboxEvent>,
                     receipt: StartReceipt): Result<StartAnswer> {
    if !RoomTransition(before, after) then Err(InvalidRoomInput)
    else if !CreationValid(s, b, events) then Err(InvalidSessionInput)
    else if !StartMatches(before, after, s) then Err(InvalidSessionInput)
    else if receipt.key.room != before.id || receipt.key.actor != before.host || receipt.session != s.id
       || receipt.committedAt != s.startedAt
    then Err(InvalidSessionInput)
    else if before.id !in db.rooms then Err(RoomNotFound)
    else if receipt.key in db.starts then
      var stored := db.starts[receipt.key];
      if stored.request == receipt.request
      then Ok(StartAnswer(NOTHING, stored.session, true)) else Err(IdempotencyConflict)
    else if db.rooms[before.id] != before then Err(RoomVersionConflict)
    else match UpdateRoom(db, before, after)
      case Err(e) => Err(e)
      case Ok(w) =>
        if s.id in db.sessions || BatchKey(s.id, 1) in db.batches then Err(GameSessionIntegrity)
        else match Reread(s)
          case Err(e) => Err(e)
          case Ok(stored) =>
            Ok(StartAnswer(w.(sessions := map[s.id := stored], batches := map[BatchKey(s.id, 1) := b],
                              starts := map[receipt.key := receipt]), s.id, false))
  }

  /** The room a termination must produce. The pause fields are those of `before`. */
  function ExpectedEnd(before: Room, after: Room, want: Status): Room {
    var base := before.(participantAdmission := AdmissionClosed, activeSession := NIL, activeGame := "",
                        roomVersion := before.roomVersion + 1, updatedAt := after.updatedAt);
    if want == Cancelled then
      base.(status := after.status,
            spectatorAdmission := if after.status == Closed then AdmissionClosed else before.spectatorAdmission,
            lastSession := NIL, lastGame := "")
    else base.(status := PostGame, lastSession := before.activeSession, lastGame := before.activeGame)
  }

  predicate SameTerminating(a: Session, b: Session) {
    a.id == b.id && a.room == b.room && a.key == b.key && a.epoch == b.epoch && a.startedAt == b.startedAt
      && a.participants == b.participants
  }

  predicate TerminationMatches(before: Room, after: Room, s: Session, t: Session, want: Status) {
    && RoomTransition(before, after)
    && (want == Cancelled ==> after.status == Lobby || after.status == Closed)
    && before.status == Playing && before.activeSession != NIL && ExpectedEnd(before, after, want) == after
    && SameTerminating(s, t)
    && s.id == before.activeSession && s.room == before.id && s.key.game == before.activeGame && t.status == want
    && t.updatedAt == after.updatedAt
    && (if want == Cancelled then s.state == t.state else t.cancelReason == "")
  }

  /** The dedicated finish statement: it clears the pointer and the pause columns itself. */
  function FinishRoom(db: Tables, before: Room, after: Room): Result<Tables> {
    if before.id !in db.rooms then Err(RoomVersionConflict)
    else
      var current := db.rooms[before.id];
      if current.status != Playing || current.activeSession != before.activeSession
         || current.activeGame != before.activeGame
         || current.roomVersion != before.roomVersion || current.membershipVersion != before.membershipVersion
      then Err(RoomVersionConflict)
      else
        var row := current.(status := PostGame, participantAdmission := AdmissionClosed,
                            lastSession := current.activeSession,
                            lastGame := current.activeGame, activeSession := NIL, activeGame := "",
                            request := NO_REQUEST,
                            pause := NO_PAUSE, roomVersion := after.roomVersion, updatedAt := after.updatedAt);
        if Restore(row) == Ok(after) then Ok(NOTHING.(rooms := map[before.id := after])) else Err(RoomIntegrity)
  }

  predicate SamePersistedTerminal(current: Session, proposed: Session, want: Status) {
    && current.id == proposed.id && current.room == proposed.room && current.key == proposed.key
    && current.epoch == proposed.epoch
    && current.Version() == proposed.Version() && current.status == want && current.endedAt == current.updatedAt
    && current.cancelReason == proposed.cancelReason
  }

  /** After the room moved on, only the receipt of the very transition that finished the session is replayed. */
  function ReplayFinish(db: Tables, after: Session, version: nat): Option<Error> {
    if after.id !in db.sessions then Some(SessionNotFound)
    else
      var current := db.sessions[after.id];
      if SamePersistedTerminal(current, after, Finished) && version == current.Version()
      then None else Some(GameSessionIntegrity)
  }

  function FinishAction(db: Tables, before: Room, after: Room, c: ActionCommit): Result<ActionAnswer> {
    if !TerminationMatches(before, after, c.before, c.after, Finished) then Err(InvalidSessionInput)
    else if before.id !in db.rooms then Err(RoomNotFound)
    else if !db.rooms[before.id].IsParticipant(c.receipt.key.actor) then Err(ParticipantNotActive)
    else if db.rooms[before.id] != before then
      if c.receipt.key !in db.actions then Err(RoomVersionConflict)
      else
        var stored := db.actions[c.receipt.key];
        if stored.request != c.receipt.request then Err(IdempotencyConflict)
        else match ReplayFinish(db, c.after, stored.version)
          case Some(e) => Err(e)
          case None => Ok(ActionAnswer(NOTHING, stored, true))
    else match CommitActionLocked(db, c)
      case Err(e) => Err(e)
      case Ok(a) =>
        if a.replayed then Err(InvalidActionCommit)
        else match FinishRoom(db, before, after)
          case Err(e) => Err(e)
          case Ok(w) => Ok(a.(writes := a.writes.(rooms := w.rooms)))
  }

  function FinishTimer(db: Tables, before: Room, after: Room, c: TimerCommit): Result<TimerAnswer> {
    if !TerminationMatches(before, after, c.before, c.after, Finished) then Err(InvalidSessionInput)
    else if before.id !in db.rooms then Err(RoomNotFound)
    else if db.rooms[before.id] != before then
      if c.receipt.key !in db.timers then Err(RoomVersionConflict)
      else match ReplayFinish(db, c.after, db.timers[c.receipt.key].version)
        case Some(e) => Err(e)
        case None => Ok(TimerAnswer(NOTHING, db.timers[c.receipt.key], true))
    else match CommitTimer(db, c)
      case Err(e) => Err(e)
      case Ok(a) =>
        if a.replayed then Err(InvalidTimerCommit)
        else match FinishRoom(db, before, after)
          case Err(e) => Err(e)
          case Ok(w) => Ok(a.(writes := a.writes.(rooms := w.rooms)))
  }

  function FinishSystem(db: Tables, before: Room, after: Room, actor: Id, c: SystemCommit,
                        noopResult: Digest): Result<SystemAnswer> {
    if c.receipt.key.source.requestedBy != actor then Err(HostRequired)
    else if !TerminationMatches(before, after, c.before, c.after, Finished) then Err(InvalidSessionInput)
    else if before.id !in db.rooms then Err(RoomNotFound)
    else if c.receipt.key.source.kind == HostApi && db.rooms[before.id].host != actor then Err(HostRequired)
    else if db.rooms[before.id] != before then
      var k := OperationKey(c.receipt.key.session, c.receipt.key.operation);
      if k !in db.operations then Err(RoomVersionConflict)
      else
        var op := db.operations[k];
        if op.source != c.receipt.key.source || op.request != c.receipt.request then Err(IdempotencyConflict)
        else match op.answer
          case None => Err(RoomVersionConflict)
          case Some(stored) =>
            match ReplayFinish(db, c.after, stored.version)
            case Some(e) => Err(e)
            case None => Ok(SystemAnswer(NOTHING, stored, true, false))
    else match CommitSystem(db, c, noopResult)
      case Err(e) => Err(e)
      case Ok(a) =>
        if a.retry then Ok(a)
        else if a.replayed || db.Write(a.writes).sessions[c.before.id].status != Finished then Err(InvalidSystemCommit)
        else match FinishRoom(db, before, after)
          case Err(e) => Err(e)
          case Ok(w) => Ok(a.(writes := a.writes.(rooms := w.rooms)))
  }

  function CancelGame(db: Tables, before: Room, after: Room, c: LifecycleCommit): Result<Tables> {
    if !TerminationMatches(before, after, c.before, c.after, Cancelled) then Err(InvalidSessionInput)
    else if before.id !in db.rooms then Err(RoomNotFound)
    else if c.before.id !in db.sessions then Err(SessionNotFound)
    else if db.rooms[before.id] != before then
      if db.rooms[before.id] == after && SamePersistedTerminal(db.sessions[c.before.id], c.after, Cancelled)
      then Ok(NOTHING)
      else Err(RoomVersionConflict)
    else match CommitLifecycle(db, c)
      case Err(e) => Err(e)
      case Ok(w) =>
        match UpdateRoom(db, before, after)
        case Err(e) => Err(e)
        case Ok(v) => Ok(w.(rooms := v.rooms))
  }

  predicate SameOutsidePause(a: Room, b: Room) {
    b == a.(request := b.request, pause := b.pause, roomVersion := a.roomVersion + 1, updatedAt := b.updatedAt)
  }

  predicate GovernanceMatches(before: Room, after: Room, s: Session, t: Session, pausing: bool) {
    && RoomTransition(before, after)
    && before.status == Playing && after.status == Playing && before.activeSession != NIL
    && before.activeSession == after.activeSession
    && before.activeSession == s.id && s.room == before.id && s.key.game == before.activeGame
    && s.status == (if pausing then Active else Suspended) && t.status == (if pausing then Suspended else Active)
    && SameTerminating(s, t) && (if pausing then s.state == t.state else s.state.SameEnvelope(t.state))
    && t.updatedAt == after.updatedAt && SameOutsidePause(before, after) && after.request.requestedAt == ZERO_TIME
    && (if pausing then before.pause.id == NIL && after.pause.id != NIL
                     && after.pause.session == s.id && after.pause.pausedAt == t.suspendedAt
        else before.pause.id != NIL && before.pause.session == s.id
             && before.pause.pausedAt == s.suspendedAt && after.pause.id == NIL)
  }

  function GovernGame(db: Tables, before: Room, after: Room, c: LifecycleCommit, pausing: bool): Result<Tables> {
    if !GovernanceMatches(before, after, c.before, c.after, pausing) then Err(InvalidLifecycleCommit)
    else if before.id !in db.rooms then Err(RoomNotFound)
    else if db.rooms[before.id] != before then Err(RoomVersionConflict)
    else match CommitLifecycle(db, c)
      case Err(e) => Err(e)
      case Ok(w) =>
        match UpdateRoom(db, before, after)
        case Err(e) => Err(e)
        case Ok(v) => Ok(w.(rooms := v.rooms))
  }
}
