/**
 * The service commands as their callers see them. Each looks for a stored answer first, in a transaction of its own,
 * and goes on to read, compute and commit only when there is none; `looked` are the tables at the lookup, `db` the
 * tables later.
 */
module RuntimeCalls {
  import opened Base
  import opened GameSdk
  import opened GameSession
  import opened SessionSteps
  import opened Commits
  import opened PartyRoom
  import opened RuntimeStore
  import opened RuntimeService

  datatype Lookup<+T> = Missing | Refused(error: Error) | Found(receipt: T)

  // ----- actions -----

  predicate ActionWellFormed(session: Id, i: ActionInput) {
    && session != NIL && i.actor != NIL && i.actionId != NIL && i.expectedVersion != 0 && i.epoch != 0
    && i.key.Valid() && i.message.Valid()
  }

  /** The actor holds a seat in the room of this session now. */
  predicate StillPlays(db: Tables, session: Id, user: Id) {
    session in db.sessions && db.sessions[session].room in db.rooms
      && db.rooms[db.sessions[session].room].IsParticipant(user)
  }

  function LookupAction(db: Tables, key: ActionKey, request: Digest): Lookup<ActionReceipt> {
    if !key.Valid() then Refused(InvalidSessionInput)
    else if key.session !in db.sessions then Refused(SessionNotFound)
    else if db.sessions[key.session].room !in db.rooms then Missing
    else if !StillPlays(db, key.session, key.actor) then Refused(ParticipantNotActive)
    else if key !in db.actions then Missing
    else if db.actions[key].request != request then Refused(IdempotencyConflict)
    else Found(db.actions[key])
  }

  /** A stored answer is shown to the player it belongs to, from the session as it is now. */
  function ShowToPlayer(db: Tables, session: Id, receipt: ActionReceipt): Result<ActionAnswer> {
    if session !in db.sessions then Err(SessionNotFound)
    else if !db.sessions[session].HasParticipant(receipt.key.actor) then Err(ParticipantNotActive)
    else Ok(ActionAnswer(NOTHING, receipt, true))
  }

  function HandleAction(looked: Tables, db: Tables, before: Session, room: Room, i: ActionInput): Result<ActionAnswer> {
    if !ActionWellFormed(before.id, i) then Err(InvalidSessionInput)
    else match LookupAction(looked, ActionKey(before.id, i.actor, i.actionId), i.request)
      case Refused(e) => Err(e)
      case Found(receipt) => ShowToPlayer(db, before.id, receipt)
      case Missing => ExecuteAction(db, before, room, i)
  }

  // ----- timers -----

  predicate TimerWellFormed(session: Id, i: TimerInput) {
    session != NIL && i.epoch != 0 && i.expectedVersion != 0 && i.message.Valid() && ValidIdentifier(i.timerId)
  }

  function LookupTimer(db: Tables, key: TimerKey): Lookup<TimerReceipt> {
    if !key.Valid() then Refused(InvalidSessionInput) else if key in db.timers then Found(db.timers[key]) else Missing
  }

  function HandleTimer(looked: Tables, db: Tables, before: Session, room: Room, i: TimerInput): Result<TimerAnswer> {
    if !TimerWellFormed(before.id, i) then Err(InvalidSessionInput)
    else match LookupTimer(looked, TimerKey(before.id, i.timerId, i.expectedVersion))
      case Refused(e) => Err(e)
      case Found(receipt) =>
        if before.id in db.sessions then Ok(TimerAnswer(NOTHING, receipt, true)) else Err(SessionNotFound)
      case Missing => ExecuteTimer(db, before, room, i)
  }

  // ----- system facts -----

  predicate SystemWellFormed(session: Id, i: SystemInput) {
    && session != NIL && i.operation != NIL && i.source.Valid() && i.expectedVersion != 0 && i.epoch != 0
    && i.key.Valid() && i.message.Valid()
  }

  /** A host's request needs the current host, also when it was answered before. */
  function HostRefusal(db: Tables, session: Id, i: SystemInput): Option<Error> {
    if i.source.kind != HostApi then None
    else if session !in db.sessions then Some(SessionNotFound)
    else if db.sessions[session].room !in db.rooms then Some(RoomNotFound)
    else if db.rooms[db.sessions[session].room].host != i.source.requestedBy then Some(HostRequired)
    else None
  }

  /** A pending operation is not an answer. */
  function LookupSystem(db: Tables, key: SystemKey, request: Digest): Lookup<SystemReceipt> {
    var k := OperationKey(key.session, key.operation);
    if !key.Valid() then Refused(InvalidSessionInput)
    else if k !in db.operations then Missing
    else if db.operations[k].source != key.source || db.operations[k].request != request
    then Refused(IdempotencyConflict)
    else if db.operations[k].answer.None? then Missing
    else Found(db.operations[k].answer.value)
  }

  /** How a call may end before it computes anything; `asked` are the tables at the host check. */
  function EarlyAnswer(asked: Tables, looked: Tables, session: Id, i: SystemInput): Option<Result<SystemAnswer>> {
    if !SystemWellFormed(session, i) then Some(Err(InvalidSessionInput))
    else if HostRefusal(asked, session, i).Some? then Some(Err(HostRefusal(asked, session, i).value))
    else match LookupSystem(looked, SystemKey(session, i.operation, i.source), i.request)
      case Refused(e) => Some(Err(e))
      case Found(receipt) =>
        Some(if session in looked.sessions then Ok(SystemAnswer(NOTHING, receipt, true, false))
             else Err(SessionNotFound))
      case Missing => None
  }

  const MAX_RECOMPUTATIONS: nat := 4

  /** What one round reads and generates; other commands commit between rounds. */
  datatype Round = Round(db: Tables, before: Session, room: Room, batchId: Id, execution: Execution,
                         transition: Transition,
                         result: Digest, noopResult: Digest)

  type Handler = (SystemInput, Round) -> Result<SystemAnswer>

  function InputOf(i: SystemInput, r: Round): SystemInput {
    i.(batchId := r.batchId, execution := r.execution, transition := r.transition, result := r.result,
       noopResult := r.noopResult)
  }

  function AnswerOf(i: SystemInput, r: Round): Result<SystemAnswer> {
    HandleSystemOnce(r.db, r.before, r.room, InputOf(i, r))
  }

  /** After a conflict the command takes epoch and version from the row that the store had locked. */
  function Adopt(i: SystemInput, r: Round): SystemInput {
    if r.before.id in r.db.sessions
    then i.(epoch := r.db.sessions[r.before.id].epoch, expectedVersion := r.db.sessions[r.before.id].Version())
    else i
  }

  /** The command as round n sees it, when every round before asked for another. */
  function InputAt(rounds: nat -> Round, n: nat, i: SystemInput): SystemInput {
    if n == 0 then i else Adopt(InputAt(rounds, n - 1, i), rounds(n - 1))
  }

  function AnswerAt(handle: Handler, rounds: nat -> Round, k: nat, i: SystemInput): Result<SystemAnswer> {
    handle(InputAt(rounds, k, i), rounds(k))
  }

  predicate RetriedAt(handle: Handler, rounds: nat -> Round, k: nat, i: SystemInput) {
    AnswerAt(handle, rounds, k, i).Ok? && AnswerAt(handle, rounds, k, i).value.retry
  }

  /**
   * Every round before the last asked for another and the fact was not a host's; the last one decides. A retry in the
   * last round is a conflict for a host, and otherwise leaves the operation pending after the fourth round.
   */
  predicate RoundsTaken(handle: Handler, rounds: nat -> Round, i: SystemInput, r: Result<SystemAnswer>, taken: nat) {
    && 0 < taken <= 4 && (i.source.kind == HostApi ==> taken == 1)
    && (forall k :: 0 <= k < taken - 1 ==> RetriedAt(handle, rounds, k, i))
    && (if !RetriedAt(handle, rounds, taken - 1, i) then r == AnswerAt(handle, rounds, taken - 1, i)
        else if i.source.kind == HostApi then r == Err(StateVersionConflict)
        else taken == 4 && r == Err(SystemOperationPending))
  }

  /** What a call for a system fact returns, and after how many rounds. */
  predicate SystemHandled(asked: Tables, looked: Tables, session: Id, handle: Handler, rounds: nat -> Round,
                          i: SystemInput,
                          r: Result<SystemAnswer>, taken: nat)
  {
    match EarlyAnswer(asked, looked, session, i)
    case Some(answer) => r == answer && taken == 0
    case None => RoundsTaken(handle, rounds, i, r, taken)
  }

  // ----- start -----

  predicate StartWellFormed(room: Id, i: StartInput) {
    && i.actor != NIL && room != NIL && i.operation != NIL && i.config.Valid() && i.expected.room != 0
    && i.expected.membership != 0
    && ValidIdentifier(i.game)
  }

  function LookupStart(db: Tables, key: StartKey, request: Digest): Lookup<StartReceipt> {
    if key.actor == NIL || key.room == NIL || key.operation == NIL then Refused(InvalidSessionInput)
    else if key !in db.starts then Missing
    else if db.starts[key].request != request then Refused(IdempotencyConflict)
    else Found(db.starts[key])
  }

  /** The session of an answered start, claimed first if its starter died before claiming it. `read` is its row. */
  function ReplayStart(db: Tables, read: Session, receipt: StartReceipt, now: Reading): Result<StartAnswer> {
    if read.room != receipt.key.room then Err(GameSessionIntegrity)
    else if read.epoch > 0 then Ok(StartAnswer(NOTHING, receipt.session, true))
    else match Claim(db, read, 0, BumpedTime(now, read.updatedAt))
      case Err(e) => Err(e)
      case Ok(writes) => Ok(StartAnswer(writes, receipt.session, true))
  }

  function Start(looked: Tables, db: Tables, read: Session, room: Room, i: StartInput): Result<StartAnswer> {
    if !StartWellFormed(room.id, i) then Err(InvalidSessionInput)
    else match LookupStart(looked, StartKey(i.actor, room.id, i.operation), i.request)
      case Refused(e) => Err(e)
      case Found(receipt) => ReplayStart(db, read, receipt, i.now)
      case Missing => ExecuteStart(db, room, i)
  }
}
