/**
 * Values shared by every component: results with the error the source would return, identifiers,
 * and instants.
 */
module Base {
  datatype Option<+T> = None | Some(value: T)

  datatype Error =
    | InvalidSessionInput | SessionTerminal | SessionSuspended | OwnershipLost | StateVersionConflict
    | TimerNotFound | TimerNotDue | SessionNotFound | ParticipantNotActive | SystemOperationPending
    | InvalidActionCommit | InvalidTimerCommit | InvalidSystemCommit | InvalidLifecycleCommit
    | GameSessionIntegrity | AdjustFailed | IdempotencyConflict
    | InvalidRoomInput | RoomVersionConflict | RoomVersionOverflow | RoomNotFound | RoomIntegrity
    | HostRequired | RoomClosed | RoomFull | AdmissionIsClosed | RoomStatusError | WaitingNotFound
    | SessionActive | InsufficientParticipants | ParticipantLimitExceeded | RoomSessionNotFound
    | GameAlreadyPaused | GameNotPaused | PauseRequestExists | PauseRequestNotFound
    | PauseParticipantRequired | HostTransferTargetInvalid | CannotRemoveHost | MemberNotFound

  datatype Result<+T> = Ok(value: T) | Err(error: Error)

  /** A UUID; 0 is the nil UUID. Byte order of UUID text is numeric order. */
  type Id = nat

  const NIL: Id := 0

  /** A SHA-256 request or result digest; 0 is the all-zero digest. */
  type Digest = nat

  const MAX_UINT64: nat := 0xFFFF_FFFF_FFFF_FFFF
  const MAX_INT64: nat := 0x7FFF_FFFF_FFFF_FFFF

  /** A clock reading or a module's deadline: nanoseconds since Go's zero instant, which is therefore 0. */
  type Reading = nat

  /** A stored instant: whole microseconds, the precision that PostgreSQL keeps. */
  type Time = nat

  const ZERO_TIME: Time := 0

  /** Truncation, applied wherever a reading enters an aggregate. */
  function Micros(r: Reading): Time { r / 1000 }

  function Nanos(t: Time): Reading { t * 1000 }

  /** A reading is before a stored instant exactly when its truncation is, so readings may be truncated first. */
  lemma TruncationKeepsOrder(r: Reading, t: Time)
    ensures r < Nanos(t) <==> Micros(r) < t
    ensures Nanos(t) <= r <==> t <= Micros(r)
    ensures Micros(Nanos(t)) == t
  {
  }

  function Min(a: int, b: int): int { if a <= b then a else b }

  function Max(a: int, b: int): int { if a >= b then a else b }
}
